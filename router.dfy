/** The Express application of `server.js`: the ordered stack of layers the
    startup script registers, the request object whose `user` the auth
    middleware sets, and first-match dispatch down that stack. */
module Router {
  import opened Wrappers
  import opened Text
  import opened Auth

  /** The fixed proxy target of the catch-all layer. */
  const BackendTarget := "http://adl-web:3000"

  datatype VerbMatch = AnyVerb | Only(verb: string)

  datatype PathMatch = AnyPath | Exactly(path: string)

  /** The handlers the gateway registers. */
  datatype Handler = LoginHandler | AuthMiddleware | Proxy(target: string) | HealthHandler

  /** One entry of the application's stack: when it applies and what runs. */
  datatype Layer = Layer(verbs: VerbMatch, paths: PathMatch, handler: Handler)

  /** The parts of a request the gateway reads: method, path (without the
      query string), `Authorization` header and parsed JSON body. */
  datatype Incoming = Incoming(verb: string, path: string, authorization: Option<string>, body: LoginBody)

  /** How a request ends: a response written by the gateway, a hand-off to
      the proxy target, or the framework's 404 when no layer ends it. */
  datatype Outcome = Reply(response: Response) | Forward(target: string) | NotFound

  /** The outcome together with the final value of `req.user`. */
  datatype Handled = Handled(outcome: Outcome, user: Option<Claims>)

  /** A handler either calls `next` (having possibly set `req.user`) or ends the request. */
  datatype Step = Next(user: Option<Claims>) | Finish(outcome: Outcome)

  /** The collaborators dispatch needs: the signing configuration and the
      two library calls. */
  datatype Env = Env(cfg: Config, sign: Signer, verify: Verifier)

  /** `app.get` also answers `HEAD`; `app.post` only `POST`. */
  predicate VerbMatches(m: VerbMatch, verb: string) {
    match m
    case AnyVerb => true
    case Only(v) => verb == v || (v == "GET" && verb == "HEAD")
  }

  /** Express routes compare paths ignoring ASCII case and one trailing
      slash; `app.use("/")` takes every path. */
  predicate PathMatches(m: PathMatch, path: string) {
    match m
    case AnyPath => true
    case Exactly(p) => Lower(path) == Lower(p) || Lower(path) == Lower(p) + "/"
  }

  predicate LayerMatches(l: Layer, req: Incoming) {
    VerbMatches(l.verbs, req.verb) && PathMatches(l.paths, req.path)
  }

  /** What one handler does with a request whose `req.user` is `user`. */
  function RunHandler(h: Handler, req: Incoming, user: Option<Claims>, env: Env): Step {
    match h
    case LoginHandler => Finish(Reply(Login(req.body, env.cfg, env.sign)))
    case AuthMiddleware =>
      (match Authenticate(req.authorization, env.cfg, env.verify)
       case Admit(payload) => Next(Some(payload))
       case Deny(response) => Finish(Reply(response)))
    case Proxy(target) => Finish(Forward(target))
    case HealthHandler => Finish(Reply(Response(200, StatusBody("ok"))))
  }

  /** Dispatch from layer `i` on: skip layers that do not match, run those
      that do, stop at the first that ends the request. */
  function Handle(stack: seq<Layer>, i: nat, req: Incoming, user: Option<Claims>, env: Env): Handled
    requires i <= |stack|
    decreases |stack| - i
  {
    if i == |stack| then Handled(NotFound, user)
    else if !LayerMatches(stack[i], req) then Handle(stack, i + 1, req, user, env)
    else
      match RunHandler(stack[i].handler, req, user, env)
      case Finish(outcome) => Handled(outcome, user)
      case Next(user') => Handle(stack, i + 1, req, user', env)
  }

  /** The request object: fixed request data and the mutable `user`. */
  class Request {
    const incoming: Incoming
    var user: Option<Claims>

    constructor (incoming: Incoming)
      ensures this.incoming == incoming && user == None
    {
      this.incoming := incoming;
      user := None;
    }
  }

  /** `authMiddleware(req, res, next)`: on admission sets `req.user` to the
      verified payload and calls `next`; otherwise leaves `req.user` alone
      and writes the 401. */
  method RunAuthMiddleware(req: Request, env: Env) returns (step: Step)
    modifies req
    ensures step == RunHandler(AuthMiddleware, req.incoming, old(req.user), env)
    ensures req.user == (if step.Next? then step.user else old(req.user))
  {
    var decision := Authenticate(req.incoming.authorization, env.cfg, env.verify);
    match decision
    case Deny(response) =>
      step := Finish(Reply(response));
    case Admit(payload) =>
      req.user := Some(payload);
      step := Next(req.user);
  }

  /** Runs one handler on the request object. */
  method Invoke(h: Handler, req: Request, env: Env) returns (step: Step)
    modifies req
    ensures step == RunHandler(h, req.incoming, old(req.user), env)
    ensures req.user == (if step.Next? then step.user else old(req.user))
  {
    if h == AuthMiddleware {
      step := RunAuthMiddleware(req, env);
    } else {
      step := RunHandler(h, req.incoming, req.user, env);
      assert step.Finish?;
    }
  }

  /** The application: its configuration and its stack of layers, in the
      order they were registered. */
  class App {
    const cfg: Config
    var stack: seq<Layer>

    constructor (cfg: Config)
      ensures this.cfg == cfg && stack == []
    {
      this.cfg := cfg;
      stack := [];
    }

    /** `app.post(path, handler)`. */
    method Post(path: string, h: Handler)
      modifies this
      ensures stack == old(stack) + [Layer(Only("POST"), Exactly(path), h)]
    {
      stack := stack + [Layer(Only("POST"), Exactly(path), h)];
    }

    /** `app.get(path, handler)`. */
    method Get(path: string, h: Handler)
      modifies this
      ensures stack == old(stack) + [Layer(Only("GET"), Exactly(path), h)]
    {
      stack := stack + [Layer(Only("GET"), Exactly(path), h)];
    }

    /** `app.use("/", h1, h2, ...)`: one layer per handler, in argument order. */
    method UseEverywhere(hs: seq<Handler>)
      modifies this
      ensures stack == old(stack) + seq(|hs|, i requires 0 <= i < |hs| => Layer(AnyVerb, AnyPath, hs[i]))
    {
      stack := stack + seq(|hs|, i requires 0 <= i < |hs| => Layer(AnyVerb, AnyPath, hs[i]));
    }

    /** Serves one request: walks the stack in order and stops at the first
      layer that ends the request. */
    method Dispatch(req: Request, sign: Signer, verify: Verifier) returns (outcome: Outcome)
      modifies req
      ensures Handled(outcome, req.user) == Handle(stack, 0, req.incoming, old(req.user), Env(cfg, sign, verify))
    {
      var env := Env(cfg, sign, verify);
      var i := 0;
      while i < |stack|
        invariant 0 <= i <= |stack|
        invariant Handle(stack, 0, req.incoming, old(req.user), env)
               == Handle(stack, i, req.incoming, req.user, env)
        decreases |stack| - i
      {
        if LayerMatches(stack[i], req.incoming) {
          var step := Invoke(stack[i].handler, req, env);
          if step.Finish? {
            return step.outcome;
          }
        }
        i := i + 1;
      }
      outcome := NotFound;
    }
  }

  /** The stack `server.js` registers, in its order. */
  function GatewayStack(): seq<Layer> {
    [ Layer(Only("POST"), Exactly("/login"), LoginHandler),
      Layer(AnyVerb, AnyPath, AuthMiddleware),
      Layer(AnyVerb, AnyPath, Proxy(BackendTarget)),
      Layer(Only("GET"), Exactly("/health"), HealthHandler) ]
  }

  /** Process start: the secret guard runs before any layer is registered,
      so a missing secret leaves no application at all. */
  method Boot(jwtSecret: Option<string>, jwtExpiresIn: Option<string>) returns (r: Result<App, string>)
    ensures r.Failure? <==> jwtSecret.None? || jwtSecret.value == ""
    ensures r.Failure? ==> r.error == SecretMissing
    ensures r.Success? ==>
      && fresh(r.value)
      && r.value.stack == GatewayStack()
      && Success(r.value.cfg) == LoadConfig(jwtSecret, jwtExpiresIn)
  {
    var loaded := LoadConfig(jwtSecret, jwtExpiresIn);
    if loaded.Failure? {
      return Failure(loaded.error);
    }
    var app := new App(loaded.value);
    app.Post("/login", LoginHandler);
    app.UseEverywhere([AuthMiddleware, Proxy(BackendTarget)]);
    app.Get("/health", HealthHandler);
    return Success(app);
  }

  /** The requests the login layer takes. */
  predicate IsLoginRequest(req: Incoming) {
    LayerMatches(GatewayStack()[0], req)
  }

  /** Login is reachable without a token and answers from the credential
      check alone. */
  lemma LoginIsPublic(req: Incoming, user: Option<Claims>, env: Env)
    requires IsLoginRequest(req)
    ensures Handle(GatewayStack(), 0, req, user, env)
         == Handled(Reply(Login(req.body, env.cfg, env.sign)), user)
  {
  }

  /** Every other request meets the auth middleware first: it is answered
      with the middleware's 401 or forwarded to the backend with `req.user`
      set to the verified payload. */
  lemma {:induction false} EveryOtherRequestIsGated(req: Incoming, user: Option<Claims>, env: Env)
    requires !IsLoginRequest(req)
    ensures var h := Handle(GatewayStack(), 0, req, user, env);
      match Authenticate(req.authorization, env.cfg, env.verify)
      case Deny(response) => h == Handled(Reply(response), user)
      case Admit(payload) => h == Handled(Forward(BackendTarget), Some(payload))
  {
    var s := GatewayStack();
    assert Handle(s, 0, req, user, env) == Handle(s, 1, req, user, env);
    assert LayerMatches(s[1], req);
    match Authenticate(req.authorization, env.cfg, env.verify)
    case Deny(response) =>
    case Admit(payload) =>
      assert Handle(s, 1, req, user, env) == Handle(s, 2, req, Some(payload), env);
      assert LayerMatches(s[2], req);
  }

  /** A request is forwarded only with a `Bearer ` token the verifier
      accepted, and `req.user` is then that token's payload. */
  lemma ForwardOnlyVerified(req: Incoming, user: Option<Claims>, env: Env)
    ensures var h := Handle(GatewayStack(), 0, req, user, env);
      h.outcome.Forward? ==>
        && h.outcome.target == BackendTarget
        && BearerToken(req.authorization).Some?
        && h.user.Some?
        && env.verify(BearerToken(req.authorization).value, env.cfg.secret) == h.user
  {
    if !IsLoginRequest(req) {
      EveryOtherRequestIsGated(req, user, env);
    }
  }

  /** The health layer, registered after the catch-all, never runs: the
      stack behaves exactly as if it were not there, and every request
      ends before the framework's 404. */
  lemma HealthLayerIsDead(req: Incoming, user: Option<Claims>, env: Env)
    ensures Handle(GatewayStack(), 0, req, user, env) == Handle(GatewayStack()[..3], 0, req, user, env)
    ensures Handle(GatewayStack(), 0, req, user, env).outcome != NotFound
  {
    var s, t := GatewayStack(), GatewayStack()[..3];
    assert t == [s[0], s[1], s[2]];
    if !IsLoginRequest(req) {
      EveryOtherRequestIsGated(req, user, env);
      assert Handle(t, 0, req, user, env) == Handle(t, 1, req, user, env);
      match Authenticate(req.authorization, env.cfg, env.verify)
      case Deny(response) =>
      case Admit(payload) =>
        assert Handle(t, 1, req, user, env) == Handle(t, 2, req, Some(payload), env);
    }
  }

  /** `GET /health` without a token is refused like any protected path. */
  lemma HealthNeedsToken(user: Option<Claims>, env: Env)
    ensures Handle(GatewayStack(), 0, Incoming("GET", "/health", None, LoginBody(None, None)), user, env)
         == Handled(Reply(MissingHeader), user)
  {
    var req := Incoming("GET", "/health", None, LoginBody(None, None));
    assert !IsLoginRequest(req);
    EveryOtherRequestIsGated(req, user, env);
  }
}
