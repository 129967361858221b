/** `GET /pharma-medicines`: a page of the normalised medicines table,
    optionally narrowed by a case-insensitive substring search on the name. */
module PharmaMedicines {
  import opened Wrappers
  import opened Text
  import opened Pagination
  import opened Sql

  /** The request's query string: `limit` and `offset` as `Number(...)` read
      them, `search` as text (`None` when absent). */
  datatype PharmaQuery = PharmaQuery(limit: NumInput, offset: NumInput, search: Option<string>)

  /** The `ILIKE` pattern for a search: the text between two `%`, with any
      `%` or `_` inside it left as a wildcard. */
  function LikePattern(search: string): (r: string)
    ensures |r| == |search| + 2 && r[0] == '%' && r[|r| - 1] == '%'
    ensures r[1..|r| - 1] == search
  {
    "%" + search + "%"
  }

  /** The filters the route applies to a trimmed search: none when it is
      empty, otherwise one `nombre ILIKE` on its pattern. */
  function SearchFilters(search: string): (r: seq<Filter>)
    ensures search == "" <==> r == []
    ensures search != "" ==> r == [Filter("nombre", ILike, LikePattern(search))]
  {
    if search != "" then [Filter("nombre", ILike, LikePattern(search))] else []
  }

  /** The filters a request applies, from its raw query value. */
  function RequestFilters(q: PharmaQuery): seq<Filter> {
    SearchFilters(Trim(QueryText(q.search)))
  }

  /** The route handler: at most one pushed filter, then limit and offset,
      then the query through `run`. */
  method HandlePharmaMedicines<Row>(q: PharmaQuery, run: Statement -> QueryOutcome<Row>)
    returns (stmt: Statement, resp: ListResponse<Row>)
    ensures stmt == StatementFor(PharmaMedicamentos, RequestFilters(q),
                                 SanitizeLimit(q.limit), SanitizeOffset(q.offset))
    ensures resp == Shape(SanitizeLimit(q.limit), SanitizeOffset(q.offset), run(stmt))
  {
    var limit := SanitizeLimit(q.limit);
    var offset := SanitizeOffset(q.offset);
    var search := Trim(QueryText(q.search));

    var conditions: seq<Condition> := [];
    var params: seq<Param> := [];
    ghost var applied: seq<Filter> := [];

    if search != "" {
      PushKeepsNumbering(conditions, params, applied, Filter("nombre", ILike, LikePattern(search)));
      params := params + [TextParam(LikePattern(search))];
      conditions := conditions + [Condition("nombre", ILike, |params|)];
      applied := applied + [Filter("nombre", ILike, LikePattern(search))];
    }

    assert applied == SearchFilters(search);
    PushPageKeepsOrder(params, applied, limit, offset);
    params := params + [IntParam(limit)];
    params := params + [IntParam(offset)];
    var where := WhereClause(conditions);

    stmt := Statement(PharmaMedicamentos, where, |params| - 1, |params|, params);
    var outcome := run(stmt);
    resp := Shape(limit, offset, outcome);
  }

  /** A blank or absent search means no `WHERE` and `params` is exactly
      `[limit, offset]`, named by `$1` and `$2`. */
  lemma BlankSearchIsUnfiltered(limit: int, offset: int)
    ensures StatementFor(PharmaMedicamentos, SearchFilters(""), limit, offset)
         == Statement(PharmaMedicamentos, "", 1, 2, [IntParam(limit), IntParam(offset)])
  {
    assert FilterValues([]) == [];
  }

  /** A non-blank trimmed search binds `%search%` as `$1`, tested by the
      single condition `nombre ILIKE $1`; limit and offset move to `$2` and `$3`. */
  lemma SearchBindsFirstParam(search: string, limit: int, offset: int)
    requires search != ""
    ensures StatementFor(PharmaMedicamentos, SearchFilters(search), limit, offset)
         == Statement(PharmaMedicamentos, "WHERE " + "nombre ILIKE $1", 2, 3,
                      [TextParam("%" + search + "%"), IntParam(limit), IntParam(offset)])
  {
    var a := Condition("nombre", ILike, 1);
    assert NumberedConditions(SearchFilters(search)) == [a];
    WhereOfOne(a);
    SmallPlaceholders();
    assert RenderCondition(a) == "nombre" + " ILIKE " + "$1";
    assert FilterValues(SearchFilters(search)) == [TextParam(LikePattern(search))];
  }
}
