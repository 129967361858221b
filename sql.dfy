/** What the two paginated list routes hand to the database and what they
    answer: positional parameters, the `WHERE` clause built from numbered
    conditions, the `LIMIT`/`OFFSET` placeholders, and the JSON response.
    The database itself is a function parameter `run` in the route modules. */
module Sql {
  import opened Wrappers
  import opened Text

  /** One entry of the `params` array: filter text or a pagination number. */
  datatype Param = TextParam(text: string) | IntParam(n: int)

  datatype Op = Equals | ILike

  /** A filter a route decided to apply: the column, the comparison and the
      value to bind to it. */
  datatype Filter = Filter(column: string, op: Op, value: string)

  /** One entry of the `conditions` array: `column = $k` or `column ILIKE $k`. */
  datatype Condition = Condition(column: string, op: Op, placeholder: nat)

  /** The relation each route reads; its column list and `ORDER BY` are fixed text. */
  datatype Table = BoeSubastasNorm | PharmaMedicamentos

  /** The query a route sends: the table, the rendered `WHERE` text, the
      numbers written after `LIMIT $` and `OFFSET $`, and the `params` array. */
  datatype Statement = Statement(
    table: Table,
    where: string,
    limitPlaceholder: nat,
    offsetPlaceholder: nat,
    params: seq<Param>)

  /** `(req.query.x || "")`: an absent value reads as empty text. */
  function QueryText(v: Option<string>): string {
    if v.Some? then v.value else ""
  }

  /** `$k`, the text PostgreSQL reads as the k-th parameter. */
  function Placeholder(k: nat): (r: string)
    ensures |r| >= 2 && r[0] == '$'
    ensures forall i :: 1 <= i < |r| ==> IsDigit(r[i])
  {
    "$" + Decimal(k)
  }

  /** The digits after `$` read back as the parameter's position. */
  lemma PlaceholderNamesPosition(k: nat)
    ensures ParseDecimal(Placeholder(k)[1..]) == k
  {
    assert Placeholder(k)[1..] == Decimal(k);
    DecimalRoundTrip(k);
  }

  function OpText(op: Op): string {
    match op
    case Equals => " = "
    case ILike => " ILIKE "
  }

  /** The text pushed onto `conditions`. */
  function RenderCondition(c: Condition): string {
    c.column + OpText(c.op) + Placeholder(c.placeholder)
  }

  function RenderAll(cs: seq<Condition>): seq<string> {
    seq(|cs|, i requires 0 <= i < |cs| => RenderCondition(cs[i]))
  }

  /** `conditions.length ? "WHERE " + conditions.join(" AND ") : ""`. */
  function WhereClause(cs: seq<Condition>): (r: string)
    ensures r == "" <==> cs == []
    ensures cs != [] ==> "WHERE " <= r
  {
    if |cs| > 0 then "WHERE " + Join(RenderAll(cs), " AND ") else ""
  }

  /** A clause with one condition is that condition after `WHERE `. */
  lemma WhereOfOne(a: Condition)
    ensures WhereClause([a]) == "WHERE " + RenderCondition(a)
  {
    assert RenderAll([a]) == [RenderCondition(a)];
  }

  /** A clause with two conditions joins them, in order, with ` AND `. */
  lemma WhereOfTwo(a: Condition, b: Condition)
    ensures WhereClause([a, b]) == "WHERE " + RenderCondition(a) + " AND " + RenderCondition(b)
  {
    var parts := RenderAll([a, b]);
    assert parts == [RenderCondition(a), RenderCondition(b)];
    assert parts[1..] == [RenderCondition(b)];
    assert Join(parts[1..], " AND ") == RenderCondition(b);
  }

  /** The conditions a route pushes for `filters`: the i-th names `$(i+1)`,
      the length of `params` right after its value was pushed. */
  function NumberedConditions(filters: seq<Filter>): (r: seq<Condition>)
    ensures |r| == |filters|
  {
    seq(|filters|, i requires 0 <= i < |filters| =>
      Condition(filters[i].column, filters[i].op, i + 1))
  }

  /** The filter values, in order, as they sit at the front of `params`. */
  function FilterValues(filters: seq<Filter>): (r: seq<Param>)
    ensures |r| == |filters|
  {
    seq(|filters|, i requires 0 <= i < |filters| => TextParam(filters[i].value))
  }

  /** The `params` array: each filter's value in order, then limit, then offset. */
  function ParamsFor(filters: seq<Filter>, limit: int, offset: int): (r: seq<Param>)
    ensures |r| == |filters| + 2
  {
    FilterValues(filters) + [IntParam(limit), IntParam(offset)]
  }

  /** The state of a route's two arrays after it has applied `filters`. */
  predicate Numbered(conditions: seq<Condition>, params: seq<Param>, filters: seq<Filter>) {
    conditions == NumberedConditions(filters) && params == FilterValues(filters)
  }

  /** The step every filter takes: push the value, then push a condition
      numbered by the new length of `params`. It keeps each `$k` pointing at
      the value of the filter that produced it. */
  lemma PushKeepsNumbering(
    conditions: seq<Condition>, params: seq<Param>, filters: seq<Filter>, f: Filter)
    requires Numbered(conditions, params, filters)
    ensures var params' := params + [TextParam(f.value)];
      Numbered(conditions + [Condition(f.column, f.op, |params'|)], params', filters + [f])
  {
    var params' := params + [TextParam(f.value)];
    assert params' == FilterValues(filters + [f]);
    assert conditions + [Condition(f.column, f.op, |params'|)] == NumberedConditions(filters + [f]);
  }

  /** Pushing limit and then offset after the filter values gives `ParamsFor`. */
  lemma PushPageKeepsOrder(params: seq<Param>, filters: seq<Filter>, limit: int, offset: int)
    requires params == FilterValues(filters)
    ensures params + [IntParam(limit)] + [IntParam(offset)] == ParamsFor(filters, limit, offset)
  {
  }

  /** The rendered form of the first two placeholders. */
  lemma SmallPlaceholders()
    ensures Placeholder(1) == "$1" && Placeholder(2) == "$2"
  {
    assert Decimal(1) == "1";
    assert Decimal(2) == "2";
  }

  /** The statement a route sends for these filters and this page. */
  function StatementFor(table: Table, filters: seq<Filter>, limit: int, offset: int): (s: Statement)
    ensures s.table == table
  {
    var params := ParamsFor(filters, limit, offset);
    Statement(table, WhereClause(NumberedConditions(filters)), |params| - 1, |params|, params)
  }

  /** The positional agreement between SQL text and `params`: every
      condition's `$k` is in range and names its own filter's value, and
      `LIMIT`/`OFFSET` name the last two entries, which hold limit and offset. */
  lemma PlaceholdersPointToValues(
    table: Table, filters: seq<Filter>, limit: int, offset: int)
    ensures var s := StatementFor(table, filters, limit, offset);
      var cs := NumberedConditions(filters);
      && |s.params| == |filters| + 2
      && (forall i :: 0 <= i < |cs| ==>
            && cs[i].column == filters[i].column
            && cs[i].op == filters[i].op
            && cs[i].placeholder == i + 1
            && 1 <= cs[i].placeholder <= |s.params| - 2
            && s.params[cs[i].placeholder - 1] == TextParam(filters[i].value))
      && s.limitPlaceholder == |s.params| - 1
      && s.offsetPlaceholder == |s.params|
      && s.params[s.limitPlaceholder - 1] == IntParam(limit)
      && s.params[s.offsetPlaceholder - 1] == IntParam(offset)
  {
  }

  /** The `WHERE` clause is empty exactly when no filter applies. */
  lemma NoFilterNoWhere(table: Table, filters: seq<Filter>, limit: int, offset: int)
    ensures StatementFor(table, filters, limit, offset).where == "" <==> filters == []
  {
  }

  /** What the database answered: rows, or an error thrown by the query. */
  datatype QueryOutcome<Row> = Rows(rows: seq<Row>) | QueryFailed

  datatype PageInfo = PageInfo(limit: int, offset: int, count: nat)

  datatype ListBody<Row> = Page(data: seq<Row>, pagination: PageInfo) | ErrorBody(error: string)

  datatype ListResponse<Row> = ListResponse(status: nat, body: ListBody<Row>)

  /** The response of a list route: the rows with the sanitised page echoed
      and counted, or a 500 that reveals nothing of the error. */
  function Shape<Row>(limit: int, offset: int, outcome: QueryOutcome<Row>): (r: ListResponse<Row>)
    ensures r.status == 200 <==> outcome.Rows?
    ensures r.status != 200 ==> r == ListResponse(500, ErrorBody("internal_error"))
    ensures r.status == 200 ==>
      && r.body.Page?
      && r.body.data == outcome.rows
      && r.body.pagination.limit == limit
      && r.body.pagination.offset == offset
      && r.body.pagination.count == |r.body.data|
  {
    match outcome
    case Rows(rows) => ListResponse(200, Page(rows, PageInfo(limit, offset, |rows|)))
    case QueryFailed => ListResponse(500, ErrorBody("internal_error"))
  }
}
