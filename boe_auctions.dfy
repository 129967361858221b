/** `GET /boe-auctions`: a page of the normalised auction table, optionally
    filtered by auction status and by province. */
module BoeAuctions {
  import opened Wrappers
  import opened Text
  import opened Pagination
  import opened Sql

  /** The request's query string: `limit` and `offset` as `Number(...)` read
      them, the two filters as text (`None` when absent). */
  datatype BoeQuery = BoeQuery(
    limit: NumInput,
    offset: NumInput,
    auctionStatus: Option<string>,
    province: Option<string>)

  /** The filters the route applies to trimmed inputs, in the order it tests
      them: auction status first, then province, each only when non-empty. */
  function BoeFilters(auctionStatus: string, province: string): (r: seq<Filter>)
    ensures |r| == (if auctionStatus != "" then 1 else 0) + (if province != "" then 1 else 0)
    ensures auctionStatus != "" ==> r[0] == Filter("auction_status", Equals, auctionStatus)
    ensures province != "" ==> r[|r| - 1] == Filter("province", Equals, province)
  {
    (if auctionStatus != "" then [Filter("auction_status", Equals, auctionStatus)] else [])
    + (if province != "" then [Filter("province", Equals, province)] else [])
  }

  /** The filters a request applies, from its raw query values. */
  function RequestFilters(q: BoeQuery): seq<Filter> {
    BoeFilters(Trim(QueryText(q.auctionStatus)), Trim(QueryText(q.province)))
  }

  /** The route handler. It pushes each filter's value onto `params` and then
      a condition numbered by the new length of `params`, appends limit and
      offset, and asks the database through `run`. */
  method HandleBoeAuctions<Row>(q: BoeQuery, run: Statement -> QueryOutcome<Row>)
    returns (stmt: Statement, resp: ListResponse<Row>)
    ensures stmt == StatementFor(BoeSubastasNorm, RequestFilters(q),
                                 SanitizeLimit(q.limit), SanitizeOffset(q.offset))
    ensures resp == Shape(SanitizeLimit(q.limit), SanitizeOffset(q.offset), run(stmt))
  {
    var limit := SanitizeLimit(q.limit);
    var offset := SanitizeOffset(q.offset);
    var auctionStatus := Trim(QueryText(q.auctionStatus));
    var province := Trim(QueryText(q.province));

    var conditions: seq<Condition> := [];
    var params: seq<Param> := [];
    ghost var applied: seq<Filter> := [];

    if auctionStatus != "" {
      PushKeepsNumbering(conditions, params, applied, Filter("auction_status", Equals, auctionStatus));
      params := params + [TextParam(auctionStatus)];
      conditions := conditions + [Condition("auction_status", Equals, |params|)];
      applied := applied + [Filter("auction_status", Equals, auctionStatus)];
    }

    if province != "" {
      PushKeepsNumbering(conditions, params, applied, Filter("province", Equals, province));
      params := params + [TextParam(province)];
      conditions := conditions + [Condition("province", Equals, |params|)];
      applied := applied + [Filter("province", Equals, province)];
    }

    assert applied == BoeFilters(auctionStatus, province);
    PushPageKeepsOrder(params, applied, limit, offset);
    params := params + [IntParam(limit)];
    params := params + [IntParam(offset)];
    var where := WhereClause(conditions);

    stmt := Statement(BoeSubastasNorm, where, |params| - 1, |params|, params);
    var outcome := run(stmt);
    resp := Shape(limit, offset, outcome);
  }

  /** The shape of the statement a request produces: no `WHERE` exactly when
      both filters trim to empty, and one parameter per applied filter plus
      limit and offset. */
  lemma StatementShape(q: BoeQuery, limit: int, offset: int)
    ensures StatementFor(BoeSubastasNorm, RequestFilters(q), limit, offset).where == ""
        <==> Trim(QueryText(q.auctionStatus)) == "" && Trim(QueryText(q.province)) == ""
    ensures |StatementFor(BoeSubastasNorm, RequestFilters(q), limit, offset).params|
        == (if Trim(QueryText(q.auctionStatus)) != "" then 1 else 0)
         + (if Trim(QueryText(q.province)) != "" then 1 else 0) + 2
  {
    var fs := RequestFilters(q);
    NoFilterNoWhere(BoeSubastasNorm, fs, limit, offset);
    assert |ParamsFor(fs, limit, offset)| == |fs| + 2;
  }

  /** With both filters the clause tests status as `$1` and province as `$2`. */
  lemma BothFiltersWhere(auctionStatus: string, province: string)
    requires auctionStatus != "" && province != ""
    ensures WhereClause(NumberedConditions(BoeFilters(auctionStatus, province)))
         == "WHERE " + "auction_status = $1" + " AND " + "province = $2"
  {
    var a, b := Condition("auction_status", Equals, 1), Condition("province", Equals, 2);
    assert NumberedConditions(BoeFilters(auctionStatus, province)) == [a, b];
    WhereOfTwo(a, b);
    SmallPlaceholders();
    assert RenderCondition(a) == "auction_status" + " = " + "$1";
    assert RenderCondition(b) == "province" + " = " + "$2";
  }

  /** With only a province, the province takes `$1`: numbering follows the
      filters actually applied, not their fixed order. */
  lemma ProvinceOnlyWhere(province: string, limit: int, offset: int)
    requires province != ""
    ensures WhereClause(NumberedConditions(BoeFilters("", province)))
         == "WHERE " + "province = $1"
    ensures ParamsFor(BoeFilters("", province), limit, offset)
         == [TextParam(province), IntParam(limit), IntParam(offset)]
  {
    assert FilterValues(BoeFilters("", province)) == [TextParam(province)];
    var a := Condition("province", Equals, 1);
    assert NumberedConditions(BoeFilters("", province)) == [a];
    WhereOfOne(a);
    SmallPlaceholders();
    assert RenderCondition(a) == "province" + " = " + "$1";
  }
}
