/** The two pagination sanitisers shared, character for character, by the
    `/boe-auctions` and `/pharma-medicines` routes. The client's query value
    reaches them already converted by JavaScript's `Number(...)`, seen here
    only as finite (a real number) or not (NaN or an infinity). */
module Pagination {

  datatype NumInput = NonFinite | Finite(value: real)

  const DefaultLimit: int := 50
  const MaxLimit: int := 200

  /** `Math.trunc` on a non-negative number: the integer part. */
  function Trunc(x: real): (r: int)
    requires x >= 0.0
    ensures 0 <= r && r as real <= x < r as real + 1.0
  {
    x.Floor
  }

  /** `sanitizeLimit`: a non-finite or non-positive value gives the default
      50; otherwise the integer part, raised to 1 and capped at 200. */
  function SanitizeLimit(n: NumInput): (r: int)
    ensures 1 <= r <= MaxLimit
    ensures (n.NonFinite? || n.value <= 0.0) ==> r == DefaultLimit
    ensures n.Finite? && 0.0 < n.value < 1.0 ==> r == 1
    ensures n.Finite? && 1.0 <= n.value < 201.0 ==> r as real <= n.value < r as real + 1.0
    ensures n.Finite? && n.value >= 200.0 ==> r == MaxLimit
  {
    if n.NonFinite? || n.value <= 0.0 then DefaultLimit
    else
      var t := Trunc(n.value);
      var atLeastOne := if t > 1 then t else 1;
      if atLeastOne < MaxLimit then atLeastOne else MaxLimit
  }

  /** `sanitizeOffset`: a non-finite or negative value gives 0; otherwise
      the integer part. */
  function SanitizeOffset(n: NumInput): (r: int)
    ensures r >= 0
    ensures (n.NonFinite? || n.value < 0.0) ==> r == 0
    ensures n.Finite? && n.value >= 0.0 ==> r as real <= n.value < r as real + 1.0
  {
    if n.NonFinite? || n.value < 0.0 then 0
    else
      var t := Trunc(n.value);
      if t > 0 then t else 0
  }

  /** The limit is 50 exactly when the input was unusable or when its
      integer part is itself 50: a fractional value in (0, 1) gives 1,
      never the default. */
  lemma LimitIsDefaultIff(n: NumInput)
    ensures SanitizeLimit(n) == DefaultLimit
        <==> n.NonFinite? || n.value <= 0.0 || 50.0 <= n.value < 51.0
  {
  }

  /** The offset is 0 exactly when the input was unusable or below 1. */
  lemma OffsetIsZeroIff(n: NumInput)
    ensures SanitizeOffset(n) == 0 <==> n.NonFinite? || n.value < 1.0
  {
  }

  /** Sanitising an already sanitised limit gives it back unchanged. */
  lemma {:induction false} LimitIdempotent(n: NumInput)
    ensures SanitizeLimit(Finite(SanitizeLimit(n) as real)) == SanitizeLimit(n)
  {
    var r := SanitizeLimit(n);
    assert Trunc(r as real) == r;
  }

  /** Sanitising an already sanitised offset gives it back unchanged. */
  lemma {:induction false} OffsetIdempotent(n: NumInput)
    ensures SanitizeOffset(Finite(SanitizeOffset(n) as real)) == SanitizeOffset(n)
  {
    var r := SanitizeOffset(n);
    assert Trunc(r as real) == r;
  }

  /** `?limit=9999&offset=-5` asks for limit 200 and offset 0. */
  lemma OutOfRangeQueryIsClamped()
    ensures SanitizeLimit(Finite(9999.0)) == 200
    ensures SanitizeOffset(Finite(-5.0)) == 0
    ensures SanitizeLimit(Finite(0.5)) == 1
    ensures SanitizeLimit(NonFinite) == 50
  {
  }
}
