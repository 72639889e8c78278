/**
 * Range pagination over an `i64` cursor: missing bounds are filled with the
 * cursor's extremes, and the number of items to fetch is capped by the
 * inclusive distance between the bounds.
 */
module Pagination {
  import opened Wrappers
  import opened Ints

  /** 2^64, the modulus of 64-bit wrap-around. */
  const WRAP: int := 0x1_0000_0000_0000_0000

  /** `Cursor::MIN` for `i64`. */
  const MIN: I64 := 0
  /** `Cursor::MAX` for `i64`. */
  const MAX: I64 := I64_MAX

  /** `i64::overflowing_sub(..).0`: the difference wrapped into the i64 range. */
  function WrappingSub(a: I64, b: I64): (r: I64)
    ensures (a - b - r) % WRAP == 0
  {
    var d := a - b;
    if d > I64_MAX then d - WRAP else if d < I64_MIN then d + WRAP else d
  }

  /** `i64::unsigned_abs`: exact even for `i64::MIN`. */
  function UnsignedAbs(x: I64): (r: U64)
    ensures r == Abs(x)
  {
    if x < 0 then -(x as int) else x
  }

  /**
   * `distance_between`: the absolute wrapped difference plus one. The
   * addition of one is a u64 addition, which the result type checks never
   * overflows; below 2^63 apart the result is the true inclusive distance,
   * further apart it wraps.
   */
  function DistanceBetween(a: I64, b: I64): (r: U64)
    ensures 1 <= r <= I64_MAX + 2
    ensures Abs(a - b) <= I64_MAX + 1 ==> r == Abs(a - b) + 1
    ensures Abs(a - b) > I64_MAX + 1 ==> r == WRAP - Abs(a - b) + 1
  {
    UnsignedAbs(WrappingSub(a, b)) + 1
  }

  /** A cursor is at distance one from itself. */
  lemma DistanceToSelf(a: I64)
    ensures DistanceBetween(a, a) == 1
  {
  }

  /** On the cursor's range [MIN, MAX] the distance is exactly |a - b| + 1. */
  lemma DistanceOnCursorRange(a: I64, b: I64)
    requires MIN <= a <= MAX && MIN <= b <= MAX
    ensures DistanceBetween(a, b) == Abs(a - b) + 1
  {
  }

  lemma DistanceSymmetric(a: I64, b: I64)
    ensures DistanceBetween(a, b) == DistanceBetween(b, a)
  {
  }

  /** Bounds below the cursor's MIN can wrap: i64::MAX and i64::MIN are at distance 2. */
  lemma DistanceWrapsBelowMin()
    ensures DistanceBetween(I64_MAX, I64_MIN) == 2
  {
  }

  /** The bounds as parsed from the query string; either may be missing. */
  datatype RawPagination = RawPagination(start: Option<I64>, stop: Option<I64>)

  /** `RawPagination::default`. */
  function DefaultRaw(): RawPagination {
    RawPagination(None, None)
  }

  datatype Pagination = Pagination(start: I64, stop: I64)

  /** `From<RawPagination<C>> for Pagination<C>`. */
  function FromRaw(raw: RawPagination): (p: Pagination)
    ensures raw.start.None? ==> p.start == MIN
    ensures raw.start.Some? ==> p.start == raw.start.value
    ensures raw.stop.None? ==> p.stop == MAX
    ensures raw.stop.Some? ==> p.stop == raw.stop.value
  {
    Pagination(raw.start.UnwrapOr(MIN), raw.stop.UnwrapOr(MAX))
  }

  /** `from_request_parts`: a query that does not parse counts as no bounds at all. */
  function FromRequest(parsed: Option<RawPagination>): (p: Pagination)
    ensures parsed.None? ==> p == Pagination(MIN, MAX)
    ensures parsed.Some? ==> p == FromRaw(parsed.value)
  {
    FromRaw(parsed.UnwrapOr(DefaultRaw()))
  }

  /** `Pagination::limit`: `u64::min` of the inclusive span and the caller's cap. */
  function Limit(p: Pagination, noMoreThan: U64): (r: U64)
    ensures r <= noMoreThan && r <= DistanceBetween(p.start, p.stop)
    ensures r == noMoreThan || r == DistanceBetween(p.start, p.stop)
  {
    var span := DistanceBetween(p.start, p.stop);
    if span <= noMoreThan then span else noMoreThan
  }

  /** With no bounds the span is 2^63, so the limit is the cap unless the cap is larger. */
  lemma LimitWithoutBounds(noMoreThan: U64)
    ensures Limit(FromRaw(DefaultRaw()), noMoreThan) ==
              if noMoreThan <= I64_MAX + 1 then noMoreThan else I64_MAX + 1
  {
  }

  /** On the cursor's range the limit is at most the number of cursor values from start to stop. */
  lemma LimitWithinSpan(p: Pagination, noMoreThan: U64)
    requires MIN <= p.start && MIN <= p.stop
    ensures Limit(p, noMoreThan) <= Abs(p.stop - p.start) + 1
  {
  }
}
