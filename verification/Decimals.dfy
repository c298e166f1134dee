/**
 Arithmetic of Python's decimal module in its default context: every result is rounded to
 28 significant digits, half to even, and no digit lies beyond the 1000026th decimal place.
 A Decimal is represented by its value; conversion from text does not round.

 Powers of ten appear as shifts of the decimal point, so that everything stays linear.
 */
module Decimals {
  const LAST_PLACE := 1000026
  const FULL: int := 10000000000000000000000000000

  function Absolute(x: real): real {
    if x < 0.0 then -x else x
  }

  /** The decimal point moved `p` places to the right. */
  function Shifted(x: real, p: nat): real {
    if p == 0 then x else 10.0 * Shifted(x, p - 1)
  }

  /** The decimal point moved back. */
  function Back(y: real, p: nat): real
    decreases p
  {
    if p == 0 then y else Back(y / 10.0, p - 1)
  }

  /** The nearest integer, the even one of two. */
  function HalfEven(y: real): int {
    var below := y.Floor;
    var rest := y - below as real;
    if rest < 0.5 || (rest == 0.5 && below % 2 == 0) then below else below + 1
  }

  /** The decimal places that 28 digits leave to a number, of which `y` is shifted by `p`. */
  function Places(y: real, p: nat): (places: nat)
    requires p <= LAST_PLACE
    ensures p <= places <= LAST_PLACE
    decreases LAST_PLACE - p
  {
    if p < LAST_PLACE && 10.0 * y < FULL as real then Places(10.0 * y, p + 1) else p
  }

  function RoundAt(x: real, p: nat): real {
    Back(HalfEven(Shifted(x, p)) as real, p)
  }

  /** What the context makes of an exact result. */
  function Fix(x: real): real
    decreases Absolute(x).Floor
  {
    if Absolute(x) >= FULL as real then 10.0 * Fix(x / 10.0) else RoundAt(x, Places(Absolute(x), 0))
  }

  // -------------------------------------------------------------- shifting

  lemma {:induction false} ShiftedOfTen(x: real, p: nat)
    ensures Shifted(10.0 * x, p) == 10.0 * Shifted(x, p)
  {
    if p > 0 {
      ShiftedOfTen(x, p - 1);
    }
  }

  lemma {:induction false} BackOfShifted(x: real, p: nat)
    ensures Back(Shifted(x, p), p) == x
  {
    if p > 0 {
      BackOfShifted(x, p - 1);
    }
  }

  lemma {:induction false} ShiftedOfBack(y: real, p: nat)
    ensures Shifted(Back(y, p), p) == y
    decreases p
  {
    if p > 0 {
      ShiftedOfBack(y / 10.0, p - 1);
    }
  }

  lemma {:induction false} ShiftedIsLinear(x: real, y: real, p: nat)
    ensures Shifted(x + y, p) == Shifted(x, p) + Shifted(y, p)
    ensures Shifted(x - y, p) == Shifted(x, p) - Shifted(y, p)
  {
    if p > 0 {
      ShiftedIsLinear(x, y, p - 1);
    }
  }

  lemma {:induction false} ShiftedIsMonotone(x: real, y: real, p: nat)
    requires x <= y
    ensures Shifted(x, p) <= Shifted(y, p)
  {
    if p > 0 {
      ShiftedIsMonotone(x, y, p - 1);
    }
  }

  lemma {:induction false} ShiftedOfAbsolute(x: real, p: nat)
    ensures Shifted(Absolute(x), p) == Absolute(Shifted(x, p))
  {
    if p > 0 {
      ShiftedOfAbsolute(x, p - 1);
    }
  }

  lemma {:induction false} ShiftedGrows(y: real, p: nat)
    requires y >= 0.0
    ensures Shifted(y, p) >= y
  {
    if p > 0 {
      ShiftedGrows(y, p - 1);
    }
  }

  lemma {:induction false} BackIsMonotone(x: real, y: real, p: nat)
    requires x <= y
    ensures Back(x, p) <= Back(y, p)
    decreases p
  {
    if p > 0 {
      BackIsMonotone(x / 10.0, y / 10.0, p - 1);
    }
  }

  lemma {:induction false} BackIsLinear(x: real, y: real, p: nat)
    ensures Back(x - y, p) == Back(x, p) - Back(y, p)
    decreases p
  {
    if p > 0 {
      assert (x - y) / 10.0 == x / 10.0 - y / 10.0;
      BackIsLinear(x / 10.0, y / 10.0, p - 1);
    }
  }

  lemma {:induction false} BackShrinks(y: real, p: nat, q: nat)
    requires y >= 0.0 && p <= q
    ensures 0.0 <= Back(y, q) <= Back(y, p)
    decreases q
  {
    if p > 0 {
      BackShrinks(y / 10.0, p - 1, q - 1);
    } else if q > 0 {
      BackShrinks(y / 10.0, 0, q - 1);
    }
  }

  // -------------------------------------------------------------- the grid

  /** A multiple of 10^-d. */
  predicate OnGrid(x: real, d: nat) {
    IsInt(Shifted(x, d))
  }

  predicate IsInt(x: real) {
    x == x.Floor as real
  }

  lemma GridIsClosed(x: real, y: real, d: nat)
    requires OnGrid(x, d) && OnGrid(y, d)
    ensures OnGrid(x + y, d) && OnGrid(x - y, d)
  {
    ShiftedIsLinear(x, y, d);
    IntsAreClosed(Shifted(x, d), Shifted(y, d));
  }

  lemma IntsAreClosed(x: real, y: real)
    requires IsInt(x) && IsInt(y)
    ensures IsInt(x + y) && IsInt(x - y)
  {
    IsIntIf(x + y, x.Floor + y.Floor);
    IsIntIf(x - y, x.Floor - y.Floor);
  }

  lemma IsIntIf(x: real, k: int)
    requires x == k as real
    ensures IsInt(x)
  {
  }

  lemma {:induction false} GridIsFiner(x: real, d: nat, p: nat)
    requires OnGrid(x, d) && d <= p
    ensures OnGrid(x, p)
  {
    if d < p {
      GridIsFiner(x, d, p - 1);
      TenTimesInt(Shifted(x, p - 1));
    }
  }

  lemma TenTimesInt(y: real)
    requires IsInt(y)
    ensures IsInt(10.0 * y)
  {
    assert 10.0 * y == (10 * y.Floor) as real;
  }

  // -------------------------------------------------------------- rounding

  /** All places are kept that leave the number below 10^28. */
  lemma {:induction false} KeepsPlaces(y: real, p: nat, n: nat)
    requires y >= 0.0 && p + n <= LAST_PLACE && Shifted(y, n) < FULL as real
    ensures p + n <= Places(y, p)
    decreases n
  {
    if n > 0 {
      ShiftedOfTen(y, n - 1);
      ShiftedGrows(10.0 * y, n - 1);
      KeepsPlaces(10.0 * y, p + 1, n - 1);
    }
  }

  lemma {:induction false} StopsAtPlace(y: real, p: nat, n: nat)
    requires y >= 0.0 && p + n < LAST_PLACE && Shifted(y, n) < FULL as real <= Shifted(y, n + 1)
    ensures Places(y, p) == p + n
    decreases n
  {
    if n > 0 {
      ShiftedOfTen(y, n - 1);
      ShiftedOfTen(y, n);
      ShiftedGrows(10.0 * y, n - 1);
      StopsAtPlace(10.0 * y, p + 1, n - 1);
    }
  }

  lemma FixBelowFull(x: real)
    requires Absolute(x) < FULL as real
    ensures Fix(x) == RoundAt(x, Places(Absolute(x), 0))
  {
  }

  lemma OnGridIsKept(x: real, p: nat)
    requires OnGrid(x, p)
    ensures RoundAt(x, p) == x
  {
    BackOfShifted(x, p);
  }

  /** A multiple of 10^-d below 10^(28-d) has at most 28 digits and is not rounded. */
  lemma FixKeepsGrid(x: real, d: nat)
    requires d <= LAST_PLACE && OnGrid(x, d) && Shifted(Absolute(x), d) < FULL as real
    ensures Fix(x) == x
  {
    ShiftedGrows(Absolute(x), d);
    FixBelowFull(x);
    KeepsPlaces(Absolute(x), 0, d);
    var p := Places(Absolute(x), 0);
    GridIsFiner(x, d, p);
    OnGridIsKept(x, p);
  }

  lemma FixKeepsInt(k: int)
    requires -FULL < k < FULL
    ensures Fix(k as real) == k as real
  {
    FixKeepsGrid(k as real, 0);
  }

  /** The nearest integer; of two that are as near, the even one. */
  lemma HalfEvenIsNearest(y: real, k: int)
    ensures HalfEven(y) == k <==>
            Absolute(y - k as real) < 0.5 || (Absolute(y - k as real) == 0.5 && k % 2 == 0)
  {
    var below := y.Floor;
    assert y - 0.5 <= k as real <= y + 0.5 ==> below <= k <= below + 1;
  }

  /** A number is rounded at the place of its 28th significant digit. */
  lemma FixRoundsAtPlace(x: real, d: nat, k: int)
    requires d < 1000026 && Shifted(Absolute(x), d) < FULL as real <= Shifted(Absolute(x), d + 1)
    ensures Fix(x) == Back(k as real, d) <==> HalfEven(Shifted(x, d)) == k
  {
    ShiftedGrows(Absolute(x), d);
    FixBelowFull(x);
    StopsAtPlace(Absolute(x), 0, d);
    ShiftedOfBack(k as real, d);
    ShiftedOfBack(HalfEven(Shifted(x, d)) as real, d);
  }

  /** A number too small for that is rounded at the last place there is. */
  lemma FixRoundsTiny(x: real)
    requires Shifted(Absolute(x), LAST_PLACE) < FULL as real
    ensures LAST_PLACE == 1000026 && Fix(x) == Back(HalfEven(Shifted(x, LAST_PLACE)) as real, LAST_PLACE)
  {
    ShiftedGrows(Absolute(x), LAST_PLACE);
    FixBelowFull(x);
    KeepsPlaces(Absolute(x), 0, LAST_PLACE);
  }

  /** A number of more than 28 digits before the point keeps its magnitude. */
  lemma {:induction false} FixRoundsLarge(y: real, e: nat)
    requires (FULL / 10) as real <= Absolute(y) < FULL as real
    ensures Fix(Shifted(y, e)) == Shifted(HalfEven(y) as real, e)
    decreases e
  {
    if e == 0 {
      StopsAtPlace(Absolute(y), 0, 0);
      FixBelowFull(y);
    } else {
      FixRoundsLarge(y, e - 1);
      ShiftedOfAbsolute(y, e);
      ShiftedOfTen(Absolute(y), e - 1);
      ShiftedGrows(10.0 * Absolute(y), e - 1);
    }
  }

  lemma RoundsClose(x: real, p: nat)
    ensures Absolute(RoundAt(x, p) - x) <= Back(0.5, p)
  {
    var y := Shifted(x, p);
    var h := HalfEven(y) as real;
    BackOfShifted(x, p);
    BackIsLinear(h, y, p);
    BackIsMonotone(h - y, 0.5, p);
    BackIsMonotone(-0.5, h - y, p);
    BackIsLinear(0.0, 0.5, p);
    BackShrinks(0.0, 0, p);
  }

  /** The error of one operation: half a unit of a place that the result still has. */
  lemma FixIsClose(x: real, d: nat)
    requires d <= LAST_PLACE && Shifted(Absolute(x), d) < FULL as real
    ensures Absolute(Fix(x) - x) <= Back(0.5, d)
  {
    ShiftedGrows(Absolute(x), d);
    FixBelowFull(x);
    KeepsPlaces(Absolute(x), 0, d);
    var p := Places(Absolute(x), 0);
    RoundsClose(x, p);
    BackShrinks(0.5, d, p);
  }

  lemma RoundsAbove(x: real, k: nat, p: nat)
    requires x >= k as real
    ensures RoundAt(x, p) >= k as real
  {
    GridIsFiner(k as real, 0, p);
    ShiftedIsMonotone(k as real, x, p);
    BackIsMonotone(Shifted(k as real, p), HalfEven(Shifted(x, p)) as real, p);
    BackOfShifted(k as real, p);
  }

  /** Rounding does not go below an integer of few digits. */
  lemma {:induction false} FixStaysAbove(x: real, k: nat)
    requires k < FULL / 10 && x >= k as real
    ensures Fix(x) >= k as real
    decreases x.Floor
  {
    if x >= FULL as real {
      FixStaysAbove(x / 10.0, k);
    } else {
      RoundsAbove(x, k, Places(x, 0));
    }
  }
}
