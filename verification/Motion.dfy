/** Numbers the motion code shares: floats as the wire carries them, tick rounding, bounded steps. */
module Motion {

  /** A Python float: a real, or one of the values `math.isfinite` rejects. */
  datatype Float = Finite(r: real) | NaN | Infinite(negative: bool)

  function MinInt(a: int, b: int): int { if a <= b then a else b }

  function MaxInt(a: int, b: int): int { if a >= b then a else b }

  function Abs(x: int): nat { if x < 0 then -x else x }

  function AbsReal(x: real): real { if x < 0.0 then -x else x }

  /** `max(low, min(high, x))`, which is `low` when the bounds cross. */
  function Clamp(x: int, low: int, high: int): int {
    MaxInt(low, MinInt(high, x))
  }

  function ClampReal(x: real, low: real, high: real): real {
    var m := if x <= high then x else high;
    if m >= low then m else low
  }

  /** Python's `round`: to nearest, halves to even. */
  function Round(x: real): (n: int)
    ensures x - 0.5 <= n as real <= x + 0.5
  {
    var low := x.Floor;
    var part := x - low as real;
    if part < 0.5 || (part == 0.5 && low % 2 == 0) then low else low + 1
  }

  /** `int(round(low + clamped * (high - low)))`. */
  function MapFraction(value: real, low: int, high: int): int {
    var span := high - low;
    Round(low as real + ClampReal(value, 0.0, 1.0) * span as real)
  }

  lemma ScaledFraction(share: real, span: real)
    requires 0.0 <= share <= 1.0 && span >= 0.0
    ensures 0.0 <= share * span <= span
  {
  }

  lemma RoundBetween(x: real, low: int, high: int)
    requires low as real <= x <= high as real
    ensures low <= Round(x) <= high
  {
  }

  /** A fraction of a range is inside it, and the ends of the fraction are the ends of the range. */
  lemma MapFractionInside(value: real, low: int, high: int)
    requires low <= high
    ensures low <= MapFraction(value, low, high) <= high
    ensures MapFraction(0.0, low, high) == low && MapFraction(1.0, low, high) == high
  {
    ScaledFraction(ClampReal(value, 0.0, 1.0), (high - low) as real);
    RoundBetween(low as real + ClampReal(value, 0.0, 1.0) * (high - low) as real, low, high);
  }

  /** `clamp_tiny_delta`: the target, but at most `maxDelta` away from the anchor. */
  function ClampTinyDelta(target: int, anchor: int, maxDelta: int): int {
    Clamp(target, anchor - maxDelta, anchor + maxDelta)
  }

  /** Where bounded steps of total length `travel` lead. */
  lemma StepsAddUp(target: int, anchor: int, first: nat, second: nat)
    ensures ClampTinyDelta(target, ClampTinyDelta(target, anchor, first), second)
         == ClampTinyDelta(target, anchor, first + second)
  {
  }

  /** A bounded walk never overshoots, and what is left shrinks by exactly what was travelled. */
  lemma WalkIsExact(target: int, anchor: int, travel: nat)
    ensures var at := ClampTinyDelta(target, anchor, travel);
            && Abs(target - at) == (if Abs(target - anchor) <= travel then 0 else Abs(target - anchor) - travel)
            && (anchor <= at <= target || target <= at <= anchor)
  {
  }

  /** The number of steps of this size that cover a distance. */
  function CeilDiv(distance: nat, step: nat): (n: nat)
    requires step > 0
    ensures n * step >= distance
    ensures n > 0 ==> (n - 1) * step < distance
  {
    if distance == 0 then 0
    else
      var n := (distance - 1) / step + 1;
      QuotientBounds(distance - 1, step);
      n
  }

  lemma QuotientBounds(a: nat, step: nat)
    requires step > 0
    ensures a / step * step <= a < (a / step + 1) * step
  {
  }

  lemma Fewer(a: nat, b: nat, step: nat)
    requires a <= b
    ensures a * step <= b * step
  {
  }

  /** Where n bounded steps lead: not past the target, n steps closer to it, and there after the last one needed. */
  predicate Walked(at: int, target: int, start: int, n: nat, step: nat)
    requires step > 0
  {
    var distance := Abs(target - start);
    && (start <= at <= target || target <= at <= start)
    && (n < CeilDiv(distance, step) ==> Abs(target - at) == distance - n * step > 0)
    && (n >= CeilDiv(distance, step) ==> at == target)
  }

  lemma WalkArrives(target: int, start: int, n: nat, step: nat)
    requires step > 0
    ensures Walked(ClampTinyDelta(target, start, n * step), target, start, n, step)
  {
    var distance := Abs(target - start);
    WalkIsExact(target, start, n * step);
    if n < CeilDiv(distance, step) {
      Fewer(n, CeilDiv(distance, step) - 1, step);
    } else {
      Fewer(CeilDiv(distance, step), n, step);
    }
  }

  /** The mapped fraction is the whole tick nearest to that share of the range, an outside fraction counting as the end. */
  lemma MapFractionIsNearest(value: real, low: int, high: int)
    requires low <= high
    ensures var share := if value < 0.0 then 0.0 else if value > 1.0 then 1.0 else value;
            var exact := low as real + share * (high - low) as real;
            exact - 0.5 <= MapFraction(value, low, high) as real <= exact + 0.5
  {
  }
}
