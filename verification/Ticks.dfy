/** Rounding to a step and to a banded tick ladder.

    Decimals are exact in the modelled code, so a price is an integer count of one common
    decimal unit. Python's decimal `//` and `%` truncate toward zero, and the model spells
    that out instead of using Dafny's Euclidean operators. */
module Ticks {
  import opened Common

  datatype Rounding = Floor | Ceiling | TowardZero | AwayFromZero | HalfEven

  datatype DecimalError = StepNotPositive

  function TruncatedQuotient(value: int, step: int): int
    requires step > 0
  {
    if value >= 0 then value / step else -((-value) / step)
  }

  /** What rounding `value` to a multiple of `step` means, independent of how it is computed. */
  predicate IsRounding(value: int, step: int, mode: Rounding, r: int)
    requires step > 0
  {
    && r % step == 0
    && Abs(r - value) < step
    && match mode
       case Floor => r <= value
       case Ceiling => value <= r
       case TowardZero => Abs(r) <= Abs(value)
       case AwayFromZero => Abs(r) >= Abs(value)
       case HalfEven => 2 * Abs(r - value) < step || (2 * Abs(r - value) == step && (r / step) % 2 == 0)
  }

  lemma ProductAtLeast(k: int, step: int)
    requires k >= 1 && step > 0
    ensures k * step >= step
  {
    assert (k - 1) * step >= 0;
    assert (k - 1) * step == k * step - step;
  }

  lemma DivisionIsUnique(a: int, step: int, q: int, r: int)
    requires step > 0 && a == q * step + r && 0 <= r < step
    ensures a / step == q && a % step == r
  {
    var p, s := a / step, a % step;
    assert a == p * step + s && 0 <= s < step;
    if q > p {
      ProductAtLeast(q - p, step);
    } else if q < p {
      ProductAtLeast(p - q, step);
    }
  }

  lemma MultipleOfStep(k: int, step: int)
    requires step > 0
    ensures (k * step) % step == 0
    ensures (k * step) / step == k
  {
    DivisionIsUnique(k * step, step, k, 0);
  }

  lemma MultiplesDiffer(a: int, b: int, step: int)
    requires step > 0 && a % step == 0 && b % step == 0 && a < b
    ensures b - a >= step && (b - a == step ==> b / step == a / step + 1)
  {
    var i, j := a / step, b / step;
    assert a == i * step && b == j * step;
    assert (j - i) * step == b - a;
    if j - i >= 2 {
      ProductAtLeast(j - i - 1, step);
      assert (j - i - 1) * step == (j - i) * step - step;
    } else if j - i < 0 {
      ProductAtLeast(i - j, step);
    }
  }

  lemma RoundingIsUnique(value: int, step: int, mode: Rounding, r: int, s: int)
    requires step > 0 && IsRounding(value, step, mode, r) && IsRounding(value, step, mode, s)
    ensures r == s
  {
    RoundingOneStepIsMonotone(value, value, step, mode, r, s);
    RoundingOneStepIsMonotone(value, value, step, mode, s, r);
  }

  /** For one step, rounding never swaps two values. */
  lemma RoundingOneStepIsMonotone(p: int, q: int, step: int, mode: Rounding, r: int, s: int)
    requires step > 0 && p <= q && IsRounding(p, step, mode, r) && IsRounding(q, step, mode, s)
    ensures r <= s
  {
    if s < r {
      var i, j := s / step, r / step;
      MultiplesDiffer(s, r, step);
      if r - s > step {
        StepBack(r, step);
        MultiplesDiffer(s, r - step, step);
      }
    }
  }

  lemma StepBack(r: int, step: int)
    requires step > 0 && r % step == 0
    ensures (r - step) % step == 0 && (r - step) / step == r / step - 1
  {
    assert (r / step - 1) * step == r - step;
    MultipleOfStep(r / step - 1, step);
  }

  function IsMultiple(value: int, step: int): (r: Result<bool, DecimalError>)
    ensures step <= 0 <==> r.Err?
    ensures step > 0 ==> r == Ok(value % step == 0)
  {
    if step <= 0 then Err(StepNotPositive) else
    var quotient := TruncatedQuotient(value, step);
    var remainder := value - quotient * step;
    RemainderZero(value, step);
    Ok(remainder == 0)
  }

  lemma RemainderZero(value: int, step: int)
    requires step > 0
    ensures value - TruncatedQuotient(value, step) * step == 0 <==> value % step == 0
    ensures value >= 0 ==> 0 <= value - TruncatedQuotient(value, step) * step < step
    ensures value < 0 ==> -step < value - TruncatedQuotient(value, step) * step <= 0
  {
    var q := TruncatedQuotient(value, step);
    if value < 0 {
      var n := -value;
      assert n == (n / step) * step + n % step;
      assert q * step == -((n / step) * step);
      if n % step == 0 {
        MultipleOfStep(q, step);
      } else if value % step == 0 {
        var k := value / step;
        assert n == (-k) * step;
        MultipleOfStep(-k, step);
      }
    }
  }

  function RoundToStep(value: int, step: int, mode: Rounding): (r: Result<int, DecimalError>)
    ensures step <= 0 <==> r.Err?
    ensures step > 0 ==> IsRounding(value, step, mode, r.value)
  {
    if step <= 0 then Err(StepNotPositive) else
    var quotient := TruncatedQuotient(value, step);
    var remainder := value - quotient * step;
    var towardZero := quotient * step;
    var away := towardZero + (if value > 0 then step else -step);
    RoundingCandidates(value, step);
    Ok(
      if remainder == 0 then towardZero else
      match mode
      case TowardZero => towardZero
      case AwayFromZero => away
      case Floor => if value > 0 then towardZero else away
      case Ceiling => if value > 0 then away else towardZero
      case HalfEven =>
        var twice := 2 * Abs(remainder);
        if twice < step then towardZero
        else if twice > step then away
        else if quotient % 2 == 0 then towardZero else away
    )
  }

  /** The multiple toward zero, and the next one away from it. */
  lemma CandidatesAreMultiples(value: int, step: int)
    requires step > 0
    ensures var q := TruncatedQuotient(value, step);
            var t := q * step;
            var away := t + (if value > 0 then step else -step);
            && t % step == 0 && t / step == q
            && away % step == 0 && away / step == (if value > 0 then q + 1 else q - 1)
  {
    var q := TruncatedQuotient(value, step);
    hide TruncatedQuotient;
    MultipleOfStep(q, step);
    var q' := if value > 0 then q + 1 else q - 1;
    assert q' * step == q * step + (if value > 0 then step else -step);
    MultipleOfStep(q', step);
  }

  lemma RoundingCandidates(value: int, step: int)
    requires step > 0
    ensures var q := TruncatedQuotient(value, step);
            var t := q * step;
            var away := t + (if value > 0 then step else -step);
            && t % step == 0 && t / step == q
            && away % step == 0 && away / step == (if value > 0 then q + 1 else q - 1)
            && Abs(t) <= Abs(value) && Abs(t - value) < step
            && (t != value ==> Abs(away) >= Abs(value) && Abs(away - value) < step)
            && (value > 0 ==> t <= value <= away)
            && (value < 0 ==> away <= value <= t)
            && (value == 0 ==> t == 0)
            && Abs(value - t) + Abs(away - value) == step
  {
    hide TruncatedQuotient;
    CandidatesAreMultiples(value, step);
    TruncationShrinks(value, step);
    Between(value, step, TruncatedQuotient(value, step) * step);
  }

  /** A value lies between the two, in either sign. */
  lemma Between(value: int, step: int, t: int)
    requires step > 0
    requires if value >= 0 then 0 <= t <= value < t + step else t - step < value <= t <= 0
    requires value == 0 ==> t == 0
    ensures var away := t + (if value > 0 then step else -step);
            && Abs(t) <= Abs(value) && Abs(t - value) < step
            && (t != value ==> Abs(away) >= Abs(value) && Abs(away - value) < step)
            && (value > 0 ==> t <= value <= away)
            && (value < 0 ==> away <= value <= t)
            && Abs(value - t) + Abs(away - value) == step
  {
  }

  lemma TruncationShrinks(value: int, step: int)
    requires step > 0
    ensures var t := TruncatedQuotient(value, step) * step;
            && (value >= 0 ==> 0 <= t <= value < t + step)
            && (value <= 0 ==> t - step < value <= t <= 0)
  {
    var n: nat := Abs(value);
    DivMod(n, step);
    if value < 0 {
      assert TruncatedQuotient(value, step) * step == -((n / step) * step);
    }
  }

  lemma DivMod(n: nat, step: int)
    requires step > 0
    ensures n == (n / step) * step + n % step && 0 <= n % step < step && 0 <= (n / step) * step <= n
  {
    assert n == (n / step) * step + n % step;
  }

  /** Tick size for prices at or above `fromPrice`, until the next band. */
  datatype Band = Band(fromPrice: int, tick: int)

  /** What the ladder's validator lets through. */
  predicate Accepted(bands: seq<Band>) {
    && |bands| > 0
    && bands[0].fromPrice == 0
    && (forall i :: 0 <= i < |bands| ==> bands[i].tick > 0)
    && (forall i, j :: 0 <= i < j < |bands| ==> bands[i].fromPrice < bands[j].fromPrice)
    && (forall i :: 0 < i < |bands| ==>
          && bands[i].fromPrice % bands[i - 1].tick == 0
          && bands[i].fromPrice % bands[i].tick == 0)
  }

  /** How many band starts are at or below `x`, as a bisection to the right finds. */
  function BisectRight(bands: seq<Band>, x: int): (k: nat)
    requires forall i, j :: 0 <= i < j < |bands| ==> bands[i].fromPrice < bands[j].fromPrice
    ensures k <= |bands|
    ensures forall i :: 0 <= i < k ==> bands[i].fromPrice <= x
    ensures forall i :: k <= i < |bands| ==> x < bands[i].fromPrice
  {
    if |bands| == 0 || x < bands[0].fromPrice then 0 else 1 + BisectRight(bands[1..], x)
  }

  function BandAt(bands: seq<Band>, price: int): (i: nat)
    requires Accepted(bands)
    ensures i < |bands|
    ensures bands[i].fromPrice <= Abs(price)
    ensures i + 1 < |bands| ==> Abs(price) < bands[i + 1].fromPrice
  {
    BisectRight(bands, Abs(price)) - 1
  }

  datatype Instrument = Instrument(tickSize: int, ladder: Option<seq<Band>>) {
    predicate Valid() {
      tickSize > 0 && (ladder.Some? ==> Accepted(ladder.value))
    }

    function TickAt(price: int): (tick: int)
      requires Valid()
      ensures tick > 0
    {
      if ladder.Some? then ladder.value[BandAt(ladder.value, price)].tick else tickSize
    }

    function RoundPrice(price: int, mode: Rounding): (r: int)
      requires Valid()
      ensures IsRounding(price, TickAt(price), mode, r)
    {
      RoundToStep(price, TickAt(price), mode).value
    }

    predicate IsTickAligned(price: int)
      requires Valid()
    {
      IsMultiple(price, TickAt(price)).value
    }
  }

  lemma NegatedMultiple(a: int, step: int)
    requires step > 0
    ensures a % step == 0 <==> (-a) % step == 0
  {
    if a % step == 0 {
      MultipleOfStep(-(a / step), step);
      assert -a == -(a / step) * step;
    }
    if (-a) % step == 0 {
      MultipleOfStep(-((-a) / step), step);
      assert a == -((-a) / step) * step;
    }
  }

  /** The rounded price never leaves its band, except to land exactly on the next boundary. */
  lemma RoundingStaysInBand(bands: seq<Band>, price: int, r: int)
    requires Accepted(bands)
    requires var tick := bands[BandAt(bands, price)].tick; r % tick == 0 && Abs(r - price) < tick
    ensures var i := BandAt(bands, price);
            && bands[i].fromPrice <= Abs(r)
            && (i + 1 < |bands| ==> Abs(r) <= bands[i + 1].fromPrice)
            && (price > 0 ==> r >= 0) && (price < 0 ==> r <= 0)
  {
    var i := BandAt(bands, price);
    var tick := bands[i].tick;
    NegatedMultiple(r, tick);
    var low := bands[i].fromPrice;
    assert low % tick == 0;
    assert 0 % tick == 0;
    if price > 0 && r < 0 { MultiplesDiffer(r, 0, tick); }
    if price < 0 && r > 0 { MultiplesDiffer(0, r, tick); }
    if Abs(r) < low { MultiplesDiffer(Abs(r), low, tick); }
    if i + 1 < |bands| && Abs(r) > bands[i + 1].fromPrice {
      MultiplesDiffer(bands[i + 1].fromPrice, Abs(r), tick);
    }
  }

  /** A rounded price is aligned to the tick that applies where it lands, even across a band. */
  lemma RoundedPriceIsAligned(inst: Instrument, price: int, mode: Rounding)
    requires inst.Valid()
    ensures inst.IsTickAligned(inst.RoundPrice(price, mode))
    ensures Abs(inst.RoundPrice(price, mode) - price) < inst.TickAt(price)
  {
    var r := inst.RoundPrice(price, mode);
    if inst.ladder.Some? {
      var bands := inst.ladder.value;
      var i := BandAt(bands, price);
      RoundingStaysInBand(bands, price, r);
      if i + 1 < |bands| && Abs(r) == bands[i + 1].fromPrice {
        assert BandAt(bands, r) == i + 1;
        NegatedMultiple(r, bands[i + 1].tick);
      } else {
        assert BandAt(bands, r) == i;
      }
    }
  }

  /** Rounding a rounded price changes nothing, whichever two modes are used. */
  lemma RoundingIsIdempotent(inst: Instrument, price: int, mode: Rounding, again: Rounding)
    requires inst.Valid()
    ensures inst.RoundPrice(inst.RoundPrice(price, mode), again) == inst.RoundPrice(price, mode)
  {
    var r := inst.RoundPrice(price, mode);
    RoundedPriceIsAligned(inst, price, mode);
    RoundingIsUnique(r, inst.TickAt(r), again, inst.RoundPrice(r, again), r);
  }

  /** Prices in bands that differ round to prices no further apart from zero than the bands are. */
  lemma LowerBandRoundsLower(bands: seq<Band>, p: int, q: int, r: int, s: int)
    requires Accepted(bands) && BandAt(bands, p) < BandAt(bands, q)
    requires Abs(r) <= bands[BandAt(bands, p) + 1].fromPrice && bands[BandAt(bands, q)].fromPrice <= Abs(s)
    ensures Abs(r) <= Abs(s)
  {
    var i, j := BandAt(bands, p), BandAt(bands, q);
    hide BandAt;
    assert bands[i + 1].fromPrice <= bands[j].fromPrice;
  }

  lemma FartherIsNoLowerBand(bands: seq<Band>, p: int, q: int)
    requires Accepted(bands) && Abs(p) <= Abs(q)
    ensures BandAt(bands, p) <= BandAt(bands, q)
  {
  }

  /** Where different ticks apply, each sign by itself. */
  lemma BandsKeepOrder(bands: seq<Band>, p: int, q: int, r: int, s: int)
    requires Accepted(bands) && p <= q && BandAt(bands, p) != BandAt(bands, q)
    requires var i := BandAt(bands, p);
             bands[i].fromPrice <= Abs(r) && (i + 1 < |bands| ==> Abs(r) <= bands[i + 1].fromPrice)
    requires var j := BandAt(bands, q);
             bands[j].fromPrice <= Abs(s) && (j + 1 < |bands| ==> Abs(s) <= bands[j + 1].fromPrice)
    requires (p >= 0 ==> r >= 0) && (p <= 0 ==> r <= 0) && (q >= 0 ==> s >= 0) && (q <= 0 ==> s <= 0)
    ensures r <= s
  {
    hide BandAt;
    if p >= 0 {
      FartherIsNoLowerBand(bands, p, q);
      LowerBandRoundsLower(bands, p, q, r, s);
    } else if q <= 0 {
      FartherIsNoLowerBand(bands, q, p);
      LowerBandRoundsLower(bands, q, p, s, r);
    }
  }

  lemma ZeroRoundsToZero(inst: Instrument, mode: Rounding)
    requires inst.Valid()
    ensures inst.RoundPrice(0, mode) == 0
  {
    var tick := inst.TickAt(0);
    assert 0 % tick == 0 && IsRounding(0, tick, mode, 0);
    RoundingIsUnique(0, tick, mode, inst.RoundPrice(0, mode), 0);
  }

  /** Rounding never swaps two prices, even when different ticks apply to them. */
  lemma RoundingKeepsOrder(inst: Instrument, p: int, q: int, mode: Rounding)
    requires inst.Valid() && p <= q
    ensures inst.RoundPrice(p, mode) <= inst.RoundPrice(q, mode)
  {
    var r, s := inst.RoundPrice(p, mode), inst.RoundPrice(q, mode);
    if inst.TickAt(p) == inst.TickAt(q) {
      RoundingOneStepIsMonotone(p, q, inst.TickAt(p), mode, r, s);
    } else {
      var bands := inst.ladder.value;
      if p == 0 || q == 0 { ZeroRoundsToZero(inst, mode); }
      RoundingStaysInBand(bands, p, r);
      RoundingStaysInBand(bands, q, s);
      hide BandAt, Accepted;
      BandsKeepOrder(bands, p, q, r, s);
    }
  }
}
