/**
 * The auto-ranging decimal gain of the scaler IOC's current channel.
 *
 * Every raw current sample is multiplied by the PandA calibration constant and by
 * a gain that is always a power of ten. The gain is adjusted by comparing each new
 * scaled sample with the previous one only: a jump by more than five times divides
 * the gain by ten, a drop below a fifth multiplies it by ten.
 * Values are exact reals, not IEEE-754 doubles.
 */
module AutoRanging {

  /** Calibration factor from PandA ADC counts to the channel's unit. */
  const ScaleValue: real := -0.000000005

  /** Gain and gain exponent at start-up and after a reset. */
  const InitialScale: real := 0.01
  const InitialExponent: int := -2

  /** Magnitude at or below which a sample is too close to zero to re-range on. */
  const NoiseFloor: real := 0.01

  /** Ratios of successive scaled samples beyond which the gain is changed. */
  const RiseLimit: real := 5.0
  const FallLimit: real := 0.2

  function Abs(x: real): real
  {
    if x < 0.0 then -x else x
  }

  /** Ten to the power `e`, for any integer `e`. */
  function Pow10(e: int): (r: real)
    ensures r > 0.0
    decreases if e < 0 then -e else e
  {
    if e == 0 then 1.0
    else if e > 0 then 10.0 * Pow10(e - 1)
    else Pow10(e + 1) / 10.0
  }

  lemma Pow10Step(e: int)
    ensures Pow10(e + 1) == 10.0 * Pow10(e)
  {
    if e < 0 {
      assert Pow10(e) == Pow10(e + 1) / 10.0;
    }
  }

  /**
   * The gain of the current channel: `scale` is the multiplier itself and
   * `exponent` the power of ten it is meant to be (published as I:DEBUG).
   */
  datatype Gain = Gain(scale: real, exponent: int)
  {
    /** One decade less gain. */
    function Down(): Gain { Gain(scale / 10.0, exponent - 1) }

    /** One decade more gain. */
    function Up(): Gain { Gain(scale * 10.0, exponent + 1) }
  }

  const InitialGain: Gain := Gain(InitialScale, InitialExponent)

  /** The multiplier is exactly ten to the recorded exponent. */
  predicate Exact(g: Gain)
  {
    g.scale == Pow10(g.exponent)
  }

  lemma InitialGainExact()
    ensures Exact(InitialGain)
  {
    assert Pow10(-1) == 0.1;
  }

  /** A raw current sample in the channel's unit under gain `g`. */
  function Scaled(raw: real, g: Gain): real
  {
    raw * ScaleValue * g.scale
  }

  /**
   * The magnitude tests that must all pass before the ratio of two successive
   * samples is even looked at: the new sample and the previous one are above the
   * noise floor relative to the gain, and the latest potential is above the
   * absolute noise floor.
   */
  predicate Guard(scaled: real, last: real, ewe: real, scale: real)
  {
    Abs(scaled) > NoiseFloor * scale && Abs(last) > NoiseFloor * scale && Abs(ewe) > NoiseFloor
  }

  lemma GuardMakesRatioDefined(scaled: real, last: real, ewe: real, scale: real)
    requires scale > 0.0
    requires Guard(scaled, last, ewe, scale)
    ensures last != 0.0
  {
  }

  /** The gain after one current sample and the value that sample is stored and published as. */
  datatype Ranged = Ranged(gain: Gain, value: real)

  /**
   * One current sample: `raw` arrives while the ring index is `index`; `currents`
   * and `ewes` are the current and potential histories at that moment. The previous
   * sample is `currents[index - 1]` and the potential compared is `ewes[index]`.
   */
  function AutoRange(g: Gain, raw: real, index: nat, currents: seq<real>, ewes: seq<real>): (r: Ranged)
    requires g.scale > 0.0
    requires index < |currents| && index < |ewes|
    ensures r.value == Scaled(raw, r.gain)
    ensures r.gain == g || r.gain == g.Down() || r.gain == g.Up()
    ensures r.gain != g ==> index > 1 && Guard(Scaled(raw, g), currents[index - 1], ewes[index], g.scale)
  {
    var scaled := Scaled(raw, g);
    if index > 1 && Guard(scaled, currents[index - 1], ewes[index], g.scale) then
      var ratio := Abs(scaled / currents[index - 1]);
      if ratio > RiseLimit then
        Ranged(g.Down(), Scaled(raw, g.Down()))
      else if ratio < FallLimit then
        Ranged(g.Up(), Scaled(raw, g.Up()))
      else
        Ranged(g, scaled)
    else
      Ranged(g, scaled)
  }

  /** Re-ranging keeps the multiplier an exact power of ten. */
  lemma AutoRangeKeepsExact(g: Gain, raw: real, index: nat, currents: seq<real>, ewes: seq<real>)
    requires Exact(g)
    requires index < |currents| && index < |ewes|
    ensures Exact(AutoRange(g, raw, index, currents, ewes).gain)
  {
    Pow10Step(g.exponent - 1);
    Pow10Step(g.exponent);
  }

  /** A sample more than five times the previous one takes one decade of gain off and is scaled anew. */
  lemma AutoRangeRise(g: Gain, raw: real, index: nat, currents: seq<real>, ewes: seq<real>)
    requires g.scale > 0.0
    requires 1 < index < |currents| && index < |ewes|
    requires Guard(Scaled(raw, g), currents[index - 1], ewes[index], g.scale)
    requires Abs(Scaled(raw, g) / currents[index - 1]) > RiseLimit
    ensures AutoRange(g, raw, index, currents, ewes) == Ranged(g.Down(), Scaled(raw, g.Down()))
    ensures AutoRange(g, raw, index, currents, ewes).gain.exponent == g.exponent - 1
    ensures AutoRange(g, raw, index, currents, ewes).gain.scale == g.scale / 10.0
    ensures AutoRange(g, raw, index, currents, ewes).value == Scaled(raw, g) / 10.0
  {
  }

  /** A sample less than a fifth of the previous one adds one decade of gain and is scaled anew. */
  lemma AutoRangeFall(g: Gain, raw: real, index: nat, currents: seq<real>, ewes: seq<real>)
    requires g.scale > 0.0
    requires 1 < index < |currents| && index < |ewes|
    requires Guard(Scaled(raw, g), currents[index - 1], ewes[index], g.scale)
    requires Abs(Scaled(raw, g) / currents[index - 1]) < FallLimit
    ensures AutoRange(g, raw, index, currents, ewes) == Ranged(g.Up(), Scaled(raw, g.Up()))
    ensures AutoRange(g, raw, index, currents, ewes).gain.exponent == g.exponent + 1
    ensures AutoRange(g, raw, index, currents, ewes).gain.scale == g.scale * 10.0
    ensures AutoRange(g, raw, index, currents, ewes).value == Scaled(raw, g) * 10.0
  {
  }

  /** A ratio between a fifth and five, both included, leaves the gain alone. */
  lemma AutoRangeHoldsInBand(g: Gain, raw: real, index: nat, currents: seq<real>, ewes: seq<real>)
    requires g.scale > 0.0
    requires 1 < index < |currents| && index < |ewes|
    requires Guard(Scaled(raw, g), currents[index - 1], ewes[index], g.scale)
    requires FallLimit <= Abs(Scaled(raw, g) / currents[index - 1]) <= RiseLimit
    ensures AutoRange(g, raw, index, currents, ewes) == Ranged(g, Scaled(raw, g))
  {
  }

  /**
   * No re-ranging at ring index 0 or 1, nor when any of the three magnitudes is at
   * or below its noise floor, whatever the ratio.
   */
  lemma AutoRangeSuppressed(g: Gain, raw: real, index: nat, currents: seq<real>, ewes: seq<real>)
    requires g.scale > 0.0
    requires index < |currents| && index < |ewes|
    requires index <= 1 || Abs(ewes[index]) <= NoiseFloor || Abs(Scaled(raw, g)) <= NoiseFloor * g.scale
             || Abs(currents[index - 1]) <= NoiseFloor * g.scale
    ensures AutoRange(g, raw, index, currents, ewes) == Ranged(g, Scaled(raw, g))
  {
  }
}
