/**
 * The scaler IOC: it rescales the PandA's potential and current samples into three
 * 60000-slot circular histories, keeps the current channel's auto-ranging gain, and
 * runs the cycle / experiment state machine driven by trigger-in, counter and reset
 * events and by the TRIG:OUT, FREQ:SET, EXP:NUM_CYCLES and RESET putters.
 *
 * Writes the IOC issues to the PandA are recorded, in order, as an append-only trace.
 */
module ScalerIoc {
  import opened AutoRanging

  datatype Option<T> = None | Some(value: T)

  /** Capacity of the EWE, I and I:DEBUG circular histories. */
  const BufferLength: nat := 60000

  /** The two texts published on CYCLE:STATUS and EXP:STATUS. */
  const Idle: string := "Idle"
  const Running: string := "Running"

  function StatusText(running: bool): string
  {
    if running then Running else Idle
  }

  /** The ring index after a current sample at index `i`. */
  function NextIndex(i: nat): (j: nat)
    requires i < BufferLength
    ensures j < BufferLength
    ensures j == (i + 1) % BufferLength
  {
    if i + 1 >= BufferLength then 0 else i + 1
  }

  /**
   * The PandA records the IOC writes to: BITS:A drives the potentiostat's trigger
   * line (ttlout), BITS:B the counter reset, and CLOCK1 the acquisition clock.
   */
  datatype PandaPv = BitsA | BitsB | Clock1Period | Clock1Width

  datatype PandaWrite = PandaWrite(pv: PandaPv, value: real)

  /** The value last written to `pv`, if any. */
  function Latest(w: seq<PandaWrite>, pv: PandaPv): Option<real>
  {
    if w == [] then None
    else if w[|w| - 1].pv == pv then Some(w[|w| - 1].value)
    else Latest(w[..|w| - 1], pv)
  }

  /** `Latest` is the value of the last write to `pv`: no later write goes to `pv`. */
  lemma {:induction false} LatestIsLastWrite(w: seq<PandaWrite>, pv: PandaPv)
    ensures Latest(w, pv).None? <==> forall k :: 0 <= k < |w| ==> w[k].pv != pv
    ensures Latest(w, pv).Some? ==>
              exists k :: 0 <= k < |w| && w[k] == PandaWrite(pv, Latest(w, pv).value)
                          && forall j :: k < j < |w| ==> w[j].pv != pv
  {
    if w != [] && w[|w| - 1].pv != pv {
      var n := |w| - 1;
      LatestIsLastWrite(w[..n], pv);
      assert forall k :: 0 <= k < n ==> w[..n][k] == w[k];
      if Latest(w, pv).Some? {
        var k :| 0 <= k < n && w[..n][k] == PandaWrite(pv, Latest(w, pv).value)
                 && forall j :: k < j < n ==> w[..n][j].pv != pv;
        assert w[k] == PandaWrite(pv, Latest(w, pv).value);
      }
    }
  }

  /** One more write changes the latest value of its own record and of no other. */
  lemma LatestSnoc(w: seq<PandaWrite>, x: PandaWrite)
    ensures forall pv :: Latest(w + [x], pv) == if x.pv == pv then Some(x.value) else Latest(w, pv)
  {
    assert (w + [x])[..|w|] == w;
  }

  /** The half-period the clock width must be for a 50% duty cycle. */
  function Half(o: Option<real>): Option<real>
  {
    match o
    case None => None
    case Some(p) => Some(p / 2.0)
  }

  /** Period and width written to CLOCK1 for one requested acquisition frequency. */
  datatype Timing = Timing(period: real, width: real)

  /** FREQ:SET: a frequency of zero is a division by zero. */
  function TimingFor(freq: real): (r: Option<Timing>)
    ensures r.None? <==> freq == 0.0
    ensures r.Some? ==> r.value.period * freq == 1.0 && r.value.width * 2.0 == r.value.period
  {
    if freq == 0.0 then None else Some(Timing(1.0 / freq, 1.0 / freq / 2.0))
  }

  /** FREQ from the CLOCK1:PERIOD readback: a period of zero is a division by zero. */
  function FrequencyOf(period: real): (r: Option<real>)
    ensures r.None? <==> period == 0.0
    ensures r.Some? ==> r.value * period == 1.0
  {
    if period == 0.0 then None else Some(1.0 / period)
  }

  /** The period written for a frequency reads back as that same frequency. */
  lemma FrequencyRoundTrip(freq: real)
    requires freq != 0.0
    ensures TimingFor(freq).Some? && FrequencyOf(TimingFor(freq).value.period) == Some(freq)
  {
    var p := TimingFor(freq).value.period;
    assert p * freq == 1.0;
    assert 1.0 / p == freq;
  }

  lemma TenHertz()
    ensures TimingFor(10.0) == Some(Timing(0.1, 0.05))
    ensures FrequencyOf(0.1) == Some(10.0)
  {
  }

  /**
   * Everything the IOC holds and publishes except its three histories: the gain,
   * the two run flags, the cycle target, the ring index, the scalar PVs and the
   * trace of PandA writes.
   */
  datatype Regs = Regs(
    gain: Gain,
    experimentRunning: bool,
    cycleRunning: bool,
    numCycles: int,
    index: nat,
    lastEwe: real,        // EWE:LAST
    lastCurrent: real,    // I:LAST
    cycleStatus: string,  // CYCLE:STATUS
    expStatus: string,    // EXP:STATUS
    cycleCount: int,      // CYCLE:NUM
    triggerIn: int,       // TRIG:IN
    freq: real,           // FREQ
    writes: seq<PandaWrite>)

  /**
   * What holds of the IOC after every handler, when handlers run one at a time:
   * the gain is an exact power of ten, the
   * ring index is inside the histories, each status text shows its flag, the
   * counter reset is released (last written 1) while an experiment runs, the
   * trigger line rests low, and the clock width is always half its period.
   */
  predicate Consistent(s: Regs)
  {
    && Exact(s.gain)
    && s.index < BufferLength
    && s.cycleStatus == StatusText(s.cycleRunning)
    && s.expStatus == StatusText(s.experimentRunning)
    && (s.experimentRunning ==> Latest(s.writes, BitsB) == Some(1.0))
    && (Latest(s.writes, BitsA) == None || Latest(s.writes, BitsA) == Some(0.0))
    && Latest(s.writes, Clock1Width) == Half(Latest(s.writes, Clock1Period))
  }

  /** The state once the start-up writes are done: both statuses Idle, counter reset written 0 then 1. */
  function Initial(): (r: Regs)
    ensures r.gain == InitialGain && !r.experimentRunning && !r.cycleRunning
    ensures r.cycleStatus == Idle && r.expStatus == Idle && r.index == 0
    ensures Latest(r.writes, BitsB) == Some(1.0) && Latest(r.writes, BitsA) == None
    ensures Latest(r.writes, Clock1Period) == None && Latest(r.writes, Clock1Width) == None
  {
    Regs(InitialGain, false, false, 0, 0, 0.0, 0.0, Idle, Idle, 0, 0, 0.0,
         [PandaWrite(BitsB, 0.0), PandaWrite(BitsB, 1.0)])
  }

  lemma InitialConsistent()
    ensures Consistent(Initial())
    ensures Latest(Initial().writes, BitsB) == Some(1.0)
  {
    InitialGainExact();
  }

  /** The three writes a trigger makes: release the counter, then pulse the trigger line with `level`. */
  function TriggerPulse(level: int): seq<PandaWrite>
  {
    [PandaWrite(BitsB, 1.0), PandaWrite(BitsA, level as real), PandaWrite(BitsA, 0.0)]
  }

  /** TRIG:OUT written with `level`. */
  function TriggerOutStep(s: Regs, level: int): (r: Regs)
    ensures r.cycleRunning
    ensures s.cycleRunning ==> r == s
    ensures !s.cycleRunning ==> r.experimentRunning && r.writes == s.writes + TriggerPulse(level)
  {
    if s.cycleRunning then s
    else
      s.(experimentRunning := true, cycleRunning := true,
         expStatus := Running, cycleStatus := Running,
         writes := s.writes + TriggerPulse(level))
  }

  /** A TTLIN1:VAL update. */
  function TriggerInStep(s: Regs, level: int): (r: Regs)
    ensures r.cycleRunning == (s.cycleRunning && level != 1)
    ensures r.experimentRunning == s.experimentRunning && r.writes == s.writes
    ensures r.triggerIn == level
  {
    var s' := if level == 1 then s.(cycleRunning := false, cycleStatus := Idle) else s;
    s'.(triggerIn := level)
  }

  /** A COUNTER1:OUT update. */
  function CounterStep(s: Regs, count: int): (r: Regs)
    ensures r.experimentRunning == (s.experimentRunning && count < s.numCycles)
    ensures r.cycleRunning == s.cycleRunning
    ensures r.cycleCount == count
    ensures count >= s.numCycles ==> Latest(r.writes, BitsB) == Some(0.0)
  {
    var s' :=
      if count >= s.numCycles then
        s.(experimentRunning := false, expStatus := Idle, writes := s.writes + [PandaWrite(BitsB, 0.0)])
      else s;
    s'.(cycleCount := count)
  }

  /** A CLOCK1:PERIOD update; None where the reciprocal fails. */
  function ClockPeriodStep(s: Regs, period: real): (r: Option<Regs>)
    ensures r.None? <==> period == 0.0
    ensures r.Some? ==> r.value == s.(freq := r.value.freq) && r.value.freq * period == 1.0
  {
    match FrequencyOf(period)
    case None => None
    case Some(f) => Some(s.(freq := f))
  }

  /** FREQ:SET written with `freq`; None where the reciprocal fails, before anything is written. */
  function ClockFreqSetStep(s: Regs, freq: real): (r: Option<Regs>)
    ensures r.None? <==> freq == 0.0
    ensures r.Some? ==> && TimingFor(freq).Some?
                        && r.value == s.(writes := s.writes + [PandaWrite(Clock1Period, TimingFor(freq).value.period),
                                                               PandaWrite(Clock1Width, TimingFor(freq).value.width)])
    ensures r.Some? ==> Latest(r.value.writes, Clock1Period).Some?
                        && Latest(r.value.writes, Clock1Period).value * freq == 1.0
  {
    match TimingFor(freq)
    case None => None
    case Some(t) =>
      var w1 := s.writes + [PandaWrite(Clock1Period, t.period)];
      LatestSnoc(s.writes, PandaWrite(Clock1Period, t.period));
      LatestSnoc(w1, PandaWrite(Clock1Width, t.width));
      assert w1 + [PandaWrite(Clock1Width, t.width)]
          == s.writes + [PandaWrite(Clock1Period, t.period), PandaWrite(Clock1Width, t.width)];
      Some(s.(writes := s.writes + [PandaWrite(Clock1Period, t.period), PandaWrite(Clock1Width, t.width)]))
  }

  /** RESET written with `level`. */
  function ResetStep(s: Regs, level: int): (r: Regs)
    ensures level != 1 ==> r == s
    ensures r.numCycles == s.numCycles && r.index == s.index
    ensures level == 1 ==> && r.gain == InitialGain && !r.experimentRunning && !r.cycleRunning
                           && r.cycleCount == 0 && r.cycleStatus == Idle && r.expStatus == Idle
                           && Latest(r.writes, BitsB) == Some(0.0)
  {
    if level == 1 then
      s.(gain := InitialGain, experimentRunning := false, cycleRunning := false, cycleCount := 0,
         writes := s.writes + [PandaWrite(BitsB, 0.0)], cycleStatus := Idle, expStatus := Idle)
    else s
  }

  lemma TriggerOutKeepsConsistent(s: Regs, level: int)
    requires Consistent(s)
    ensures Consistent(TriggerOutStep(s, level))
  {
    if !s.cycleRunning {
      var w1 := s.writes + [PandaWrite(BitsB, 1.0)];
      var w2 := w1 + [PandaWrite(BitsA, level as real)];
      LatestSnoc(s.writes, PandaWrite(BitsB, 1.0));
      LatestSnoc(w1, PandaWrite(BitsA, level as real));
      LatestSnoc(w2, PandaWrite(BitsA, 0.0));
      assert w2 + [PandaWrite(BitsA, 0.0)] == s.writes + TriggerPulse(level);
    }
  }

  lemma TriggerInKeepsConsistent(s: Regs, level: int)
    requires Consistent(s)
    ensures Consistent(TriggerInStep(s, level))
  {
  }

  lemma CounterKeepsConsistent(s: Regs, count: int)
    requires Consistent(s)
    ensures Consistent(CounterStep(s, count))
  {
    LatestSnoc(s.writes, PandaWrite(BitsB, 0.0));
  }

  lemma ClockPeriodKeepsConsistent(s: Regs, period: real)
    requires Consistent(s)
    ensures ClockPeriodStep(s, period).Some? ==> Consistent(ClockPeriodStep(s, period).value)
  {
  }

  lemma ClockFreqSetKeepsConsistent(s: Regs, freq: real)
    requires Consistent(s)
    ensures ClockFreqSetStep(s, freq).Some? ==> Consistent(ClockFreqSetStep(s, freq).value)
  {
    if freq != 0.0 {
      var t := TimingFor(freq).value;
      var w1 := s.writes + [PandaWrite(Clock1Period, t.period)];
      LatestSnoc(s.writes, PandaWrite(Clock1Period, t.period));
      LatestSnoc(w1, PandaWrite(Clock1Width, t.width));
      assert w1 + [PandaWrite(Clock1Width, t.width)]
          == s.writes + [PandaWrite(Clock1Period, t.period), PandaWrite(Clock1Width, t.width)];
    }
  }

  lemma ResetKeepsConsistent(s: Regs, level: int)
    requires Consistent(s)
    ensures Consistent(ResetStep(s, level))
  {
    InitialGainExact();
    LatestSnoc(s.writes, PandaWrite(BitsB, 0.0));
  }

  /** A trigger while the cycle it started is still running changes nothing. */
  lemma TriggerOutIdempotent(s: Regs, first: int, second: int)
    ensures TriggerOutStep(TriggerOutStep(s, first), second) == TriggerOutStep(s, first)
  {
  }

  /**
   * With a target of three cycles, a trigger from idle followed by counter updates
   * 1, 2 and 3 keeps the experiment running until the third.
   */
  lemma ThreeCycleExperiment(s: Regs)
    requires !s.cycleRunning && s.numCycles == 3
    ensures var s1 := TriggerOutStep(s, 1);
            var s2 := CounterStep(s1, 1);
            var s3 := CounterStep(s2, 2);
            var s4 := CounterStep(s3, 3);
            && s1.experimentRunning && s2.experimentRunning && s3.experimentRunning
            && !s4.experimentRunning && s4.expStatus == Idle
  {
  }

  /**
   * The ScalerIOC object. The three histories are allocated once at their full
   * capacity and written in place at the shared ring index `currentIndex`.
   */
  class Controller {
    var currentScale: real      // currentCurrentScale
    var scaleExponent: int      // currentCurrentScaleDebug
    var isExperimentRunning: bool
    var isCycleRunning: bool
    var numCycles: int
    const eweValues: array<real>
    const currentValues: array<real>
    const debugValues: array<int>
    var currentIndex: nat
    var lastEwe: real
    var lastCurrent: real
    var cycleStatus: string
    var expStatus: string
    var cycleCounter: int
    var triggerIn: int
    var clockFreq: real
    var pandaWrites: seq<PandaWrite>

    function Registers(): Regs
      reads this
    {
      Regs(Gain(currentScale, scaleExponent), isExperimentRunning, isCycleRunning, numCycles,
           currentIndex, lastEwe, lastCurrent, cycleStatus, expStatus, cycleCounter, triggerIn,
           clockFreq, pandaWrites)
    }

    ghost predicate Valid()
      reads this
    {
      && eweValues.Length == BufferLength
      && currentValues.Length == BufferLength
      && debugValues.Length == BufferLength
      && eweValues != currentValues
      && Consistent(Registers())
    }

    /** Class defaults, zeroed histories, and the start-up writes. */
    constructor ()
      ensures Valid()
      ensures Registers() == Initial()
      ensures fresh(eweValues) && fresh(currentValues) && fresh(debugValues)
      ensures eweValues[..] == seq(BufferLength, _ => 0.0)
      ensures currentValues[..] == seq(BufferLength, _ => 0.0)
      ensures debugValues[..] == seq(BufferLength, _ => 0)
    {
      currentScale := InitialScale;
      scaleExponent := InitialExponent;
      isExperimentRunning := false;
      isCycleRunning := false;
      numCycles := 0;
      eweValues := new real[BufferLength](_ => 0.0);
      currentValues := new real[BufferLength](_ => 0.0);
      debugValues := new int[BufferLength](_ => 0);
      currentIndex := 0;
      lastEwe := 0.0;
      lastCurrent := 0.0;
      cycleCounter := 0;
      triggerIn := 0;
      clockFreq := 0.0;
      cycleStatus := Idle;
      expStatus := Idle;
      pandaWrites := [PandaWrite(BitsB, 0.0)];
      pandaWrites := pandaWrites + [PandaWrite(BitsB, 1.0)];
      new;
      InitialConsistent();
    }

    /** A CALC1:OUT (potential) sample: stored at the ring index, which does not move. */
    method EweSample(raw: real)
      requires Valid()
      modifies this, eweValues
      ensures Valid()
      ensures eweValues[..] == old(eweValues[..])[old(currentIndex) := raw * ScaleValue]
      ensures lastEwe == eweValues[currentIndex]
      ensures Registers() == old(Registers()).(lastEwe := raw * ScaleValue)
    {
      eweValues[currentIndex] := raw * ScaleValue;
      lastEwe := raw * ScaleValue;
    }

    /**
     * The auto-ranging part of a CALC2:OUT (current) sample: scales `raw`, adjusts
     * the gain, and returns the value to store. A helper of `CurrentSample` only: on
     * its own it re-ranges without storing the sample, which the IOC never does,
     * and it does not restore `Valid()`.
     */
    method ScaleCurrent(raw: real) returns (scaledValue: real)
      requires currentScale > 0.0
      requires currentIndex < currentValues.Length && currentIndex < eweValues.Length
      modifies this`currentScale, this`scaleExponent
      ensures Ranged(Gain(currentScale, scaleExponent), scaledValue)
              == AutoRange(old(Registers()).gain, raw, currentIndex, currentValues[..], eweValues[..])
    {
      ghost var g := Gain(currentScale, scaleExponent);
      ghost var currents, ewes := currentValues[..], eweValues[..];
      var i := currentIndex;
      scaledValue := raw * ScaleValue * currentScale;
      assert scaledValue == Scaled(raw, g) && eweValues[i] == ewes[i];
      if i > 1 {
        var lastValue := currentValues[i - 1];
        assert lastValue == currents[i - 1];
        if Abs(scaledValue) > NoiseFloor * currentScale && Abs(lastValue) > NoiseFloor * currentScale
           && Abs(eweValues[i]) > NoiseFloor
        {
          var ratio := Abs(scaledValue / lastValue);
          if ratio > RiseLimit {
            AutoRangeRise(g, raw, i, currents, ewes);
            currentScale := currentScale / 10.0;
            scaleExponent := scaleExponent - 1;
            scaledValue := raw * ScaleValue * currentScale;
          } else if ratio < FallLimit {
            AutoRangeFall(g, raw, i, currents, ewes);
            currentScale := currentScale * 10.0;
            scaleExponent := scaleExponent + 1;
            scaledValue := raw * ScaleValue * currentScale;
          } else {
            AutoRangeHoldsInBand(g, raw, i, currents, ewes);
          }
        } else {
          AutoRangeSuppressed(g, raw, i, currents, ewes);
        }
      } else {
        AutoRangeSuppressed(g, raw, i, currents, ewes);
      }
    }

    /**
     * A CALC2:OUT (current) sample: auto-ranged, stored with its gain exponent at
     * the ring index, which then advances and wraps to 0 at the capacity.
     */
    method CurrentSample(raw: real)
      requires Valid()
      modifies this, currentValues, debugValues
      ensures Valid()
      ensures var r := AutoRange(old(Registers()).gain, raw, old(currentIndex), old(currentValues[..]), old(eweValues[..]));
              && currentValues[..] == old(currentValues[..])[old(currentIndex) := r.value]
              && debugValues[..] == old(debugValues[..])[old(currentIndex) := r.gain.exponent]
              && Registers() == old(Registers()).(gain := r.gain, index := NextIndex(old(currentIndex)), lastCurrent := r.value)
      ensures currentValues[old(currentIndex)]
              == Scaled(raw, Gain(Pow10(debugValues[old(currentIndex)]), debugValues[old(currentIndex)]))
    {
      ghost var before := Registers();
      assert currentScale == Pow10(scaleExponent);
      var scaledValue := ScaleCurrent(raw);
      var i := currentIndex;
      AutoRangeKeepsExact(before.gain, raw, i, old(currentValues[..]), old(eweValues[..]));
      assert Gain(currentScale, scaleExponent) == Gain(Pow10(scaleExponent), scaleExponent);
      currentValues[i] := scaledValue;
      debugValues[i] := scaleExponent;
      currentIndex := i + 1;
      if currentIndex >= BufferLength {
        currentIndex := 0;
      }
      lastCurrent := scaledValue;
    }

    /** A TTLIN1:VAL sample. */
    method TriggerInSample(level: int)
      requires Valid()
      modifies this
      ensures Valid()
      ensures Registers() == TriggerInStep(old(Registers()), level)
    {
      TriggerInKeepsConsistent(Registers(), level);
      if level == 1 {
        isCycleRunning := false;
        cycleStatus := Idle;
      }
      triggerIn := level;
    }

    /** A COUNTER1:OUT sample. */
    method CounterSample(count: int)
      requires Valid()
      modifies this
      ensures Valid()
      ensures Registers() == CounterStep(old(Registers()), count)
    {
      CounterKeepsConsistent(Registers(), count);
      if count >= numCycles {
        isExperimentRunning := false;
        expStatus := Idle;
        pandaWrites := pandaWrites + [PandaWrite(BitsB, 0.0)];
      }
      cycleCounter := count;
    }

    /** A CLOCK1:PERIOD sample; `ok` is false, and nothing changes, for a period of zero. */
    method ClockPeriodSample(period: real) returns (ok: bool)
      requires Valid()
      modifies this
      ensures Valid()
      ensures ok == (period != 0.0)
      ensures ClockPeriodStep(old(Registers()), period) == if ok then Some(Registers()) else None
      ensures !ok ==> Registers() == old(Registers())
    {
      ClockPeriodKeepsConsistent(Registers(), period);
      if period == 0.0 {
        return false;
      }
      clockFreq := 1.0 / period;
      ok := true;
    }

    /** The TRIG:OUT putter. */
    method TriggerOut(level: int)
      requires Valid()
      modifies this
      ensures Valid()
      ensures Registers() == TriggerOutStep(old(Registers()), level)
    {
      ghost var before := Registers();
      TriggerOutKeepsConsistent(before, level);
      if !isCycleRunning {
        isExperimentRunning := true;
        isCycleRunning := true;
        pandaWrites := pandaWrites + [PandaWrite(BitsB, 1.0)];
        expStatus := Running;
        cycleStatus := Running;
        pandaWrites := pandaWrites + [PandaWrite(BitsA, level as real)];
        pandaWrites := pandaWrites + [PandaWrite(BitsA, 0.0)];
        assert pandaWrites == before.writes + TriggerPulse(level);
      }
    }

    /** The FREQ:SET putter; `ok` is false, and nothing is written, for a frequency of zero. */
    method ClockFreqSet(freq: real) returns (ok: bool)
      requires Valid()
      modifies this
      ensures Valid()
      ensures ok == (freq != 0.0)
      ensures ClockFreqSetStep(old(Registers()), freq) == if ok then Some(Registers()) else None
      ensures !ok ==> Registers() == old(Registers())
    {
      ghost var before := Registers();
      ClockFreqSetKeepsConsistent(before, freq);
      if freq == 0.0 {
        return false;
      }
      pandaWrites := pandaWrites + [PandaWrite(Clock1Period, 1.0 / freq)];
      pandaWrites := pandaWrites + [PandaWrite(Clock1Width, 1.0 / freq / 2.0)];
      assert pandaWrites == before.writes + [PandaWrite(Clock1Period, 1.0 / freq), PandaWrite(Clock1Width, 1.0 / freq / 2.0)];
      ok := true;
    }

    /** The EXP:NUM_CYCLES putter: stores the target and does nothing else. */
    method CycleNum(n: int)
      requires Valid()
      modifies this
      ensures Valid()
      ensures Registers() == old(Registers()).(numCycles := n)
    {
      numCycles := n;
    }

    /** The RESET putter. */
    method Reset(level: int)
      requires Valid()
      modifies this
      ensures Valid()
      ensures Registers() == ResetStep(old(Registers()), level)
    {
      ResetKeepsConsistent(Registers(), level);
      if level == 1 {
        currentScale := InitialScale;
        scaleExponent := InitialExponent;
        isExperimentRunning := false;
        isCycleRunning := false;
        cycleCounter := 0;
        pandaWrites := pandaWrites + [PandaWrite(BitsB, 0.0)];
        cycleStatus := Idle;
        expStatus := Idle;
      }
    }
  }
}
