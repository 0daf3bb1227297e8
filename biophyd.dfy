/**
 * The ophyd view of the experiment: a DATA device (the PandA's HDF capture), a
 * BioLogic device (the scaler IOC's PVs) and the BioLogicData device that combines
 * them, stops capture when the cycle count reaches its target, and triggers or
 * resets both in a fixed order.
 *
 * Signals are plain registers; every put is also recorded, in order, in `puts`.
 */
module Biophyd {

  /** One put to a signal, with the value written. */
  datatype Put =
    | HdfDirectory(path: string)      // DATA HDFDirectory
    | HdfFileName(name: string)       // DATA HDFFileName
    | FlushPeriod(seconds: real)      // DATA FlushPeriod
    | CaptureMode(mode: string)       // DATA CaptureMode
    | Capture(level: int)             // DATA Capture
    | TriggerOut(level: int)          // BioLogic TRIG:OUT
    | ResetSignal(level: int)         // BioLogic RESET

  /** A signal's value with the time stamp it carries. */
  datatype Sample = Sample(value: real, timestamp: real)

  /** The writes `prepare` makes, in order. */
  function PrepareWrites(dirPath: string, fileName: string): seq<Put>
  {
    [HdfDirectory(dirPath), HdfFileName(fileName), FlushPeriod(0.5), CaptureMode("FOREVER")]
  }

  /**
   * Whether a change of the cycle-number readback from `oldValue` to `value` stops
   * capture, for a target of `total` cycles: only a real change onto the target.
   */
  predicate EndsCapture(value: int, oldValue: int, total: int): (r: bool)
    ensures r ==> value == total
    ensures value == oldValue ==> !r
  {
    value != oldValue && value == total
  }

  /**
   * The Capture register after the cycle-change callback has run for each of the
   * successive readbacks `counts`, starting from readback `prev`.
   */
  function CaptureAfter(capture: int, prev: int, counts: seq<int>, total: int): (r: int)
    ensures r == capture || r == 0
    decreases |counts|
  {
    if counts == [] then capture
    else CaptureAfter(if EndsCapture(counts[0], prev, total) then 0 else capture, counts[0], counts[1..], total)
  }

  /** A cycle count that never equals the target never stops capture, however far it goes past it. */
  lemma {:induction false} SkippedTargetKeepsCapture(capture: int, prev: int, counts: seq<int>, total: int)
    requires forall k :: 0 <= k < |counts| ==> counts[k] != total
    ensures CaptureAfter(capture, prev, counts, total) == capture
    decreases |counts|
  {
    if counts != [] {
      SkippedTargetKeepsCapture(capture, counts[0], counts[1..], total);
    }
  }

  /** Once capture is stopped, no later cycle change starts it again. */
  lemma {:induction false} StoppedCaptureStaysStopped(prev: int, counts: seq<int>, total: int)
    ensures CaptureAfter(0, prev, counts, total) == 0
    decreases |counts|
  {
    if counts != [] {
      StoppedCaptureStaysStopped(counts[0], counts[1..], total);
    }
  }

  /** A readback that changes onto the target at some point stops capture for good. */
  lemma {:induction false} ReachedTargetStopsCapture(capture: int, prev: int, counts: seq<int>, total: int, k: nat)
    requires k < |counts| && counts[k] == total
    requires counts[k] != (if k == 0 then prev else counts[k - 1])
    ensures CaptureAfter(capture, prev, counts, total) == 0
    decreases k
  {
    if k == 0 {
      StoppedCaptureStaysStopped(counts[0], counts[1..], total);
    } else {
      var next := if EndsCapture(counts[0], prev, total) then 0 else capture;
      ReachedTargetStopsCapture(next, counts[0], counts[1..], total, k - 1);
    }
  }

  /** Every register of the combined device, and the record of puts. */
  datatype Signals = Signals(
    hdfDirectory: string,
    hdfFileName: string,
    flushPeriod: real,
    captureMode: string,
    capture: int,
    triggerOut: int,
    resetSignal: int,
    numTotalCycles: int,
    lastEwe: Sample,
    lastI: Sample,
    puts: seq<Put>)

  class BioLogicData {
    // DATA device, prefix {PANDA:1}:DATA:
    var hdfDirectory: string
    var hdfFileName: string
    var flushPeriod: real
    var captureMode: string
    var capture: int
    // BioLogic device, prefix {BIOLOGIC}:
    var triggerOut: int
    var resetSignal: int
    var numTotalCycles: int   // EXP:NUM_CYCLES
    var lastEwe: Sample       // EWE:LAST
    var lastI: Sample         // I:LAST
    var puts: seq<Put>

    function View(): Signals
      reads this
    {
      Signals(hdfDirectory, hdfFileName, flushPeriod, captureMode, capture, triggerOut,
              resetSignal, numTotalCycles, lastEwe, lastI, puts)
    }

    /** Construction prepares the capture device with the given directory and file name. */
    constructor (dirPath: string, fileName: string)
      ensures hdfDirectory == dirPath && hdfFileName == fileName
      ensures flushPeriod == 0.5 && captureMode == "FOREVER"
      ensures puts == PrepareWrites(dirPath, fileName)
    {
      puts := [];
      new;
      DataPrepare(dirPath, fileName);
    }

    /** DATA.prepare: sets where and how to write, and leaves Capture alone. */
    method DataPrepare(dirPath: string, fileName: string)
      modifies this
      ensures View() == old(View()).(hdfDirectory := dirPath, hdfFileName := fileName,
                                     flushPeriod := 0.5, captureMode := "FOREVER",
                                     puts := old(puts) + PrepareWrites(dirPath, fileName))
    {
      hdfDirectory := dirPath;
      puts := puts + [HdfDirectory(dirPath)];
      hdfFileName := fileName;
      puts := puts + [HdfFileName(fileName)];
      flushPeriod := 0.5;
      puts := puts + [FlushPeriod(0.5)];
      captureMode := "FOREVER";
      puts := puts + [CaptureMode("FOREVER")];
    }

    /** DATA.trigger: start capture. */
    method DataTrigger()
      modifies this
      ensures View() == old(View()).(capture := 1, puts := old(puts) + [Capture(1)])
    {
      capture := 1;
      puts := puts + [Capture(1)];
    }

    /** DATA.endCapture: stop capture. */
    method DataEndCapture()
      modifies this
      ensures View() == old(View()).(capture := 0, puts := old(puts) + [Capture(0)])
    {
      capture := 0;
      puts := puts + [Capture(0)];
    }

    /** BioLogic.trigger: write 1 to TRIG:OUT. */
    method BioLogicTrigger()
      modifies this
      ensures View() == old(View()).(triggerOut := 1, puts := old(puts) + [TriggerOut(1)])
    {
      triggerOut := 1;
      puts := puts + [TriggerOut(1)];
    }

    /** BioLogic.reset: write 1 to RESET. */
    method BioLogicReset()
      modifies this
      ensures View() == old(View()).(resetSignal := 1, puts := old(puts) + [ResetSignal(1)])
    {
      resetSignal := 1;
      puts := puts + [ResetSignal(1)];
    }

    /** BioLogic.read, which BioLogicData.read returns: "Ewe" then "I", from EWE:LAST and I:LAST. */
    function Read(): (r: seq<(string, Sample)>)
      reads this
      ensures |r| == 2
      ensures r[0].0 == "Ewe" && r[1].0 == "I" && r[0].0 != r[1].0
      ensures r[0].1 == lastEwe && r[1].1 == lastI
    {
      [("Ewe", lastEwe), ("I", lastI)]
    }

    /** The CYCLE:NUM subscription callback. */
    method HandleCycleChange(value: int, oldValue: int)
      modifies this
      ensures EndsCapture(value, oldValue, old(numTotalCycles)) ==>
                View() == old(View()).(capture := 0, puts := old(puts) + [Capture(0)])
      ensures !EndsCapture(value, oldValue, old(numTotalCycles)) ==> View() == old(View())
    {
      if value != oldValue {
        if value == numTotalCycles {
          DataEndCapture();
        }
      }
    }

    /** BioLogicData.trigger: trigger the potentiostat, then start capture. */
    method Trigger()
      modifies this
      ensures View() == old(View()).(triggerOut := 1, capture := 1,
                                     puts := old(puts) + [TriggerOut(1), Capture(1)])
    {
      BioLogicTrigger();
      DataTrigger();
    }

    /** BioLogicData.reset: stop capture, then reset the potentiostat. */
    method Reset()
      modifies this
      ensures View() == old(View()).(capture := 0, resetSignal := 1,
                                     puts := old(puts) + [Capture(0), ResetSignal(1)])
    {
      DataEndCapture();
      BioLogicReset();
    }
  }

  /**
   * The CYCLE:NUM subscription delivering the successive readbacks `counts`, the one
   * before them being `prev`: the Capture register ends as the fold `CaptureAfter`,
   * every put issued is Capture := 0, and no other register changes.
   */
  method CycleCallbacks(d: BioLogicData, prev: int, counts: seq<int>)
    modifies d
    ensures d.capture == CaptureAfter(old(d.capture), prev, counts, old(d.numTotalCycles))
    ensures d.View() == old(d.View()).(capture := d.capture, puts := d.puts)
    ensures |old(d.puts)| <= |d.puts| && d.puts[..|old(d.puts)|] == old(d.puts)
    ensures forall j :: |old(d.puts)| <= j < |d.puts| ==> d.puts[j] == Capture(0)
    ensures (forall k :: 0 <= k < |counts| ==> counts[k] != old(d.numTotalCycles)) ==> d.View() == old(d.View())
  {
    var p := prev;
    var k := 0;
    while k < |counts|
      invariant 0 <= k <= |counts|
      invariant d.View() == old(d.View()).(capture := d.capture, puts := d.puts)
      invariant |old(d.puts)| <= |d.puts| && d.puts[..|old(d.puts)|] == old(d.puts)
      invariant forall j :: |old(d.puts)| <= j < |d.puts| ==> d.puts[j] == Capture(0)
      invariant (forall i :: 0 <= i < k ==> counts[i] != old(d.numTotalCycles)) ==> d.View() == old(d.View())
      invariant CaptureAfter(old(d.capture), prev, counts, d.numTotalCycles)
                == CaptureAfter(d.capture, p, counts[k..], d.numTotalCycles)
    {
      assert counts[k..][1..] == counts[k + 1..];
      d.HandleCycleChange(counts[k], p);
      p := counts[k];
      k := k + 1;
    }
  }

  /** Callbacks whose readbacks all avoid the target issue no put and change no register. */
  method SkippingCallbacksKeepCapture(d: BioLogicData, prev: int, counts: seq<int>)
    requires forall k :: 0 <= k < |counts| ==> counts[k] != d.numTotalCycles
    modifies d
    ensures d.View() == old(d.View())
  {
    CycleCallbacks(d, prev, counts);
  }
}
