# fpgabiologic controller core in Dafny

A model of the two pieces of NSLS-II/fpgabiologic that coordinate a BioLogic
potentiostat experiment with a PandABox, and proofs about them.

- **The scaler IOC** (`ScalerIOC` in `main.py`) rescales the PandA's potential (EWE)
  and current (I) samples. It keeps three 60000-slot circular histories: EWE, I, and
  the I:DEBUG exponent trace. It keeps the current channel's auto-ranging decimal gain. It runs a two-flag
  cycle / experiment state machine driven by trigger-in, counter and reset events.
  It writes the PandA's trigger line (BITS:A), its counter reset (BITS:B) and its
  clock (CLOCK1:PERIOD, CLOCK1:WIDTH).
- **The ophyd devices** (`DATA`, `BioLogic`, `BioLogicData` in `biophyd.py`) start and
  stop the PandA's HDF capture around the experiment. Capture stops when the
  cycle-number readback changes to exactly the target.

Files:

- `auto_range.dfy`, module `AutoRanging`: the calibration constant, `Pow10`, the
  `Gain` record (multiplier and exponent), the re-range guard, the auto-range rule
  `AutoRange` (one current sample) and its lemmas.
- `scaler_ioc.dfy`, module `ScalerIoc`:
  - the PandA write trace and `Latest`, the value a PandA record was last written;
  - the frequency bridge, and `Regs`, the IOC's state minus its histories;
  - a step function for each event that changes only the registers (trigger-in,
    counter, clock period, TRIG:OUT, FREQ:SET, RESET), and the invariant
    `Consistent` with one preservation lemma per step function;
  - the class `Controller`: the IOC object, with its three histories as arrays
    written in place and one method per monitored PV or putter. The methods for
    those six events ensure that the new state is the step function of the old.
    The potential sample (`EweSample`), the current sample (`CurrentSample`) and
    the EXP:NUM_CYCLES putter (`CycleNum`) have no step function: their `ensures`
    state the new registers as an update of `old(Registers())` (through
    `AutoRange` for the current sample), and each proves inside its own body that
    the invariant is kept.
- `biophyd.dfy`, module `Biophyd`: the class `BioLogicData`. Its signals are
  register fields, and every put is also appended to an ordered trace `puts`, so the
  contracts state the order of the writes. The module also has the fold of
  successive cycle-change callbacks and lemmas about it.
- `coordination.dfy`, module `Coordination`: the IOC ends the experiment on
  `count >= target` (`main.py:128`), but the capture stop fires only on `==`
  (`biophyd.py:65`). Its lemmas compare the two.

Numbers are exact `real`s; the calibration constant is −5·10⁻⁹. On reals the gain
is proved to be exactly `10^exponent` at all times.

In these places the model follows the code as written:

- A potential sample overwrites slot `currentIndex` of the EWE history and does not
  advance the index. Only a current sample advances the shared index. The EWE slot
  is overwritten in place; nothing is appended or evicted.
- A TRIG:OUT write starts a cycle whatever value is written, zero included. That
  value is written to BITS:A, followed by 0.
- FREQ:SET accepts any nonzero frequency, negative ones included. Zero is a
  division fault.
- A clock-period readback of zero raises a division error. The model reports this
  with `ok == false` and leaves the state unchanged; see "Left out".
- The re-range guard applies only when `currentIndex > 1`. After each wrap the
  index is 0 or 1 again, so the guard is off for two samples.
- Starting capture is a plain put of 1 to Capture. It is not guarded against a
  capture already running.

The defects that would crash the Python as written are not reproduced. The
histories are empty lists indexed from the first sample on, and the wrap test reads
an unbound local. The model has arrays of the full capacity and wraps
`self.currentIndex` to 0 when it reaches 60000.

## Model

| member | source | states |
|---|---|---|
| `AutoRanging.Pow10` | main.py:21-22 | ten to any integer exponent is positive, so a gain that is a power of ten is never zero |
| `AutoRanging.InitialGainExact` | main.py:20-22 | the initial gain 0.01 is exactly ten to the initial exponent −2 |
| `AutoRanging.GuardMakesRatioDefined` | main.py:95-97 | with a positive gain, the guard implies the previous sample is nonzero, so the ratio is defined |
| `AutoRanging.AutoRange` | main.py:92-107 | the stored value is always the raw sample times the constant times the gain in force after the step; the exponent moves by at most one; any change happens only under the index guard and the three magnitude checks |
| `AutoRanging.AutoRangeKeepsExact` | main.py:98-107 | re-ranging keeps the multiplier exactly ten to the recorded exponent |
| `AutoRanging.AutoRangeRise` | main.py:98-102 | under the guard, a ratio above 5 gives scale/10 and exponent − 1, and the value is recomputed (a tenth of the old-gain value) |
| `AutoRanging.AutoRangeFall` | main.py:103-107 | under the guard, a ratio below 0.2 gives scale×10 and exponent + 1, and the value is recomputed (ten times the old-gain value) |
| `AutoRanging.AutoRangeHoldsInBand` | main.py:97-107 | a ratio in [0.2, 5] leaves gain and value unchanged |
| `AutoRanging.AutoRangeSuppressed` | main.py:93-96 | no re-range when the index is at most 1, or the potential, the new sample or the previous sample is at or below its noise floor |
| `ScalerIoc.NextIndex` | main.py:110-112 | the ring index advances by one modulo 60000 and stays inside the histories |
| `ScalerIoc.TimingFor` | main.py:153-156 | frequency zero is a fault; otherwise period × frequency = 1 and width is half the period |
| `ScalerIoc.FrequencyOf` | main.py:134-135 | period zero is a fault; otherwise FREQ × period = 1 |
| `ScalerIoc.FrequencyRoundTrip` | main.py:153-156 | the period written for a nonzero frequency reads back as that frequency |
| `ScalerIoc.TenHertz` | main.py:153-156 | 10 Hz writes period 0.1 and width 0.05; period 0.1 reads back as 10 Hz |
| `ScalerIoc.LatestIsLastWrite` | main.py:69-71 | the value `Latest` gives for a PandA record is the last write to it: it is absent only if the record was never written, and no later write goes to that record |
| `ScalerIoc.Initial` | main.py:20-34 | the class defaults and the start-up writes of lines 73-76: gain 0.01 / −2, both flags down, both statuses Idle, ring index 0, BITS:B last written 1, BITS:A and CLOCK1 never written |
| `ScalerIoc.InitialConsistent` | main.py:73-76 | the start-up state (both statuses Idle, counter reset written 0 then 1) satisfies the invariant, and it leaves the counter reset at 1 |
| `ScalerIoc.TriggerOutStep` | main.py:141-151 | after a trigger a cycle is running; while a cycle runs, a trigger changes nothing; from idle both flags go up and BITS:B := 1, BITS:A := value, BITS:A := 0 are written in that order |
| `ScalerIoc.TriggerInStep` | main.py:120-126 | a value of 1 ends the cycle and no other value does; the experiment flag and the PandA writes are untouched; TRIG:IN always shows the value |
| `ScalerIoc.CounterStep` | main.py:127-133 | a count ≥ the target ends the experiment and leaves BITS:B at 0; the cycle flag is untouched; CYCLE:NUM always shows the count |
| `ScalerIoc.ClockPeriodStep` | main.py:134-135 | a period of zero is a fault; otherwise only FREQ changes, to a value whose product with the period is 1 |
| `ScalerIoc.ClockFreqSetStep` | main.py:153-156 | a frequency of zero is a fault with nothing written; otherwise only the trace changes, by the period and then the width from `TimingFor`, and the period last written times the frequency is 1 |
| `ScalerIoc.ResetStep` | main.py:162-172 | a value of 1 restores gain 0.01 / −2, clears both flags, zeroes CYCLE:NUM, sets both statuses Idle and leaves BITS:B at 0; any other value changes nothing; target and ring index are never touched |
| `ScalerIoc.TriggerOutKeepsConsistent` | main.py:141-151 | a trigger keeps the invariant: statuses mirror the flags, the counter reset is 1 while an experiment runs, the trigger line rests at 0, and the clock width is half the period |
| `ScalerIoc.TriggerInKeepsConsistent` | main.py:120-126 | trigger-in keeps the invariant |
| `ScalerIoc.CounterKeepsConsistent` | main.py:127-133 | a counter update keeps the invariant |
| `ScalerIoc.ClockPeriodKeepsConsistent` | main.py:134-135 | a clock-period readback keeps the invariant |
| `ScalerIoc.ClockFreqSetKeepsConsistent` | main.py:153-156 | a frequency setting keeps the invariant, the 50% duty cycle in particular |
| `ScalerIoc.ResetKeepsConsistent` | main.py:162-172 | a reset keeps the invariant, the exact gain in particular |
| `ScalerIoc.TriggerOutIdempotent` | main.py:144-151 | a second trigger after a first changes nothing, whatever the two values |
| `ScalerIoc.ThreeCycleExperiment` | main.py:127-151 | from any state with no cycle running and target 3, a trigger and then counts 1, 2, 3: the experiment runs until the third count and then shows Idle |
| `ScalerIoc.Controller.constructor` | main.py:73-76 | the object starts in the initial state with zeroed histories of capacity 60000, and the invariant holds |
| `ScalerIoc.Controller.EweSample` | main.py:84-90 | only EWE slot `currentIndex` is written, with raw × constant; the index does not move; EWE:LAST equals the stored value; nothing else changes |
| `ScalerIoc.Controller.ScaleCurrent` | main.py:92-107 | the gain fields and the returned value are exactly what `AutoRange` gives for the current histories and index |
| `ScalerIoc.Controller.CurrentSample` | main.py:91-118 | only I and I:DEBUG slot i (the old index) are written, with the auto-ranged value and exponent; the index advances with wrap to 0; I:LAST equals the stored value, which is the raw sample scaled by ten to its recorded exponent |
| `ScalerIoc.Controller.TriggerInSample` | main.py:120-126 | the new state is `TriggerInStep` of the old one, and the invariant is kept |
| `ScalerIoc.Controller.CounterSample` | main.py:127-133 | the new state is `CounterStep` of the old one, and the invariant is kept |
| `ScalerIoc.Controller.ClockPeriodSample` | main.py:134-135 | a nonzero period sets FREQ to its reciprocal; period zero is reported and changes nothing |
| `ScalerIoc.Controller.TriggerOut` | main.py:141-151 | the new state is `TriggerOutStep` of the old one, and the invariant is kept |
| `ScalerIoc.Controller.ClockFreqSet` | main.py:153-156 | a nonzero frequency appends the period then the width write; zero is reported and writes nothing |
| `ScalerIoc.Controller.CycleNum` | main.py:158-160 | only the cycle target changes |
| `ScalerIoc.Controller.Reset` | main.py:162-172 | the new state is `ResetStep` of the old one; the histories are not in its frame |
| `Biophyd.EndsCapture` | biophyd.py:64-65 | a cycle change stops capture only onto the target, and a readback equal to the previous one never does |
| `Biophyd.CaptureAfter` | biophyd.py:63-66 | after any sequence of cycle-change callbacks, Capture is either what it was or 0 |
| `Biophyd.CycleCallbacks` | biophyd.py:63-66 | delivering successive readbacks to `HandleCycleChange` leaves Capture as `CaptureAfter` of them; every put it issues is Capture := 0, appended to the earlier trace; no other register changes; if no readback equals the target, nothing changes at all |
| `Biophyd.SkippingCallbacksKeepCapture` | biophyd.py:63-66 | on the device itself, callbacks whose readbacks all avoid the target issue no put and leave every register as it was |
| `Biophyd.SkippedTargetKeepsCapture` | biophyd.py:63-66 | a cycle readback that never equals the target never stops capture, however far past the target it goes |
| `Biophyd.StoppedCaptureStaysStopped` | biophyd.py:63-66 | once capture is stopped, no later cycle change starts it again |
| `Biophyd.ReachedTargetStopsCapture` | biophyd.py:63-66 | a readback that changes onto the target at any point leaves capture stopped |
| `Biophyd.BioLogicData.constructor` | biophyd.py:68-71 | construction prepares the capture device with the given directory and file name, and those four puts are its only writes |
| `Biophyd.BioLogicData.DataPrepare` | biophyd.py:15-19 | directory, file name, flush period 0.5 and mode FOREVER are written in that order; Capture and every other register are untouched |
| `Biophyd.BioLogicData.DataTrigger` | biophyd.py:21-22 | puts Capture := 1 and nothing else |
| `Biophyd.BioLogicData.DataEndCapture` | biophyd.py:24-25 | puts Capture := 0 and nothing else |
| `Biophyd.BioLogicData.BioLogicTrigger` | biophyd.py:47-48 | puts TRIG:OUT := 1 and nothing else |
| `Biophyd.BioLogicData.BioLogicReset` | biophyd.py:56-57 | puts RESET := 1 and nothing else |
| `Biophyd.BioLogicData.Read` | biophyd.py:50-54 | exactly two entries, "Ewe" then "I", carrying EWE:LAST and I:LAST with their time stamps |
| `Biophyd.BioLogicData.HandleCycleChange` | biophyd.py:63-66 | Capture := 0 is put exactly when the value changed and equals EXP:NUM_CYCLES; otherwise nothing changes |
| `Biophyd.BioLogicData.Trigger` | biophyd.py:73-75 | puts TRIG:OUT := 1 and then Capture := 1, and nothing else |
| `Biophyd.BioLogicData.Reset` | biophyd.py:80-82 | puts Capture := 0 and then RESET := 1, and nothing else |
| `Coordination.SkipPastTargetDiverges` | biophyd.py:63-66 | a count jumping from below the target to past it ends the experiment in the IOC (≥) but does not stop capture (==) |
| `Coordination.ReachTargetAgrees` | biophyd.py:63-66 | a count changing onto the target ends the experiment and stops capture alike |

## Left out

- Transport: the caproto client context, `get_pvs`, the async `monitor` loop and pvproperty publication (`main.py:64-82`). Each branch of the string dispatch on the PV name is one method. The histories are published by being the arrays themselves.
- The values putters leave in their own PVs (TRIG:OUT, FREQ:SET, EXP:NUM_CYCLES, RESET): this is caproto's bookkeeping, not the IOC's logic.
- Connection events (`main.py:136-139`): a disconnect marks EWE with a LINK / MAJOR alarm. This belongs to the transport layer.
- Time stamps, status and severity of the incoming samples (`main.py:87-132`): they are only passed through to the published PVs.
- IEEE-754 rounding: the model uses exact reals, so repeated division by ten is exactly `10^exponent`, which doubles are not.
- `print` calls, `argparse`, `main`, `run` and the `panda_prefix` / prefix configuration (`main.py:175-194`).
- `ScalerIoc.Controller.ClockPeriodSample`: a zero period in the source raises `ZeroDivisionError` inside the monitor loop, which ends event processing. The model reports the fault with `ok == false` and leaves the state unchanged. It does not model the end of the loop.
- `ScalerIoc.Controller.ClockFreqSet`: a zero frequency in the source makes the put fail with an exception before anything is written. The model returns `ok == false` with no change.
- Interleaving of handlers: every monitor branch and every putter is modelled as one atomic step, as if handlers ran one at a time, and `Consistent` is proved only under that assumption. In the source the putters run in caproto's request tasks beside the `async for` monitor loop, so one handler can run while another is suspended at an `await`. For example, `triggerOut` raises both flags and then waits on the counter-reset write (`main.py:145-147`); a COUNTER1:OUT update reaching the target can be handled meanwhile (`main.py:128-131`); `triggerOut` then writes EXP:STATUS "Running" (`main.py:148`), leaving EXP:STATUS "Running" with the experiment flag down. The model does not capture such races.
- ophyd machinery: Component / Device plumbing, the `subscribe` registration in `BioLogicData.__init__`, and EpicsSignal `put` / `set` / `get` semantics. Signals are plain registers. A put is taken as done once it is issued.
- `Biophyd.BioLogicData.constructor`: says nothing about the registers that `prepare` does not write (Capture, TRIG:OUT, RESET, EXP:NUM_CYCLES, EWE:LAST, I:LAST). Their values before construction belong to the remote IOCs.
- The `num_capture` and `status` signals of DATA, and the read-only BioLogic signals not used by any method (EWE, I, CYCLE:STATUS, EXP:STATUS, TRIG:IN, FREQ) and the writable FREQ:SET signal: nothing in the core reads or writes them.
- The module-level `vsp300` instance (`biophyd.py:84`): configuration only.
- The EPICS link between `BioLogic.trigger` (TRIG:OUT := 1) and the IOC's `triggerOut` putter. The two files are modelled separately. `Coordination` only compares their end conditions on the same readback.
