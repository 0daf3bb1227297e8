/**
 * How the scaler IOC's experiment end and the capture stop of BioLogicData relate.
 * Both react to the same cycle-number readback and the same EXP:NUM_CYCLES target,
 * but the IOC ends the experiment on `count >= target` while BioLogicData stops
 * capture only when the readback changes to exactly the target.
 */
module Coordination {
  import ScalerIoc
  import Biophyd

  /**
   * A readback that jumps from below the target to past it ends the experiment in
   * the IOC but leaves capture running.
   */
  lemma SkipPastTargetDiverges(s: ScalerIoc.Regs, count: int)
    requires s.cycleCount < s.numCycles < count
    ensures !ScalerIoc.CounterStep(s, count).experimentRunning
    ensures ScalerIoc.CounterStep(s, count).expStatus == ScalerIoc.Idle
    ensures !Biophyd.EndsCapture(count, s.cycleCount, s.numCycles)
  {
  }

  /** A readback that changes onto the target does both: the experiment ends and capture stops. */
  lemma ReachTargetAgrees(s: ScalerIoc.Regs, count: int)
    requires s.cycleCount != count && count == s.numCycles
    ensures !ScalerIoc.CounterStep(s, count).experimentRunning
    ensures Biophyd.EndsCapture(count, s.cycleCount, s.numCycles)
  {
  }
}
