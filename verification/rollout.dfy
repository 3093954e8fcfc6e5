/** The progressive rollout engine of internal/planner/planner.go, one reconcile at a time. */
module Rollout {
  import opened Api

  /** planner.VersionConfig, the routing change a plan asks for. The planner fills it field by field. */
  class VersionConfig {
    var conflictToken: Option<nat>
    var buildID: BuildID
    var setCurrent: bool
    var rampPercentage: int32

    constructor (conflictToken: Option<nat>, buildID: BuildID)
      ensures Change() == RoutingChange(conflictToken, buildID, false, 0)
    {
      this.conflictToken, this.buildID := conflictToken, buildID;
      setCurrent, rampPercentage := false, 0;
    }

    function Change(): RoutingChange
      reads this
    {
      RoutingChange(conflictToken, buildID, setCurrent, rampPercentage)
    }
  }

  /** The value of a VersionConfig. */
  datatype RoutingChange = RoutingChange(conflictToken: Option<nat>, buildID: BuildID, setCurrent: bool,
      rampPercentage: int32)

  /** What one look at the target's ramp calls for. */
  datatype Decision = Hold | SetRamp(percentage: int32) | Promote

  /** Every step up to and including i is at or below the ramp r. */
  predicate Reached(steps: seq<RolloutStep>, r: real, i: int)
    requires i < |steps|
  {
    forall j :: 0 <= j <= i ==> steps[j].rampPercentage as real <= r
  }

  /** The last step before the first one that lies above the ramp; step 0 when there is no ramp or
      when step 0 already lies above it. */
  ghost predicate IsCurrentStep(steps: seq<RolloutStep>, ramp: Option<real>, i: nat) {
    && i < |steps|
    && match ramp
       case None => i == 0
       case Some(r) =>
         && (i > 0 ==> Reached(steps, r, i))
         && (i + 1 < |steps| ==> Reached(steps, r, i) ==> steps[i + 1].rampPercentage as real > r)
         && (!Reached(steps, r, i) ==> i == 0)
  }

  function CurrentStep(steps: seq<RolloutStep>, ramp: Option<real>): (i: nat)
    requires |steps| > 0
    ensures IsCurrentStep(steps, ramp, i)
  {
    if ramp.None? then 0 else StepFrom(steps, ramp.value, 0)
  }

  function StepFrom(steps: seq<RolloutStep>, r: real, i: nat): (k: nat)
    requires i < |steps|
    requires i > 0 ==> Reached(steps, r, i)
    ensures IsCurrentStep(steps, Some(r), k)
    decreases |steps| - i
  {
    if i + 1 < |steps| && Reached(steps, r, i + 1) then StepFrom(steps, r, i + 1) else i
  }

  /** Seen through a stored status, a step's pause is kept in full, whenever the planner looks, exactly if
      the server changed the ramp on a whole second. One nanosecond later, it may end early. */
  lemma {:induction false} FullPauseIffWholeSecond(steps: seq<RolloutStep>, changed: Time, ramp: real)
    requires |steps| > 0 && ramp == steps[CurrentStep(steps, Some(ramp))].rampPercentage as real
    ensures var pause := steps[CurrentStep(steps, Some(ramp))].pauseDuration;
            (forall now :: ProgressiveDecision(steps, now, Some(WholeSecond(changed)), Some(ramp)) != Hold
                ==> now > changed + pause)
            <==> changed % SECOND == 0
  {
    var now := changed + steps[CurrentStep(steps, Some(ramp))].pauseDuration;
    assert ProgressiveDecision(steps, now, Some(WholeSecond(changed)), Some(ramp)) != Hold
      <==> WholeSecond(changed) < changed;
  }

  /** getCurrentStepIndex: scan until a step lies above the ramp. */
  method GetCurrentStepIndex(steps: seq<RolloutStep>, ramp: Option<real>) returns (result: nat)
    requires |steps| > 0
    ensures result == CurrentStep(steps, ramp)
  {
    result := 0;
    if ramp.Some? {
      var i := 0;
      while i < |steps|
        invariant 0 <= i <= |steps| && result == (if i == 0 then 0 else i - 1)
        invariant Reached(steps, ramp.value, i - 1)
      {
        if steps[i].rampPercentage as real > ramp.value {
          break;
        }
        result := i;
        i := i + 1;
      }
    }
    assert IsCurrentStep(steps, ramp, result);
  }

  /** The decision handleProgressiveRollout takes, as a function of what it is given. */
  function ProgressiveDecision(steps: seq<RolloutStep>, now: Time, lastModified: Option<Time>,
                               ramp: Option<real>): Decision {
    if |steps| == 0 then Hold else
    var i := CurrentStep(steps, ramp);
    if ramp.None? || ramp.value != steps[i].rampPercentage as real then
      SetRamp(steps[i].rampPercentage)
    else if lastModified.None? || now <= lastModified.value + steps[i].pauseDuration then
      Hold
    else if i + 1 < |steps| then
      SetRamp(steps[i + 1].rampPercentage)
    else
      Promote
  }

  /** handleProgressiveRollout: writes the decision into vcfg and returns it, or returns null. */
  method HandleProgressiveRollout(steps: seq<RolloutStep>, now: Time, lastModified: Option<Time>,
                                  ramp: Option<real>, vcfg: VersionConfig)
    returns (r: VersionConfig?)
    modifies vcfg
    ensures r == null <==> ProgressiveDecision(steps, now, lastModified, ramp) == Hold
    ensures r != null ==> r == vcfg
    ensures vcfg.Change() == match ProgressiveDecision(steps, now, lastModified, ramp)
                             case Hold => old(vcfg.Change())
                             case SetRamp(p) => old(vcfg.Change()).(rampPercentage := p)
                             case Promote => old(vcfg.Change()).(setCurrent := true)
  {
    if |steps| == 0 {
      return null;
    }
    var i := GetCurrentStepIndex(steps, ramp);
    var currentStep := steps[i];
    if ramp.None? {
      vcfg.rampPercentage := currentStep.rampPercentage;
      return vcfg;
    }
    if ramp.value != currentStep.rampPercentage as real {
      vcfg.rampPercentage := currentStep.rampPercentage;
      return vcfg;
    }
    if lastModified.Some? {
      if lastModified.value + currentStep.pauseDuration < now {
        if i < |steps| - 1 {
          vcfg.rampPercentage := steps[i + 1].rampPercentage;
          return vcfg;
        } else {
          vcfg.setCurrent := true;
          return vcfg;
        }
      }
    }
    return null;
  }
}
