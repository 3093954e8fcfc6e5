/** api/v1alpha1/temporalworker_webhook.go: defaulting and admission of the rollout strategy. */
module Webhook {
  import opened Api

  const MIN_PAUSE: Duration := 30 * SECOND
  const DEFAULT_SCALEDOWN_DELAY: Duration := HOUR
  const DEFAULT_DELETE_DELAY: Duration := 24 * HOUR

  datatype FieldError = StepsRequired | PauseTooShort(step: nat) | RampNotIncreasing(step: nat)

  /** What the webhook promises of a Progressive strategy it lets through. */
  ghost predicate IncreasingSteps(steps: seq<RolloutStep>) {
    && |steps| > 0
    && steps[0].rampPercentage > 0
    && (forall i, j :: 0 <= i < j < |steps| ==> steps[i].rampPercentage < steps[j].rampPercentage)
  }

  ghost predicate LongPauses(steps: seq<RolloutStep>) {
    forall i :: 0 <= i < |steps| ==> steps[i].pauseDuration >= MIN_PAUSE
  }

  ghost predicate Admissible(s: RolloutStrategy) {
    s.strategy == Progressive ==> IncreasingSteps(s.steps) && LongPauses(s.steps)
  }

  /** The ramp the validation loop compares step i against. */
  function LastRamp(steps: seq<RolloutStep>, i: nat): int
    requires i <= |steps|
  {
    if i == 0 then 0 else steps[i - 1].rampPercentage
  }

  /** The errors found in the first i steps. */
  function StepErrors(steps: seq<RolloutStep>, i: nat): seq<FieldError>
    requires i <= |steps|
  {
    if i == 0 then [] else
    StepErrors(steps, i - 1)
    + (if steps[i - 1].pauseDuration < MIN_PAUSE then [PauseTooShort(i - 1)] else [])
    + (if steps[i - 1].rampPercentage <= LastRamp(steps, i - 1) then [RampNotIncreasing(i - 1)] else [])
  }

  method ValidateRolloutStrategy(s: RolloutStrategy) returns (errs: seq<FieldError>)
    ensures errs == [] <==> Admissible(s)
    ensures s.strategy == Progressive ==>
              errs == (if s.steps == [] then [StepsRequired] else StepErrors(s.steps, |s.steps|))
  {
    errs := [];
    if s.strategy == Progressive {
      if |s.steps| == 0 {
        errs := errs + [StepsRequired];
      }
      errs := CheckSteps(s.steps, errs);
      if s.steps != [] {
        NoErrorsIffAdmissible(s.steps, errs);
      }
    }
  }

  /** The loop over the steps. */
  method CheckSteps(steps: seq<RolloutStep>, before: seq<FieldError>) returns (errs: seq<FieldError>)
    ensures errs == before + StepErrors(steps, |steps|)
  {
    errs := before;
    var lastRamp := 0;
    for i := 0 to |steps|
      invariant lastRamp == LastRamp(steps, i)
      invariant errs == before + StepErrors(steps, i)
    {
      if steps[i].pauseDuration < MIN_PAUSE {
        errs := errs + [PauseTooShort(i)];
      }
      if steps[i].rampPercentage <= lastRamp {
        errs := errs + [RampNotIncreasing(i)];
      }
      lastRamp := steps[i].rampPercentage;
    }
  }

  /** Every short pause and every ramp that fails to rise is reported, at its own step, and nothing else is. */
  lemma {:induction false} ErrorsAreExact(steps: seq<RolloutStep>, i: nat, k: nat)
    requires i <= |steps|
    ensures PauseTooShort(k) in StepErrors(steps, i) <==> k < i && steps[k].pauseDuration < MIN_PAUSE
    ensures RampNotIncreasing(k) in StepErrors(steps, i) <==> k < i && steps[k].rampPercentage <= LastRamp(steps, k)
    ensures StepsRequired !in StepErrors(steps, i)
  {
    if i > 0 {
      ErrorsAreExact(steps, i - 1, k);
      StepAdds(steps, i, PauseTooShort(k));
      StepAdds(steps, i, RampNotIncreasing(k));
      StepAdds(steps, i, StepsRequired);
    }
  }

  lemma {:induction false} StepAdds(steps: seq<RolloutStep>, i: nat, e: FieldError)
    requires 0 < i <= |steps|
    ensures e in StepErrors(steps, i) <==>
            e in StepErrors(steps, i - 1) || (e == PauseTooShort(i - 1) && steps[i - 1].pauseDuration < MIN_PAUSE)
            || (e == RampNotIncreasing(i - 1) && steps[i - 1].rampPercentage <= LastRamp(steps, i - 1))
  {
  }

  lemma {:induction false} NoErrorsIffAdmissible(steps: seq<RolloutStep>, errs: seq<FieldError>)
    requires |steps| > 0 && errs == StepErrors(steps, |steps|)
    ensures errs == [] <==> IncreasingSteps(steps) && LongPauses(steps)
  {
    if errs == [] {
      forall i: nat | i < |steps|
        ensures steps[i].rampPercentage > LastRamp(steps, i) && steps[i].pauseDuration >= MIN_PAUSE
      {
        ErrorsAreExact(steps, |steps|, i);
      }
      StepwiseIsIncreasing(steps);
    } else if IncreasingSteps(steps) {
      var e := errs[0];
      assert e in errs;
      ErrorsAreExact(steps, |steps|, if e.StepsRequired? then 0 else e.step);
    }
  }

  /** Comparing each step with its predecessor orders all pairs. */
  lemma {:induction false} StepwiseIsIncreasing(steps: seq<RolloutStep>)
    requires |steps| > 0
    requires forall i: nat :: i < |steps| ==> steps[i].rampPercentage > LastRamp(steps, i)
    ensures IncreasingSteps(steps)
  {
    assert steps[0].rampPercentage > LastRamp(steps, 0);
    forall i, j | 0 <= i < j < |steps|
      ensures steps[i].rampPercentage < steps[j].rampPercentage
    {
      LaterIsHigher(steps, i, j);
    }
  }

  lemma {:induction false} LaterIsHigher(steps: seq<RolloutStep>, i: nat, j: nat)
    requires i < j < |steps|
    requires forall k: nat :: k < |steps| ==> steps[k].rampPercentage > LastRamp(steps, k)
    ensures steps[i].rampPercentage < steps[j].rampPercentage
  {
    assert steps[j].rampPercentage > LastRamp(steps, j);
    if i + 1 < j {
      LaterIsHigher(steps, i, j - 1);
    }
  }

  class SunsetStrategy {
    var scaledownDelay: Option<Duration>
    var deleteDelay: Option<Duration>

    constructor (scaledownDelay: Option<Duration>, deleteDelay: Option<Duration>)
      ensures this.scaledownDelay == scaledownDelay && this.deleteDelay == deleteDelay
    {
      this.scaledownDelay, this.deleteDelay := scaledownDelay, deleteDelay;
    }

    /** Fills only what the user left out, so defaulting again (Reconcile does) changes nothing. */
    method Default()
      modifies this
      ensures scaledownDelay == Some(if old(scaledownDelay).Some? then old(scaledownDelay).value
                else DEFAULT_SCALEDOWN_DELAY)
      ensures deleteDelay == Some(if old(deleteDelay).Some? then old(deleteDelay).value else DEFAULT_DELETE_DELAY)
      ensures old(scaledownDelay.Some? && deleteDelay.Some?) ==> unchanged(this)
    {
      if scaledownDelay.None? {
        scaledownDelay := Some(DEFAULT_SCALEDOWN_DELAY);
      }
      if deleteDelay.None? {
        deleteDelay := Some(DEFAULT_DELETE_DELAY);
      }
    }
  }
}
