/** The rollout engine in closed loop with a server that stores what it is told: when does the
    target become current, after how many routing changes, and for which steps never. */
module RolloutLoop {
  import opened Api
  import opened Rollout
  import Webhook

  /** The target is ramping at some percentage (or not yet) since some time, or it is current. */
  datatype State = Rolling(ramp: Option<real>, since: Time) | Promoted

  /** One reconcile whose routing change, if any, the server applies and stamps with the same time. The
      planner is shown the whole second of the stamp. */
  function Reconcile(steps: seq<RolloutStep>, s: State, now: Time): State {
    if s.Promoted? then s else
    match ProgressiveDecision(steps, now, if s.ramp.Some? then Some(WholeSecond(s.since)) else None, s.ramp)
    case Hold => s
    case SetRamp(p) => Rolling(Some(p as real), now)
    case Promote => Promoted
  }

  function Run(steps: seq<RolloutStep>, s: State, times: seq<Time>): State
    decreases |times|
  {
    if times == [] then s else Run(steps, Reconcile(steps, s, times[0]), times[1..])
  }

  /** How many reconciles of the run change the routing. */
  function Changes(steps: seq<RolloutStep>, s: State, times: seq<Time>): nat
    decreases |times|
  {
    if times == [] then 0 else
    var s' := Reconcile(steps, s, times[0]);
    (if s' == s then 0 else 1) + Changes(steps, s', times[1..])
  }

  /** Step i is the last one before a new highest percentage, or the last of all. */
  ghost predicate EndsStage(steps: seq<RolloutStep>, i: nat) {
    && i < |steps|
    && (i + 1 < |steps| ==> forall j :: 0 <= j <= i ==> steps[j].rampPercentage < steps[i + 1].rampPercentage)
  }

  ghost predicate TopsItsPrefix(steps: seq<RolloutStep>, i: nat)
    requires i < |steps|
  {
    forall j :: 0 <= j <= i ==> steps[j].rampPercentage <= steps[i].rampPercentage
  }

  /** Every stage of the steps ends on its own highest percentage. */
  ghost predicate Plateaued(steps: seq<RolloutStep>) {
    |steps| > 0 && forall i: nat :: EndsStage(steps, i) ==> TopsItsPrefix(steps, i)
  }

  lemma {:induction false} AdmittedIsPlateaued(steps: seq<RolloutStep>)
    requires Webhook.IncreasingSteps(steps)
    ensures Plateaued(steps)
  {
    forall i: nat | EndsStage(steps, i)
      ensures TopsItsPrefix(steps, i)
    {
    }
  }

  ghost predicate OnStep(steps: seq<RolloutStep>, r: real)
    requires |steps| > 0
  {
    steps[CurrentStep(steps, Some(r))].rampPercentage as real == r
  }

  /** Routing changes still to come, at most. */
  ghost function Rank(steps: seq<RolloutStep>, s: State): nat
    requires |steps| > 0
  {
    match s
    case Promoted => 0
    case Rolling(ramp, _) =>
      if ramp.None? then |steps| + 1
      else |steps| - CurrentStep(steps, ramp) + if OnStep(steps, ramp.value) then 0 else 1
  }

  /** Where the engine ends a stage: its current step is followed by a higher one. */
  lemma {:induction false} CurrentStepEndsStage(steps: seq<RolloutStep>, r: real)
    requires Plateaued(steps)
    ensures var i := CurrentStep(steps, Some(r));
            Reached(steps, r, i) ==> EndsStage(steps, i) && TopsItsPrefix(steps, i)
  {
  }

  /** Moving to the percentage p of some step lands on a step, at index k or later. */
  lemma {:induction false} LandsOnStep(steps: seq<RolloutStep>, k: nat)
    requires Plateaued(steps) && k < |steps|
    requires TopsItsPrefix(steps, k)
    ensures var r := steps[k].rampPercentage as real;
            CurrentStep(steps, Some(r)) >= k && OnStep(steps, r)
  {
    var r := steps[k].rampPercentage as real;
    assert Reached(steps, r, k);
    var i := CurrentStep(steps, Some(r));
    assert Reached(steps, r, i);
    CurrentStepEndsStage(steps, r);
    assert steps[i].rampPercentage as real <= r <= steps[i].rampPercentage as real;
  }

  /** Each routing change brings the target strictly closer, whatever ramp it started from. */
  lemma {:induction false} RankDecreases(steps: seq<RolloutStep>, s: State, now: Time)
    requires Plateaued(steps)
    ensures var s' := Reconcile(steps, s, now);
            s' == s || Rank(steps, s') < Rank(steps, s)
  {
    if s.Rolling? && Reconcile(steps, s, now) != s {
      var i := CurrentStep(steps, s.ramp);
      if s.ramp.None? || !Reached(steps, s.ramp.value, i) {
        assert i == 0 && TopsItsPrefix(steps, 0);
        LandsOnStep(steps, 0);
      } else {
        CurrentStepEndsStage(steps, s.ramp.value);
        if OnStep(steps, s.ramp.value) {
          if i + 1 < |steps| {
            LandsOnStep(steps, i + 1);
          }
        } else {
          LandsOnStep(steps, i);
        }
      }
    }
  }

  /** A run from any starting ramp, reconciled at any times whatever, changes the routing at most
      n + 1 times. */
  lemma {:induction false} BoundedChanges(steps: seq<RolloutStep>, s: State, times: seq<Time>)
    requires Plateaued(steps)
    ensures Changes(steps, s, times) + Rank(steps, Run(steps, s, times)) <= Rank(steps, s) <= |steps| + 1
    decreases |times|
  {
    if times != [] {
      RankDecreases(steps, s, times[0]);
      BoundedChanges(steps, Reconcile(steps, s, times[0]), times[1..]);
    }
  }

  ghost function MaxPause(steps: seq<RolloutStep>): (p: Duration)
    ensures p >= 0
    ensures forall i :: 0 <= i < |steps| ==> steps[i].pauseDuration <= p
  {
    if steps == [] then 0 else
    var p := MaxPause(steps[..|steps| - 1]);
    assert forall i :: 0 <= i < |steps| - 1 ==> steps[i] == steps[..|steps| - 1][i];
    if steps[|steps| - 1].pauseDuration > p then steps[|steps| - 1].pauseDuration else p
  }

  ghost predicate InOrder(times: seq<Time>) {
    forall i, j :: 0 <= i < j < |times| ==> times[i] <= times[j]
  }

  /** How often a reconcile comes later than every pause after the mark; each that does is the next mark.
      Any number of reconciles may lie between. */
  ghost function Ripe(steps: seq<RolloutStep>, mark: Time, times: seq<Time>): nat
    decreases |times|
  {
    if times == [] then 0
    else if times[0] > mark + MaxPause(steps) then 1 + Ripe(steps, times[0], times[1..])
    else Ripe(steps, mark, times[1..])
  }

  ghost predicate StartsAt(since: Time, times: seq<Time>) {
    InOrder(times) && (times != [] ==> since <= times[0])
  }

  /** Ripe reconciles are enough even if the ramp last changed after the mark, given one to spare. */
  lemma {:induction false} PromotesOnceRipe(steps: seq<RolloutStep>, s: State, mark: Time, times: seq<Time>)
    requires Plateaued(steps) && StartsAt(mark, times)
    requires s.Rolling? ==> StartsAt(s.since, times)
    requires s.Rolling? && s.since <= mark ==> Ripe(steps, mark, times) >= Rank(steps, s)
    requires s.Rolling? && s.since > mark ==> Ripe(steps, mark, times) >= Rank(steps, s) + 1
    ensures Run(steps, s, times) == Promoted
    decreases |times|
  {
    if s.Promoted? {
      StaysPromoted(steps, times);
    } else if times != [] {
      var s' := Reconcile(steps, s, times[0]);
      RankDecreases(steps, s, times[0]);
      if times[0] > mark + MaxPause(steps) {
        assert s.since <= mark ==> s' != s;
        PromotesOnceRipe(steps, s', times[0], times[1..]);
      } else {
        PromotesOnceRipe(steps, s', mark, times[1..]);
      }
    }
  }

  /** Whatever reconciles lie between, as many ripe ones as the rank says make the target current, from
      any ramp. */
  lemma {:induction false} Promotes(steps: seq<RolloutStep>, s: State, times: seq<Time>)
    requires Plateaued(steps)
    requires s.Rolling? ==> StartsAt(s.since, times) && Ripe(steps, s.since, times) >= Rank(steps, s)
    ensures Run(steps, s, times) == Promoted
  {
    if s.Rolling? {
      PromotesOnceRipe(steps, s, s.since, times);
    } else {
      StaysPromoted(steps, times);
    }
  }

  lemma {:induction false} StaysPromoted(steps: seq<RolloutStep>, times: seq<Time>)
    ensures Run(steps, Promoted, times) == Promoted
  {
    if times != [] {
      StaysPromoted(steps, times[1..]);
    }
  }

  /** The webhook's promise: admitted steps promote within n + 1 changes. */
  lemma {:induction false} AdmittedStepsPromote(s: RolloutStrategy, ramp: Option<real>, since: Time, times: seq<Time>)
    requires Webhook.Admissible(s) && s.strategy == Progressive
    requires StartsAt(since, times) && Ripe(s.steps, since, times) >= |s.steps| + 1
    ensures Run(s.steps, Rolling(ramp, since), times) == Promoted
    ensures Changes(s.steps, Rolling(ramp, since), times) <= |s.steps| + 1
  {
    AdmittedIsPlateaued(s.steps);
    BoundedChanges(s.steps, Rolling(ramp, since), times);
    Promotes(s.steps, Rolling(ramp, since), times);
  }

  /** Reconciles recur: each comes at most gap after the one before. */
  ghost predicate Recurs(since: Time, times: seq<Time>, gap: Duration)
    decreases |times|
  {
    times == [] || (since <= times[0] <= since + gap && Recurs(times[0], times[1..], gap))
  }

  lemma {:induction false} RecursInOrder(since: Time, times: seq<Time>, gap: Duration)
    requires Recurs(since, times, gap)
    ensures StartsAt(since, times)
    decreases |times|
  {
    if times != [] {
      var rest := times[1..];
      RecursInOrder(times[0], rest, gap);
      forall i, j | 0 <= i < j < |times|
        ensures times[i] <= times[j]
      {
        assert times[j] == rest[j - 1] && (i > 0 ==> times[i] == rest[i - 1]);
        assert rest[0] <= rest[j - 1];
      }
    }
  }

  /** k stages, one after the other. */
  ghost function Stages(k: nat, stage: Duration): Duration {
    if k == 0 then 0 else stage + Stages(k - 1, stage)
  }

  lemma {:induction false} StagesMultiply(k: nat, stage: Duration)
    ensures Stages(k, stage) == k * stage
    ensures stage >= 0 ==> Stages(k, stage) >= 0
  {
    if k > 0 {
      StagesMultiply(k - 1, stage);
    }
  }

  /** prev is the last reconcile so far; it was not ripe after the mark. */
  lemma {:induction false} LongRunsRipen(steps: seq<RolloutStep>, mark: Time, prev: Time, times: seq<Time>,
                                         gap: Duration, k: nat)
    requires gap >= 0 && Recurs(prev, times, gap)
    requires mark <= prev <= mark + MaxPause(steps)
    requires (if times == [] then prev else times[|times| - 1]) > mark + Stages(k, MaxPause(steps) + gap)
    ensures Ripe(steps, mark, times) >= k
    decreases |times|
  {
    if k > 0 {
      StagesMultiply(k - 1, MaxPause(steps) + gap);
      var t, rest := times[0], times[1..];
      assert rest != [] ==> rest[|rest| - 1] == times[|times| - 1];
      if t > mark + MaxPause(steps) {
        LongRunsRipen(steps, t, t, rest, gap, k - 1);
      } else {
        LongRunsRipen(steps, mark, t, rest, gap, k);
      }
    }
  }

  /** With reconciles at most gap apart, the controller's ten seconds say, admitted steps are through
      after n + 1 times the longest pause and gap. */
  lemma {:induction false} PromotesInTime(s: RolloutStrategy, ramp: Option<real>, since: Time, times: seq<Time>,
                                          gap: Duration)
    requires Webhook.Admissible(s) && s.strategy == Progressive
    requires gap >= 0 && Recurs(since, times, gap) && times != []
    requires times[|times| - 1] > since + Stages(|s.steps| + 1, MaxPause(s.steps) + gap)
    ensures Run(s.steps, Rolling(ramp, since), times) == Promoted
    ensures Changes(s.steps, Rolling(ramp, since), times) <= |s.steps| + 1
  {
    RecursInOrder(since, times, gap);
    LongRunsRipen(s.steps, since, since, times, gap, |s.steps| + 1);
    AdmittedStepsPromote(s, ramp, since, times);
  }

  /** A ramp off the steps is first corrected to the greatest step not above it, or to the first. */
  lemma {:induction false} OffStepIsCorrectedDown(steps: seq<RolloutStep>, r: real, since: Time, now: Time)
    requires Webhook.IncreasingSteps(steps)
    requires forall i :: 0 <= i < |steps| ==> steps[i].rampPercentage as real != r
    ensures exists k :: 0 <= k < |steps|
                        && Reconcile(steps, Rolling(Some(r), since), now)
                           == Rolling(Some(steps[k].rampPercentage as real), now)
                        && (k > 0 ==> steps[k].rampPercentage as real < r)
                        && (forall j :: 0 <= j < |steps| && steps[j].rampPercentage as real < r ==> j <= k)
  {
    var k := CurrentStep(steps, Some(r));
    if Reached(steps, r, k) {
      forall j | 0 <= j < |steps| && steps[j].rampPercentage as real < r
        ensures j <= k
      {
        assert k + 1 < |steps| ==> steps[k + 1].rampPercentage as real > r;
      }
    } else {
      assert steps[0].rampPercentage as real > r;
      forall j | 0 <= j < |steps|
        ensures steps[j].rampPercentage as real > r
      {
        assert j == 0 || steps[0].rampPercentage < steps[j].rampPercentage;
      }
    }
  }

  // The undisturbed rollout

  ghost function SumOfPauses(steps: seq<RolloutStep>): Duration {
    if steps == [] then 0 else steps[0].pauseDuration + SumOfPauses(steps[1..])
  }

  /** The percentages a run sets, in order. */
  function RampsSet(steps: seq<RolloutStep>, s: State, times: seq<Time>): seq<real>
    decreases |times|
  {
    if times == [] then [] else
    var s' := Reconcile(steps, s, times[0]);
    (if s' != s && s'.Rolling? && s'.ramp.Some? then [s'.ramp.value] else []) + RampsSet(steps, s', times[1..])
  }

  function Percentages(steps: seq<RolloutStep>): seq<real> {
    seq(|steps|, i requires 0 <= i < |steps| => steps[i].rampPercentage as real)
  }

  ghost predicate Whole(times: seq<Time>) {
    forall i :: 0 <= i < |times| ==> times[i] % SECOND == 0
  }

  function AtStep(steps: seq<RolloutStep>, i: nat, since: Time): State
    requires i < |steps|
  {
    Rolling(Some(steps[i].rampPercentage as real), since)
  }

  lemma {:induction false} ReconcileAtStep(steps: seq<RolloutStep>, i: nat, since: Time, now: Time)
    requires Webhook.IncreasingSteps(steps) && i < |steps|
    ensures Reconcile(steps, AtStep(steps, i, since), now)
            == if now <= WholeSecond(since) + steps[i].pauseDuration then AtStep(steps, i, since)
               else if i + 1 < |steps| then AtStep(steps, i + 1, now)
               else Promoted
  {
    AdmittedIsPlateaued(steps);
    LandsOnStep(steps, i);
    assert Reached(steps, steps[i].rampPercentage as real, CurrentStep(steps, AtStep(steps, i, since).ramp));
  }

  /** The run sets the percentages left after step i in order; if it promotes, all of them, and later
      than all pauses from step i on. Each pause counts from a whole second, so a stamp that is not one
      gives away less than a second. */
  ghost predicate Follows(steps: seq<RolloutStep>, i: nat, since: Time, times: seq<Time>)
    requires i < |steps|
  {
    var s := AtStep(steps, i, since);
    && RampsSet(steps, s, times) <= Percentages(steps[i + 1..])
    && (Run(steps, s, times) == Promoted ==>
          && RampsSet(steps, s, times) == Percentages(steps[i + 1..])
          && times != []
          && times[|times| - 1] - since > SumOfPauses(steps[i..]) - (|steps| - i) * (SECOND - 1)
          && (since % SECOND == 0 && Whole(times) ==> times[|times| - 1] - since > SumOfPauses(steps[i..])))
  }

  lemma {:induction false} FollowsStepsFrom(steps: seq<RolloutStep>, i: nat, since: Time, times: seq<Time>)
    requires Webhook.IncreasingSteps(steps) && i < |steps| && InOrder(times)
    requires times != [] ==> since <= times[0]
    ensures Follows(steps, i, since, times)
    decreases |times|
  {
    if times != [] {
      ReconcileAtStep(steps, i, since, times[0]);
      var rest := times[1..];
      assert steps[i..][1..] == steps[i + 1..];
      assert rest != [] ==> rest[|rest| - 1] == times[|times| - 1];
      if times[0] <= WholeSecond(since) + steps[i].pauseDuration {
        FollowsStepsFrom(steps, i, since, rest);
      } else if i + 1 < |steps| {
        FollowsStepsFrom(steps, i + 1, times[0], rest);
        FollowsNextStep(steps, i, since, times);
      } else {
        FollowsToTheEnd(steps, since, times);
      }
    }
  }

  lemma {:induction false} FollowsNextStep(steps: seq<RolloutStep>, i: nat, since: Time, times: seq<Time>)
    requires i + 1 < |steps| && steps[i].rampPercentage < steps[i + 1].rampPercentage
    requires times != [] && times[0] > WholeSecond(since) + steps[i].pauseDuration
    requires Reconcile(steps, AtStep(steps, i, since), times[0]) == AtStep(steps, i + 1, times[0])
    requires Follows(steps, i + 1, times[0], times[1..])
    ensures Follows(steps, i, since, times)
  {
    NextPercentage(steps, i);
    assert steps[i..][1..] == steps[i + 1..];
    assert times[1..] != [] ==> times[1..][|times| - 2] == times[|times| - 1];
  }

  lemma {:induction false} FollowsToTheEnd(steps: seq<RolloutStep>, since: Time, times: seq<Time>)
    requires |steps| > 0 && times != [] && InOrder(times)
             && times[0] > WholeSecond(since) + steps[|steps| - 1].pauseDuration
    requires Reconcile(steps, AtStep(steps, |steps| - 1, since), times[0]) == Promoted
    ensures Follows(steps, |steps| - 1, since, times)
  {
    NothingMoreIsSet(steps, times[1..]);
    StaysPromoted(steps, times[1..]);
    assert steps[|steps| - 1..][1..] == [];
    assert times[|times| - 1] >= times[0];
  }

  lemma {:induction false} NextPercentage(steps: seq<RolloutStep>, i: nat)
    requires i + 1 < |steps|
    ensures Percentages(steps[i + 1..]) == [steps[i + 1].rampPercentage as real] + Percentages(steps[i + 2..])
  {
  }

  lemma {:induction false} NothingMoreIsSet(steps: seq<RolloutStep>, times: seq<Time>)
    ensures RampsSet(steps, Promoted, times) == []
  {
    if times != [] {
      NothingMoreIsSet(steps, times[1..]);
    }
  }

  /** Left alone from no ramp on, a rollout visits the steps in order, each once, and promotes only
      after more than the sum of all pauses, stamps being whole seconds, and in any case after more
      than that sum less one second a step. */
  lemma {:induction false} VisitsStepsInOrder(steps: seq<RolloutStep>, since: Time, times: seq<Time>)
    requires Webhook.IncreasingSteps(steps) && InOrder(times)
    ensures RampsSet(steps, Rolling(None, since), times) <= Percentages(steps)
    ensures Run(steps, Rolling(None, since), times) == Promoted ==>
              && RampsSet(steps, Rolling(None, since), times) == Percentages(steps)
              && times != []
              && times[|times| - 1] - times[0] > SumOfPauses(steps) - |steps| * (SECOND - 1)
              && (Whole(times) ==> times[|times| - 1] - times[0] > SumOfPauses(steps))
  {
    if times != [] {
      FollowsStepsFrom(steps, 0, times[0], times[1..]);
      FollowsFromTheFirst(steps, times[0], times[1..]);
      FirstIsSet(steps, since, times);
      assert |times| > 1 ==> times[1..][|times| - 2] == times[|times| - 1];
    }
  }

  lemma {:induction false} FollowsFromTheFirst(steps: seq<RolloutStep>, since: Time, times: seq<Time>)
    requires |steps| > 0 && Follows(steps, 0, since, times)
    ensures var s := AtStep(steps, 0, since);
            && [steps[0].rampPercentage as real] + RampsSet(steps, s, times) <= Percentages(steps)
            && (Run(steps, s, times) == Promoted ==>
                  && [steps[0].rampPercentage as real] + RampsSet(steps, s, times) == Percentages(steps)
                  && times != []
                  && times[|times| - 1] - since > SumOfPauses(steps) - |steps| * (SECOND - 1)
                  && (since % SECOND == 0 && Whole(times) ==> times[|times| - 1] - since > SumOfPauses(steps)))
  {
    FirstPercentage(steps);
    assert steps[0..] == steps;
  }

  lemma {:induction false} FirstIsSet(steps: seq<RolloutStep>, since: Time, times: seq<Time>)
    requires |steps| > 0 && times != []
    ensures var s := AtStep(steps, 0, times[0]);
            && RampsSet(steps, Rolling(None, since), times) == [steps[0].rampPercentage as real]
               + RampsSet(steps, s, times[1..])
            && Run(steps, Rolling(None, since), times) == Run(steps, s, times[1..])
  {
  }

  lemma {:induction false} FirstPercentage(steps: seq<RolloutStep>)
    requires |steps| > 0
    ensures Percentages(steps) == [steps[0].rampPercentage as real] + Percentages(steps[1..])
  {
  }

  // When steps fail to promote

  ghost function Highest(steps: seq<RolloutStep>, i: nat): (m: nat)
    requires i < |steps|
    ensures m <= i
    ensures forall j :: 0 <= j <= i ==> steps[j].rampPercentage <= steps[m].rampPercentage
  {
    if i == 0 then 0 else
    var m := Highest(steps, i - 1);
    if steps[m].rampPercentage < steps[i].rampPercentage then i else m
  }

  /** A stage that ends below its highest percentage is never left again from below. */
  lemma {:induction false} TrapHolds(steps: seq<RolloutStep>, i: nat, r: real, since: Time, now: Time)
    requires EndsStage(steps, i) && !TopsItsPrefix(steps, i)
    requires r <= steps[Highest(steps, i)].rampPercentage as real
    ensures var s' := Reconcile(steps, Rolling(Some(r), since), now);
            s'.Rolling? && s'.ramp.Some? && s'.ramp.value <= steps[Highest(steps, i)].rampPercentage as real
  {
    var m := Highest(steps, i);
    var top := steps[m].rampPercentage as real;
    var k := CurrentStep(steps, Some(r));
    if !Reached(steps, r, k) {
      assert k == 0 && steps[0].rampPercentage as real > r;
    } else if r < top {
      assert k < m;
    } else {
      assert Reached(steps, r, i);
      assert k == i;
    }
  }

  lemma {:induction false} Trapped(steps: seq<RolloutStep>, i: nat, r: real, since: Time, times: seq<Time>)
    requires EndsStage(steps, i) && !TopsItsPrefix(steps, i)
    requires r <= steps[Highest(steps, i)].rampPercentage as real
    ensures Run(steps, Rolling(Some(r), since), times) != Promoted
    decreases |times|
  {
    if times != [] {
      TrapHolds(steps, i, r, since, times[0]);
      var s' := Reconcile(steps, Rolling(Some(r), since), times[0]);
      Trapped(steps, i, s'.ramp.value, s'.since, times[1..]);
    }
  }

  /** n + 1 ripe reconciles, and any others. */
  ghost predicate Ready(steps: seq<RolloutStep>, since: Time, times: seq<Time>) {
    StartsAt(since, times) && Ripe(steps, since, times) >= |steps| + 1
  }

  ghost function Schedule(steps: seq<RolloutStep>, since: Time, n: nat): (times: seq<Time>)
    ensures StartsAt(since, times) && Ripe(steps, since, times) == n
    decreases n
  {
    if n == 0 then [] else
    var t := since + MaxPause(steps) + 1;
    var rest := Schedule(steps, t, n - 1);
    assert ([t] + rest)[1..] == rest;
    assert forall j :: 0 <= j < |rest| ==> rest[0] <= rest[j];
    [t] + rest
  }

  lemma {:induction false} RankIsBounded(steps: seq<RolloutStep>, s: State)
    requires |steps| > 0
    ensures Rank(steps, s) <= |steps| + 1
  {
  }

  /** Exactly which steps are promoted from every ramp, whenever enough reconciles are ripe: those whose
      every stage ends on its own highest percentage. The admission rule is one way to get there. */
  lemma {:induction false} PromotesFromEveryRampIffPlateaued(steps: seq<RolloutStep>)
    requires |steps| > 0
    ensures (forall ramp, since, times :: Ready(steps, since, times)
              ==> Run(steps, Rolling(ramp, since), times) == Promoted)
            <==> Plateaued(steps)
  {
    if Plateaued(steps) {
      forall ramp, since, times | Ready(steps, since, times)
        ensures Run(steps, Rolling(ramp, since), times) == Promoted
      {
        RankIsBounded(steps, Rolling(ramp, since));
        Promotes(steps, Rolling(ramp, since), times);
      }
    } else {
      var times := Schedule(steps, 0, |steps| + 1);
      NoRampIsTrapped(steps, 0, times);
      assert Ready(steps, 0, times);
    }
  }

  lemma {:induction false} NoRampIsTrapped(steps: seq<RolloutStep>, since: Time, times: seq<Time>)
    requires |steps| > 0 && !Plateaued(steps)
    ensures Run(steps, Rolling(None, since), times) != Promoted
  {
    if times != [] {
      var i: nat :| EndsStage(steps, i) && !TopsItsPrefix(steps, i);
      assert Reconcile(steps, Rolling(None, since), times[0])
        == Rolling(Some(steps[0].rampPercentage as real), times[0]);
      Trapped(steps, i, steps[0].rampPercentage as real, times[0], times[1..]);
    }
  }

  /** The same dichotomy for an ordinary rollout, from no ramp: either it is promoted whenever enough
      reconciles are ripe, or it never is, at whatever times it is reconciled. */
  lemma {:induction false} PromotesFromNoRampIffPlateaued(steps: seq<RolloutStep>)
    requires |steps| > 0
    ensures Plateaued(steps) ==>
              forall since, times :: Ready(steps, since, times) ==> Run(steps, Rolling(None, since), times) == Promoted
    ensures !Plateaued(steps) ==> forall since, times :: Run(steps, Rolling(None, since), times) != Promoted
  {
    if Plateaued(steps) {
      PromotesFromEveryRampIffPlateaued(steps);
    } else {
      forall since, times
        ensures Run(steps, Rolling(None, since), times) != Promoted
      {
        NoRampIsTrapped(steps, since, times);
      }
    }
  }

  /** Steps that do not increase, such as 25 then 10 then 50, circle for ever: what admission excludes. */
  lemma {:induction false} DippingStepsNeverPromote(pause: Duration, since: Time, times: seq<Time>)
    ensures var steps := [RolloutStep(25, pause), RolloutStep(10, pause), RolloutStep(50, pause)];
            && !Webhook.IncreasingSteps(steps)
            && Run(steps, Rolling(None, since), times) != Promoted
  {
    var steps := [RolloutStep(25, pause), RolloutStep(10, pause), RolloutStep(50, pause)];
    assert steps[0].rampPercentage > steps[1].rampPercentage;
    assert EndsStage(steps, 1) && !TopsItsPrefix(steps, 1);
    NoRampIsTrapped(steps, since, times);
  }
}
