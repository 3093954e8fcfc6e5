/** Any number of reconciles route through one server, with people, the server itself, crashes and the
    clock in between. Every write carries a token; the server refuses one that is not its latest. */
module RoutingProtocol {
  import opened Api
  import opened Kubernetes
  import opened Rollout
  import opened StateMapper
  import opened Planner
  import opened Gate
  import opened Controller
  import T = Temporal

  /** What a plan is made from besides the description and the flag. */
  datatype Grounds = Grounds(view: View, context: T.Context, answer: VersionAnswer, lookup: Lookup, cfg: Config,
      s: Status, now: Time)

  /** Where a reconcile stands: it has described the deployment (None: not found), read the ignore flag,
      decided on a change, made it. */
  datatype Phase =
    | Described(found: Option<T.Description>)
    | FlagRead(found: Option<T.Description>, ignore: bool)
    | Decided(found: Option<T.Description>, ignore: bool, grounds: Grounds, change: RoutingChange)
    | Committed(found: Option<T.Description>, ignore: bool, unflag: seq<BuildID>)

  /** issued is the last conflict token given out. */
  datatype World = World(clock: Time, server: Option<T.Description>, issued: nat, flags: set<BuildID>, phases: map<nat,
      Phase>)

  datatype Event =
    | Describe(c: nat, found: bool)
    | ReadFlag(c: nat, flag: BuildID -> T.FlagAnswer)
    | Decide(c: nat, grounds: Grounds)
    | Commit(c: nat)
    | Unflag(c: nat)
    | Stop(c: nat)
    | Write(who: string)
    | Register(who: string)
    | Unregister
    | Summarize(summaries: seq<T.VersionSummary>)
    | SetFlags(flags: set<BuildID>)
    | Tick

  // The server

  predicate SameRamp(r: T.RoutingConfig, r': T.RoutingConfig) {
    r.ramping == r'.ramping && r.rampPercentage == r'.rampPercentage
  }

  /** Any write takes the next token and is signed, and a change of the ramp is stamped with the time. */
  ghost predicate Written(w: World, w': World, who: string) {
    && w'.issued == w.issued + 1
    && w'.server.Some?
    && var d' := w'.server.value;
       && d'.conflictToken == w'.issued
       && d'.lastModifierIdentity == who
       && (d'.routing.percentageChangedTime == w.clock
           || (w.server.Some? && SameRamp(w.server.value.routing, d'.routing)
               && d'.routing.percentageChangedTime == w.server.value.routing.percentageChangedTime))
  }

  /** SetCurrentVersion and SetRampingVersion. */
  function Applied(r: T.RoutingConfig, change: RoutingChange, deploymentName: string, clock: Time): T.RoutingConfig {
    var v := Some(T.WorkerVersion(deploymentName, change.buildID));
    var ramped :=
      if change.setCurrent then
        if r.ramping == v then r.(current := v, ramping := None, rampPercentage := 0.0) else r.(current := v)
      else if change.buildID == "" then r.(ramping := None, rampPercentage := 0.0)
      else r.(ramping := v, rampPercentage := change.rampPercentage as real);
    if SameRamp(r, ramped) then ramped else ramped.(percentageChangedTime := clock)
  }

  ghost predicate Accepts(d: T.Description, change: RoutingChange) {
    change.conflictToken.None? || change.conflictToken.value == d.conflictToken
  }

  // The controllers

  /** A look-up of the flag answers truly or fails. */
  ghost predicate Truthful(flag: BuildID -> T.FlagAnswer, flags: set<BuildID>) {
    forall b :: flag(b).FlagFailed? || (b in flags <==> flag(b) == T.FlagValue("true"))
  }

  /** The second look-up of the same flag may come later than the first; the flag counts as read when
      its answer decides. */
  function Ignores(found: Option<T.Description>, flag: BuildID -> T.FlagAnswer, me: string): Result<bool,
                   T.ObserveError> {
    if found.None? then Ok(false) else T.IgnoreLastModifier(found.value, flag, me)
  }

  /** The observed state a plan is made from, the gate workflows filed. */
  function Seen(found: Option<T.Description>, ignore: bool, g: Grounds): T.TemporalState {
    WithGate(if found.None? then T.NOTHING_OBSERVED else T.ObservedState(found.value, ignore, g.context), g.cfg.target,
        g.answer, g.lookup)
  }

  ghost predicate Grounded(found: Option<T.Description>, ignore: bool, g: Grounds, me: string) {
    && g.cfg.identity == me && g.cfg.target != ""
    && g.context.target == g.cfg.target && g.context.strategy == g.cfg.strategy.strategy
    && (found.Some? ==> g.context.routing == found.value.routing)
    && IsRead(g.s, g.view, Seen(found, ignore, g), g.cfg.target)
    && TargetEntryPresent(g.s, Seen(found, ignore, g))
  }

  ghost function Change(found: Option<T.Description>, ignore: bool, g: Grounds): Option<RoutingChange>
    requires TargetEntryPresent(g.s, Seen(found, ignore, g))
  {
    var ts := Seen(found, ignore, g);
    VersionDiff(g.s, ts, EffectiveStrategy(g.cfg.strategy, g.s.lastModifierIdentity, ts.ignoreLastModifier,
        g.cfg.identity), g.now)
  }

  // Steps

  ghost predicate DecideStep(w: World, w': World, c: nat, g: Grounds, me: string) {
    && c in w.phases && w.phases[c].FlagRead?
    && var (found, ignore) := (w.phases[c].found, w.phases[c].ignore);
       && Grounded(found, ignore, g, me) && g.now == w.clock
       && var change := Change(found, ignore, g);
          && change.Some?
          && w' == w.(phases := w.phases[c := Decided(found, ignore, g, change.value)])
  }

  ghost predicate CommitStep(w: World, w': World, c: nat, me: string) {
    && c in w.phases && w.phases[c].Decided? && w.server.Some?
    && var p := w.phases[c];
       var unflag := FlagsToRemove(Seen(p.found, p.ignore, p.grounds), true);
       && Accepts(w.server.value, p.change)
       && Written(w, w', me)
       && w'.server.value.routing == Applied(w.server.value.routing, p.change, p.grounds.cfg.deploymentName, w.clock)
       && w' == w.(server := w'.server, issued := w'.issued,
            phases := w.phases[c := Committed(p.found, p.ignore, unflag)])
  }

  ghost predicate UnflagStep(w: World, w': World, c: nat) {
    && c in w.phases && w.phases[c].Committed? && w.phases[c].unflag != []
    && var p := w.phases[c];
       w' == w.(flags := w.flags - {p.unflag[0]}, phases := w.phases[c := p.(unflag := p.unflag[1..])])
  }

  /** A reconcile may begin, and may stop, at any moment. A refused or failed call stops it. */
  ghost predicate Step(w: World, w': World, e: Event, me: string) {
    match e
    case Describe(c, found) => w' == w.(phases := w.phases[c := Described(if found then w.server else None)])
    case ReadFlag(c, flag) =>
      && c in w.phases && w.phases[c].Described? && Truthful(flag, w.flags)
      && var ignore := Ignores(w.phases[c].found, flag, me);
         && ignore.Ok?
         && w' == w.(phases := w.phases[c := FlagRead(w.phases[c].found, ignore.value)])
    case Decide(c, g) => DecideStep(w, w', c, g, me)
    case Commit(c) => CommitStep(w, w', c, me)
    case Unflag(c) => UnflagStep(w, w', c)
    case Stop(c) => w' == w.(phases := w.phases - {c})
    case Write(who) => w.server.Some? && Written(w, w', who) && w' == w.(server := w'.server, issued := w'.issued)
    case Register(who) =>
      && w.server.None? && Written(w, w', who) && w'.server.value.routing.ramping.None?
      && w' == w.(server := w'.server, issued := w'.issued)
    case Unregister => w' == w.(server := None)
    case Summarize(summaries) => w.server.Some? && w' == w.(server := Some(w.server.value.(summaries := summaries)))
    case SetFlags(flags) => w' == w.(flags := flags)
    case Tick => w'.clock > w.clock && w' == w.(clock := w'.clock)
  }

  ghost predicate IsRun(run: seq<World>, events: seq<Event>, me: string) {
    && |run| == |events| + 1
    && run[0].phases == map[] && ServerSane(run[0])
    && forall i :: 0 <= i < |events| ==> Step(run[i], run[i + 1], events[i], me)
  }

  // What every step keeps

  ghost predicate ServerSane(w: World) {
    w.server.Some? ==>
      w.server.value.conflictToken <= w.issued && w.server.value.routing.percentageChangedTime <= w.clock
  }

  /** While the server's token is that of an earlier description, so are its routing and its signature. */
  ghost predicate Dated(d: T.Description, w: World) {
    && d.conflictToken <= w.issued
    && (w.server.Some? && w.server.value.conflictToken == d.conflictToken ==>
          w.server.value.routing == d.routing && w.server.value.lastModifierIdentity == d.lastModifierIdentity)
  }

  ghost predicate Justified(p: Phase, w: World, me: string)
    requires p.Decided?
  {
    && Grounded(p.found, p.ignore, p.grounds, me) && p.grounds.now <= w.clock
    && Change(p.found, p.ignore, p.grounds) == Some(p.change)
  }

  ghost predicate PhaseSane(p: Phase, w: World, me: string) {
    && (p.found.Some? ==> Dated(p.found.value, w))
    && (p.Decided? ==> Justified(p, w, me))
    && (p.Committed? && p.unflag != [] ==> p.ignore)
  }

  ghost predicate Sane(w: World, me: string) {
    ServerSane(w) && forall c :: c in w.phases ==> PhaseSane(w.phases[c], w, me)
  }

  lemma {:induction false} DatedStaysDated(d: T.Description, w: World, w': World, e: Event, me: string)
    requires Step(w, w', e, me) && ServerSane(w) && Dated(d, w)
    ensures Dated(d, w') && w'.clock >= w.clock
  {
  }

  lemma {:induction false} ServerStaysSane(w: World, w': World, e: Event, me: string)
    requires Step(w, w', e, me) && ServerSane(w)
    ensures ServerSane(w')
  {
  }

  /** The event moves, begins or ends c's reconcile. */
  ghost predicate Concerns(e: Event, c: nat) {
    match e
    case Describe(b, _) => b == c
    case ReadFlag(b, _) => b == c
    case Decide(b, _) => b == c
    case Commit(b) => b == c
    case Unflag(b) => b == c
    case Stop(b) => b == c
    case _ => false
  }

  lemma {:induction false} OthersKeepTheirPhase(w: World, w': World, e: Event, me: string, c: nat)
    requires Step(w, w', e, me) && !Concerns(e, c)
    ensures c in w'.phases <==> c in w.phases
    ensures c in w.phases ==> w'.phases[c] == w.phases[c]
  {
  }

  lemma {:induction false} MovesStaySane(w: World, w': World, e: Event, me: string, c: nat)
    requires Step(w, w', e, me) && Sane(w, me) && Concerns(e, c) && c in w'.phases
    ensures PhaseSane(w'.phases[c], w', me)
  {
    var p' := w'.phases[c];
    if e.Describe? {
      assert p'.found.Some? ==> Dated(p'.found.value, w');
    } else {
      assert PhaseSane(w.phases[c], w, me);
      if p'.found.Some? {
        DatedStaysDated(p'.found.value, w, w', e, me);
      }
    }
  }

  lemma {:induction false} StepKeepsSane(w: World, w': World, e: Event, me: string)
    requires Step(w, w', e, me) && Sane(w, me)
    ensures Sane(w', me)
  {
    ServerStaysSane(w, w', e, me);
    forall c | c in w'.phases
      ensures PhaseSane(w'.phases[c], w', me)
    {
      if Concerns(e, c) {
        MovesStaySane(w, w', e, me, c);
      } else {
        OthersKeepTheirPhase(w, w', e, me, c);
        assert PhaseSane(w.phases[c], w, me);
        if w.phases[c].found.Some? {
          DatedStaysDated(w.phases[c].found.value, w, w', e, me);
        }
      }
    }
  }

  lemma {:induction false} RunsStaySane(run: seq<World>, events: seq<Event>, me: string, k: nat)
    requires IsRun(run, events, me) && k < |run|
    ensures Sane(run[k], me)
  {
    if k > 0 {
      RunsStaySane(run, events, me, k - 1);
      StepKeepsSane(run[k - 1], run[k], events[k - 1], me);
    }
  }

  // Ownership

  /** A change is decided on only over a description that was found, carries its token, and needs the
      last writer to leave the routing to the controller. */
  lemma {:induction false} ChangeNeedsOwnership(found: Option<T.Description>, ignore: bool, g: Grounds, me: string)
    requires Grounded(found, ignore, g, me) && Change(found, ignore, g).Some?
    ensures found.Some?
    ensures Change(found, ignore, g).value.conflictToken == Some(found.value.conflictToken)
    ensures MayRoute(found.value.lastModifierIdentity, ignore, me)
  {
    StatusShowsServer(found, ignore, g, me);
    var ts := Seen(found, ignore, g);
    ChangeCarriesToken(g.s, ts, EffectiveStrategy(g.cfg.strategy, g.s.lastModifierIdentity, ts.ignoreLastModifier,
        g.cfg.identity), g.now);
  }

  lemma {:induction false} StatusShowsServer(found: Option<T.Description>, ignore: bool, g: Grounds, me: string)
    requires Grounded(found, ignore, g, me)
    ensures found.None? ==> g.s.target.status == NotRegistered
    ensures found.Some? ==>
              && g.s.conflictToken == Some(found.value.conflictToken)
              && g.s.lastModifierIdentity == found.value.lastModifierIdentity
              && Seen(found, ignore, g).ignoreLastModifier == ignore
  {
  }

  /** Where c stands after an event that does not begin a reconcile of its own comes from where it stood. */
  lemma {:induction false} PhaseComesFrom(w: World, w': World, e: Event, me: string, c: nat)
    requires Step(w, w', e, me) && c in w'.phases && !(e.Describe? && e.c == c)
    ensures c in w.phases && w.phases[c].found == w'.phases[c].found
    ensures !w'.phases[c].Described? && !(e.ReadFlag? && e.c == c)
            ==> !w.phases[c].Described? && w.phases[c].ignore == w'.phases[c].ignore
    ensures w'.phases[c].Committed? && e != Commit(c) ==>
              w.phases[c].Committed? && (w'.phases[c].unflag != [] ==> w.phases[c].unflag != [])
  {
    if !Concerns(e, c) {
      OthersKeepTheirPhase(w, w', e, me, c);
    }
  }

  /** Event k is c's routing change taking effect. */
  ghost predicate Commits(run: seq<World>, events: seq<Event>, c: nat, k: nat)
    requires |run| == |events| + 1
  {
    && k < |events| && events[k] == Commit(c)
    && c in run[k].phases && run[k].phases[c].Decided? && run[k].server.Some?
  }

  /** c's reconcile at k began with the description at j. */
  ghost predicate BeganAt(events: seq<Event>, c: nat, j: nat, k: nat) {
    && j < k <= |events| && events[j].Describe? && events[j].c == c
    && forall i :: j < i < k && events[i].Describe? ==> events[i].c != c
  }

  lemma {:induction false} ReconcileBegan(run: seq<World>, events: seq<Event>, me: string, c: nat, k: nat)
    returns (j: nat)
    requires IsRun(run, events, me) && k < |run| && c in run[k].phases
    ensures BeganAt(events, c, j, k)
    ensures run[k].phases[c].found.Some? ==> run[k].phases[c].found == run[j].server
  {
    assert k > 0;
    assert Step(run[k - 1], run[k], events[k - 1], me);
    if events[k - 1].Describe? && events[k - 1].c == c {
      j := k - 1;
    } else {
      PhaseComesFrom(run[k - 1], run[k], events[k - 1], me, c);
      j := ReconcileBegan(run, events, me, c, k - 1);
    }
  }

  /** The reconcile that began at j read the flag at i, and the flag was then set on the current version
      of the routing config it had described. */
  ghost predicate FlagSeenAt(run: seq<World>, events: seq<Event>, c: nat, d: T.Description, j: nat, i: nat, k: nat)
    requires |run| == |events| + 1
  {
    && j < i < k <= |events| && events[i].ReadFlag? && events[i].c == c
    && d.routing.current.Some? && d.routing.current.value.buildID in run[i].flags
  }

  lemma {:induction false} FlagWasRead(run: seq<World>, events: seq<Event>, me: string, c: nat, j: nat, k: nat)
    returns (i: nat)
    requires IsRun(run, events, me) && k < |run| && c in run[k].phases && BeganAt(events, c, j, k)
    requires !run[k].phases[c].Described? && run[k].phases[c].ignore
    ensures run[k].phases[c].found.Some?
    ensures FlagSeenAt(run, events, c, run[k].phases[c].found.value, j, i, k)
  {
    var e := events[k - 1];
    assert Step(run[k - 1], run[k], e, me);
    assert !(e.Describe? && e.c == c);
    if e.ReadFlag? && e.c == c {
      i := k - 1;
    } else {
      PhaseComesFrom(run[k - 1], run[k], e, me, c);
      assert j < k - 1;
      i := FlagWasRead(run, events, me, c, j, k - 1);
    }
  }

  /** Whoever may have interfered, a routing change of the controller takes effect only over a routing
      config that its own reconcile described (at j), whose token it carries, and which is then still as
      described: last written by the controller, by the server making room or by nobody, or flagged to
      be ignored when this same reconcile looked. */
  lemma {:induction false} CommitsOnlyOverWhatItMayRoute(run: seq<World>, events: seq<Event>, me: string, c: nat,
                                                         k: nat)
    requires IsRun(run, events, me) && k < |events| && events[k] == Commit(c)
    ensures Commits(run, events, c, k)
    ensures var d, p := run[k].server.value, run[k].phases[c];
            && p.change.conflictToken == Some(d.conflictToken)
            && (exists j: nat :: BeganAt(events, c, j, k) && run[j].server == p.found && p.found.Some?
                            && p.found.value.routing == d.routing && p.found.value.conflictToken == d.conflictToken
                            && (d.lastModifierIdentity in {me, SERVER_DELETE_IDENTITY, ""}
                                || exists i: nat :: FlagSeenAt(run, events, c, d, j, i, k)))
  {
    assert Step(run[k], run[k + 1], events[k], me);
    var d, p := run[k].server.value, run[k].phases[c];
    RunsStaySane(run, events, me, k);
    assert PhaseSane(p, run[k], me);
    ChangeNeedsOwnership(p.found, p.ignore, p.grounds, me);
    assert Dated(p.found.value, run[k]);
    var j := ReconcileBegan(run, events, me, c, k);
    if p.ignore {
      var i := FlagWasRead(run, events, me, c, j, k);
      assert FlagSeenAt(run, events, c, d, j, i, k);
    }
  }

  /** No change is even decided on when the deployment was not found. */
  lemma {:induction false} NothingDecidedUnfound(run: seq<World>, events: seq<Event>, me: string, c: nat, k: nat)
    requires IsRun(run, events, me) && k < |run| && c in run[k].phases && run[k].phases[c].Decided?
    ensures run[k].phases[c].found.Some?
    ensures run[k].phases[c].change.conflictToken == Some(run[k].phases[c].found.value.conflictToken)
  {
    RunsStaySane(run, events, me, k);
    var p := run[k].phases[c];
    assert PhaseSane(p, run[k], me);
    ChangeNeedsOwnership(p.found, p.ignore, p.grounds, me);
  }

  lemma {:induction false} TokensGrow(run: seq<World>, events: seq<Event>, me: string, j: nat, k: nat)
    requires IsRun(run, events, me) && j < k < |run| && events[j].Commit?
    ensures run[k].issued > run[j].issued
    ensures run[k].server.Some? ==> run[k].server.value.conflictToken > run[j].issued
  {
    assert Step(run[k - 1], run[k], events[k - 1], me);
    if j < k - 1 {
      TokensGrow(run, events, me, j, k - 1);
    }
  }

  /** Of all the changes decided on over one observation, by however many controllers, one at most
      takes effect. */
  lemma {:induction false} OneCommitPerToken(run: seq<World>, events: seq<Event>, me: string, b: nat, j: nat, c: nat,
                                             k: nat)
    requires IsRun(run, events, me) && j < k && Commits(run, events, b, j) && Commits(run, events, c, k)
    ensures run[j].phases[b].change.conflictToken != run[k].phases[c].change.conflictToken
  {
    CommitsOnlyOverWhatItMayRoute(run, events, me, b, j);
    CommitsOnlyOverWhatItMayRoute(run, events, me, c, k);
    RunsStaySane(run, events, me, j);
    TokensGrow(run, events, me, j, k);
  }

  /** c has begun no other reconcile after event j and before k. */
  ghost predicate NoneBegun(events: seq<Event>, c: nat, j: nat, k: nat) {
    k <= |events| && forall i :: j < i < k && events[i].Describe? ==> events[i].c != c
  }

  lemma {:induction false} CommitHappens(run: seq<World>, events: seq<Event>, me: string, c: nat, j: nat)
    requires IsRun(run, events, me) && j < |events| && events[j] == Commit(c)
    ensures Commits(run, events, c, j) && CommitStep(run[j], run[j + 1], c, me)
  {
    assert Step(run[j], run[j + 1], events[j], me);
  }

  lemma {:induction false} OnlyIgnorersUnflag(w: World, w': World, c: nat, me: string)
    requires CommitStep(w, w', c, me) && w'.phases[c].unflag != []
    ensures w.phases[c].ignore
  {
  }

  lemma {:induction false} NobodyAtFirst(run: seq<World>, events: seq<Event>, me: string)
    requires IsRun(run, events, me)
    ensures run[0].phases == map[]
  {
  }

  lemma {:induction false} CommitUsedFlag(run: seq<World>, events: seq<Event>, me: string, c: nat, j: nat)
    requires IsRun(run, events, me) && j < |events| && events[j] == Commit(c)
    requires c in run[j + 1].phases && run[j + 1].phases[c].Committed? && run[j + 1].phases[c].unflag != []
    ensures Commits(run, events, c, j) && run[j].phases[c].ignore
  {
    CommitHappens(run, events, me, c, j);
    OnlyIgnorersUnflag(run[j], run[j + 1], c, me);
  }

  /** An ignore flag is removed only by a reconcile that has used it: it read the flag, and its routing
      change has taken effect. */
  lemma {:induction false} FlagsGoOnlyAfterTheirUse(run: seq<World>, events: seq<Event>, me: string, c: nat, k: nat)
    returns (j: nat)
    requires IsRun(run, events, me) && k < |run| && c in run[k].phases
    requires run[k].phases[c].Committed? && run[k].phases[c].unflag != []
    ensures j < k && Commits(run, events, c, j) && run[j].phases[c].ignore && NoneBegun(events, c, j, k)
  {
    NobodyAtFirst(run, events, me);
    assert k > 0;
    j := k - 1;
    if events[j] == Commit(c) {
      CommitUsedFlag(run, events, me, c, j);
    } else {
      WasCommitted(run, events, me, c, j);
      j := FlagsGoOnlyAfterTheirUse(run, events, me, c, j);
      StillNoneBegun(events, c, j, k - 1);
    }
  }

  lemma {:induction false} StillNoneBegun(events: seq<Event>, c: nat, j: nat, k: nat)
    requires k < |events| && NoneBegun(events, c, j, k) && !(events[k].Describe? && events[k].c == c)
    ensures NoneBegun(events, c, j, k + 1)
  {
  }

  lemma {:induction false} WasCommitted(run: seq<World>, events: seq<Event>, me: string, c: nat, k: nat)
    requires IsRun(run, events, me) && k < |events| && events[k] != Commit(c)
    requires c in run[k + 1].phases && run[k + 1].phases[c].Committed? && run[k + 1].phases[c].unflag != []
    ensures c in run[k].phases && run[k].phases[c].Committed? && run[k].phases[c].unflag != []
    ensures !(events[k].Describe? && events[k].c == c)
  {
    assert Step(run[k], run[k + 1], events[k], me);
    PhaseComesFrom(run[k], run[k + 1], events[k], me, c);
  }

  // What becomes of a flag

  /** Event i takes the flag off b. */
  ghost predicate Clears(run: seq<World>, events: seq<Event>, i: nat, b: BuildID)
    requires |run| == |events| + 1 && i < |events|
  {
    match events[i]
    case SetFlags(flags) => b !in flags
    case Unflag(c) => c in run[i].phases && run[i].phases[c].Committed? && run[i].phases[c].unflag != []
      && run[i].phases[c].unflag[0] == b
    case _ => false
  }

  /** A flag that is set stays set exactly as long as no removal takes it off and nobody else does. In
      particular it outlives the reconcile that used it. */
  lemma {:induction false} FlagStaysIff(run: seq<World>, events: seq<Event>, me: string, b: BuildID, j: nat, k: nat)
    requires IsRun(run, events, me) && j <= k < |run| && b in run[j].flags
    ensures (forall i :: j <= i <= k ==> b in run[i].flags) <==> (forall i :: j <= i < k ==> !Clears(run, events, i, b))
  {
    if j < k {
      FlagStaysIff(run, events, me, b, j, k - 1);
      if b in run[k - 1].flags {
        StepClearsIff(run, events, me, b, k - 1);
      }
    }
  }

  lemma {:induction false} StepClearsIff(run: seq<World>, events: seq<Event>, me: string, b: BuildID, i: nat)
    requires IsRun(run, events, me) && i < |events| && b in run[i].flags
    ensures b in run[i + 1].flags <==> !Clears(run, events, i, b)
  {
    assert Step(run[i], run[i + 1], events[i], me);
  }

  /** A routing change made on the strength of a flag lists the flagged version for removal. */
  lemma {:induction false} CommitListsItsFlag(run: seq<World>, events: seq<Event>, me: string, c: nat, j: nat)
    requires IsRun(run, events, me) && Commits(run, events, c, j) && run[j].phases[c].ignore
    ensures run[j].phases[c].found.Some? && run[j].phases[c].found.value.routing.current.Some?
    ensures c in run[j + 1].phases && run[j + 1].phases[c].Committed?
    ensures var b := run[j].phases[c].found.value.routing.current.value.buildID;
            b != "" ==> b in run[j + 1].phases[c].unflag
  {
    assert Step(run[j], run[j + 1], events[j], me);
    var began := ReconcileBegan(run, events, me, c, j);
    var i := FlagWasRead(run, events, me, c, began, j);
    var p := run[j].phases[c];
    assert T.BuildIDOf(p.found.value.routing.current) == Seen(p.found, p.ignore, p.grounds).currentBuildID;
  }

  /** What c listed and lists no longer it has taken off in between. */
  lemma {:induction false} ListedIsCleared(run: seq<World>, events: seq<Event>, me: string, c: nat, b: BuildID, j: nat,
                                           k: nat) returns (i: nat)
    requires IsRun(run, events, me) && j < k < |run|
    requires c in run[j].phases && run[j].phases[c].Committed? && b in run[j].phases[c].unflag
    requires c in run[k].phases && run[k].phases[c].Committed? && b !in run[k].phases[c].unflag
    requires forall m :: j <= m < k && events[m].Describe? ==> events[m].c != c
    ensures j <= i < k && events[i] == Unflag(c) && Clears(run, events, i, b)
    decreases k - j
  {
    assert Step(run[j], run[j + 1], events[j], me);
    if !Concerns(events[j], c) {
      OthersKeepTheirPhase(run[j], run[j + 1], events[j], me, c);
    }
    if Clears(run, events, j, b) && events[j] == Unflag(c) {
      i := j;
    } else {
      StaysListed(run[j], run[j + 1], events[j], me, c, b);
      if events[j] == Stop(c) {
        var _ := StoppedBeginsAgain(run, events, me, c, j + 1, k);
        assert false;
      } else {
        i := ListedIsCleared(run, events, me, c, b, j + 1, k);
      }
    }
  }

  lemma {:induction false} StaysListed(w: World, w': World, e: Event, me: string, c: nat, b: BuildID)
    requires Step(w, w', e, me) && c in w.phases && w.phases[c].Committed? && b in w.phases[c].unflag
    requires !(e.Describe? && e.c == c) && !(e == Unflag(c) && w.phases[c].unflag[0] == b)
    ensures e == Stop(c) || (c in w'.phases && w'.phases[c].Committed? && b in w'.phases[c].unflag)
  {
    if !Concerns(e, c) {
      OthersKeepTheirPhase(w, w', e, me, c);
    }
  }

  /** A reconcile that has stopped is at work again only after another Describe. */
  lemma {:induction false} StoppedBeginsAgain(run: seq<World>, events: seq<Event>, me: string, c: nat, j: nat, k: nat)
    returns (m: nat)
    requires IsRun(run, events, me) && j <= k < |run| && c !in run[j].phases && c in run[k].phases
    ensures j <= m < k && events[m].Describe? && events[m].c == c
  {
    assert Step(run[k - 1], run[k], events[k - 1], me);
    if events[k - 1].Describe? && events[k - 1].c == c {
      m := k - 1;
    } else {
      PhaseComesFrom(run[k - 1], run[k], events[k - 1], me, c);
      m := StoppedBeginsAgain(run, events, me, c, j, k - 1);
    }
  }

  /** A flag covers more than the edit it was set for. Whatever anybody writes, a reconcile that finds b
      current and looks for the flag at k may override it exactly if the flag is set then; and one set at
      i is, unless an event since took it off. */
  lemma {:induction false} SetFlagCoversAnyEdit(run: seq<World>, events: seq<Event>, me: string, a: nat, b: BuildID,
                                                i: nat, k: nat)
    requires IsRun(run, events, me) && i <= k < |events| && b in run[i].flags
    requires events[k].ReadFlag? && events[k].c == a && !events[k].flag(b).FlagFailed?
    requires a in run[k].phases && a in run[k + 1].phases && run[k].phases[a].found.Some?
    requires var d := run[k].phases[a].found.value;
             T.BuildIDOf(d.routing.current) == b && d.routing.current.Some?
               && d.lastModifierIdentity !in {me, SERVER_DELETE_IDENTITY, ""}
    ensures var d := run[k].phases[a].found.value;
            && run[k + 1].phases[a].FlagRead?
            && (MayRoute(d.lastModifierIdentity, run[k + 1].phases[a].ignore, me) <==> b in run[k].flags)
            && ((forall m :: i <= m < k ==> !Clears(run, events, m, b)) ==> b in run[k].flags)
  {
    assert Step(run[k], run[k + 1], events[k], me);
    FlagStaysIff(run, events, me, b, i, k);
  }

  // A run in which a flag outlives its use

  const RUNNING := T.WorkerVersion("d", "a")
  const TARGET := T.WorkerVersion("d", "b")

  function RoutedTo(v: T.WorkerVersion): T.RoutingConfig {
    T.RoutingConfig(Some(v), None, 0.0, 0, 0)
  }

  function DescribedAs(v: T.WorkerVersion, who: string, token: nat): T.Description {
    T.Description(RoutedTo(v), [T.VersionSummary(RUNNING, T.Drainage.Unspecified),
        T.VersionSummary(TARGET, T.Drainage.Unspecified)], who, token)
  }

  function FlagOnRunning(b: BuildID): T.FlagAnswer {
    if b == "a" then T.FlagValue("true") else T.FlagAbsent
  }

  /** The configuration: all at once to version b, no gate. */
  predicate AllAtOnceToTarget(cfg: Config) {
    && cfg.identity == "controller" && cfg.target == "b" && cfg.deploymentName == "d"
    && cfg.strategy.strategy == AllAtOnce && cfg.strategy.gate.None?
  }

  /** What a reconcile plans from that finds a current, last written by a person, and the flag set. */
  function GroundsAt(token: nat, cfg: Config, answers: T.Answers): Grounds {
    var view := map["b" := DeploymentView(ObjectReference("b", 1), Some(0), Some(1))];
    var context := T.Context(RoutedTo(RUNNING), answers, map[], "b", AllAtOnce);
    var lookup: Lookup := _ => WorkflowNotFound;
    var ts := WithGate(T.ObservedState(DescribedAs(RUNNING, "person", token), true, context), "b", VersionNotFound,
        lookup);
    var s := Status(MapCurrent("a", view, Coarse(ts)), MapTargetWithRamp("b", view, Coarse(ts)), [], Some(token),
        "person", |ts.versions|);
    Grounds(view, context, VersionNotFound, lookup, cfg, s, 0)
  }

  function WorldAt(v: T.WorkerVersion, who: string, token: nat, phases: map<nat, Phase>): World {
    World(0, Some(DescribedAs(v, who, token)), token, {"a"}, phases)
  }

  function SeenAt(token: nat, cfg: Config, answers: T.Answers): T.TemporalState {
    Seen(Some(DescribedAs(RUNNING, "person", token)), true, GroundsAt(token, cfg, answers))
  }

  lemma {:induction false} TargetIsInactive(token: nat, cfg: Config, answers: T.Answers)
    requires AllAtOnceToTarget(cfg)
    ensures StatusIn("b", SeenAt(token, cfg, answers)) == Inactive
  {
    var d, g := DescribedAs(RUNNING, "person", token), GroundsAt(token, cfg, answers);
    TargetSummaryStands(d, g.context);
  }

  lemma {:induction false} TargetSummaryStands(d: T.Description, c: T.Context)
    requires d.summaries == [T.VersionSummary(RUNNING, T.Drainage.Unspecified),
               T.VersionSummary(TARGET, T.Drainage.Unspecified)]
    requires c.routing == RoutedTo(RUNNING)
    ensures "b" in T.VersionsOf(d.summaries, c) && T.VersionsOf(d.summaries, c)["b"].status == Inactive
  {
    assert "a"[0] != "b"[0];
    T.EachSummaryStands(d.summaries, c, 1);
  }

  lemma {:induction false} EpisodeIsSeen(token: nat, cfg: Config, answers: T.Answers)
    requires AllAtOnceToTarget(cfg)
    ensures var ts := SeenAt(token, cfg, answers);
            && ts.currentBuildID == "a" && ts.rampingBuildID == "" && ts.ignoreLastModifier
            && ts.conflictToken == Some(token) && ts.lastModifierIdentity == "person"
            && FlagsToRemove(ts, true) == ["a"]
  {
  }

  lemma {:induction false} OneDeploymentIsMapped(view: View, ts: T.TemporalState, target: BuildID)
    requires view.Keys == {target} && target != ""
    ensures IsRead(Status(MapCurrent(ts.currentBuildID, view, Coarse(ts)), MapTargetWithRamp(target, view, Coarse(ts)),
              [],
                          ts.conflictToken, ts.lastModifierIdentity, |ts.versions|), view, ts, target)
  {
    CoarseKeepsCount(ts);
  }

  lemma {:induction false} EpisodeIsRead(token: nat, cfg: Config, answers: T.Answers)
    requires AllAtOnceToTarget(cfg)
    ensures Grounded(Some(DescribedAs(RUNNING, "person", token)), true, GroundsAt(token, cfg, answers), "controller")
  {
    var g := GroundsAt(token, cfg, answers);
    EpisodeIsSeen(token, cfg, answers);
    OneDeploymentIsMapped(g.view, SeenAt(token, cfg, answers), "b");
  }

  lemma {:induction false} EpisodeChanges(token: nat, cfg: Config, answers: T.Answers)
    requires AllAtOnceToTarget(cfg)
    requires Grounded(Some(DescribedAs(RUNNING, "person", token)), true, GroundsAt(token, cfg, answers), "controller")
    ensures Change(Some(DescribedAs(RUNNING, "person", token)), true, GroundsAt(token, cfg, answers))
            == Some(RoutingChange(Some(token), "b", true, 0))
  {
    var s := GroundsAt(token, cfg, answers).s;
    TargetIsInactive(token, cfg, answers);
    EpisodeIsSeen(token, cfg, answers);
    assert "a"[0] != "b"[0];
    assert s.target.status == Inactive && s.target.healthySince == Some(0);
  }

  /** Grounds for a change to the target over the person's routing config with the given token. */
  ghost predicate Suffices(g: Grounds, token: nat) {
    var found := Some(DescribedAs(RUNNING, "person", token));
    && g.now == 0 && g.cfg.deploymentName == "d"
    && Grounded(found, true, g, "controller")
    && Change(found, true, g) == Some(RoutingChange(Some(token), "b", true, 0))
    && FlagsToRemove(Seen(found, true, g), true) == ["a"]
  }

  lemma {:induction false} GroundsSuffice(token: nat, cfg: Config, answers: T.Answers)
    requires AllAtOnceToTarget(cfg)
    ensures Suffices(GroundsAt(token, cfg, answers), token)
  {
    EpisodeIsRead(token, cfg, answers);
    EpisodeChanges(token, cfg, answers);
    EpisodeIsSeen(token, cfg, answers);
  }

  function ChangeTo(token: nat): RoutingChange {
    RoutingChange(Some(token), "b", true, 0)
  }

  function PersonsConfig(token: nat): Option<T.Description> {
    Some(DescribedAs(RUNNING, "person", token))
  }

  /** A reconcile over the person's routing config, with its Describe, ReadFlag, Decide and Commit. */
  function Episode(token: nat, g: Grounds): seq<World> {
    [WorldAt(RUNNING, "person", token, map[1 := Described(PersonsConfig(token))]),
     WorldAt(RUNNING, "person", token, map[1 := FlagRead(PersonsConfig(token), true)]),
     WorldAt(RUNNING, "person", token, map[1 := Decided(PersonsConfig(token), true, g, ChangeTo(token))]),
     WorldAt(TARGET, "controller", token + 1, map[1 := Committed(PersonsConfig(token), true, ["a"])])]
  }

  function EpisodeEvents(g: Grounds): seq<Event> {
    [Describe(1, true), ReadFlag(1, FlagOnRunning), Decide(1, g), Commit(1)]
  }

  lemma {:induction false} RunGrows(run: seq<World>, events: seq<Event>, w: World, e: Event, me: string)
    requires IsRun(run, events, me) && Step(run[|run| - 1], w, e, me)
    ensures IsRun(run + [w], events + [e], me)
  {
    var run', events' := run + [w], events + [e];
    forall i | 0 <= i < |events'|
      ensures Step(run'[i], run'[i + 1], events'[i], me)
    {
      if i < |events| {
        assert Step(run[i], run[i + 1], events[i], me);
      }
    }
  }

  lemma {:induction false} EpisodeReads(token: nat, g: Grounds)
    ensures Step(WorldAt(RUNNING, "person", token, map[]), Episode(token, g)[0], EpisodeEvents(g)[0], "controller")
    ensures Step(Episode(token, g)[0], Episode(token, g)[1], EpisodeEvents(g)[1], "controller")
  {
    forall b
      ensures FlagOnRunning(b).FlagFailed? || (b in {"a"} <==> FlagOnRunning(b) == T.FlagValue("true"))
    {
    }
  }

  lemma {:induction false} EpisodeDecides(token: nat, g: Grounds)
    requires Suffices(g, token)
    ensures Step(Episode(token, g)[1], Episode(token, g)[2], EpisodeEvents(g)[2], "controller")
  {
    var p, p' := FlagRead(PersonsConfig(token), true), Decided(PersonsConfig(token), true, g, ChangeTo(token));
    assert map[1 := p][1 := p'] == map[1 := p'];
  }

  lemma {:induction false} EpisodeCommits(token: nat, g: Grounds)
    requires Suffices(g, token)
    ensures Step(Episode(token, g)[2], Episode(token, g)[3], EpisodeEvents(g)[3], "controller")
  {
    var p, p' := Decided(PersonsConfig(token), true, g, ChangeTo(token)), Committed(PersonsConfig(token), true, ["a"]);
    assert Applied(RoutedTo(RUNNING), ChangeTo(token), "d", 0) == RoutedTo(TARGET);
    assert map[1 := p][1 := p'] == map[1 := p'];
  }

  lemma {:induction false} TwoMore(run: seq<World>, events: seq<Event>, ws: seq<World>, es: seq<Event>, me: string)
    requires IsRun(run, events, me) && |ws| == |es| == 2
    requires Step(run[|run| - 1], ws[0], es[0], me) && Step(ws[0], ws[1], es[1], me)
    ensures IsRun(run + ws, events + es, me)
  {
    RunGrows(run, events, ws[0], es[0], me);
    RunGrows(run + [ws[0]], events + [es[0]], ws[1], es[1], me);
    assert run + ws == run + [ws[0]] + [ws[1]] && events + es == events + [es[0]] + [es[1]];
  }

  lemma {:induction false} FourMore(run: seq<World>, events: seq<Event>, ws: seq<World>, es: seq<Event>, me: string)
    requires IsRun(run, events, me) && |ws| == |es| == 4
    requires Step(run[|run| - 1], ws[0], es[0], me) && Step(ws[0], ws[1], es[1], me)
    requires Step(ws[1], ws[2], es[2], me) && Step(ws[2], ws[3], es[3], me)
    ensures IsRun(run + ws, events + es, me)
  {
    TwoMore(run, events, ws[..2], es[..2], me);
    TwoMore(run + ws[..2], events + es[..2], ws[2..], es[2..], me);
    assert run + ws == run + ws[..2] + ws[2..] && events + es == events + es[..2] + es[2..];
  }

  lemma {:induction false} EpisodeFollows(run: seq<World>, events: seq<Event>, token: nat, g: Grounds)
    requires IsRun(run, events, "controller") && run[|run| - 1] == WorldAt(RUNNING, "person", token, map[])
             && Suffices(g, token)
    ensures IsRun(run + Episode(token, g), events + EpisodeEvents(g), "controller")
  {
    EpisodeReads(token, g);
    EpisodeDecides(token, g);
    EpisodeCommits(token, g);
    FourMore(run, events, Episode(token, g), EpisodeEvents(g), "controller");
  }

  /** Between two such reconciles, a stop and a roll-back. */
  function Turn(): seq<World> {
    [WorldAt(TARGET, "controller", 2, map[]), WorldAt(RUNNING, "person", 3, map[])]
  }

  function TurnEvents(): seq<Event> {
    [Stop(1), Write("person")]
  }

  function RollbackRun(first: Grounds, second: Grounds): seq<World> {
    [WorldAt(RUNNING, "person", 1, map[])] + Episode(1, first) + Turn() + Episode(3, second)
  }

  function RollbackEvents(first: Grounds, second: Grounds): seq<Event> {
    EpisodeEvents(first) + TurnEvents() + EpisodeEvents(second)
  }

  lemma {:induction false} TurnFollows(run: seq<World>, events: seq<Event>, g: Grounds)
    requires IsRun(run, events, "controller") && run[|run| - 1] == Episode(1, g)[3]
    ensures IsRun(run + Turn(), events + TurnEvents(), "controller")
  {
    assert Step(Episode(1, g)[3], Turn()[0], TurnEvents()[0], "controller");
    assert Step(Turn()[0], Turn()[1], TurnEvents()[1], "controller");
    TwoMore(run, events, Turn(), TurnEvents(), "controller");
  }

  lemma {:induction false} StartIsARun()
    ensures IsRun([WorldAt(RUNNING, "person", 1, map[])], [], "controller")
  {
  }

  lemma {:induction false} RollbackIsARun(first: Grounds, second: Grounds)
    requires Suffices(first, 1) && Suffices(second, 3)
    ensures IsRun(RollbackRun(first, second), RollbackEvents(first, second), "controller")
  {
    FirstHalfIsARun(first);
    EpisodeFollows([WorldAt(RUNNING, "person", 1, map[])] + Episode(1, first) + Turn(),
                   EpisodeEvents(first) + TurnEvents(), 3, second);
  }

  lemma {:induction false} FirstHalfIsARun(first: Grounds)
    requires Suffices(first, 1)
    ensures IsRun([WorldAt(RUNNING, "person", 1, map[])] + Episode(1, first) + Turn(),
                  EpisodeEvents(first) + TurnEvents(), "controller")
  {
    var start := [WorldAt(RUNNING, "person", 1, map[])];
    StartIsARun();
    EpisodeFollows(start, [], 1, first);
    assert [] + EpisodeEvents(first) == EpisodeEvents(first);
    TurnFollows(start + Episode(1, first), EpisodeEvents(first), first);
  }

  /** A commit of reconcile 1 over the person's routing config, on the strength of the flag. */
  ghost predicate OverridesPerson(run: seq<World>, events: seq<Event>, k: nat)
    requires |run| == |events| + 1
  {
    && Commits(run, events, 1, k) && run[k].phases[1].ignore
    && run[k].server.value.lastModifierIdentity == "person" && run[k].server.value.routing.current == Some(RUNNING)
  }

  lemma {:induction false} RollbackOverrides(first: Grounds, second: Grounds)
    ensures OverridesPerson(RollbackRun(first, second), RollbackEvents(first, second), 3)
    ensures OverridesPerson(RollbackRun(first, second), RollbackEvents(first, second), 9)
  {
    var run, events := RollbackRun(first, second), RollbackEvents(first, second);
    assert run[3] == Episode(1, first)[2] && run[9] == Episode(3, second)[2];
    assert events[3] == Commit(1) && events[9] == Commit(1);
  }

  lemma {:induction false} RollbackSetsNoFlag(first: Grounds, second: Grounds)
    ensures var events := RollbackEvents(first, second);
            && events[4] == Stop(1) && events[5] == Write("person")
            && forall i :: 0 <= i < |events| ==> !events[i].SetFlags? && !events[i].Unflag?
  {
  }

  /** The run: a person has set the flag, the controller makes its change and stops before it has removed
      the flag. The person rolls back. The next reconcile finds the old flag and overrides the rollback,
      with no flag set in between. */
  lemma {:induction false} LeftoverFlagOverridesARollback(cfg: Config, answers: T.Answers)
    requires AllAtOnceToTarget(cfg)
    ensures var first, second := GroundsAt(1, cfg, answers), GroundsAt(3, cfg, answers);
            var run, events := RollbackRun(first, second), RollbackEvents(first, second);
            && IsRun(run, events, "controller")
            && OverridesPerson(run, events, 3) && events[4] == Stop(1) && events[5] == Write("person")
            && OverridesPerson(run, events, 9)
            && forall i :: 0 <= i < |events| ==> !events[i].SetFlags? && !events[i].Unflag?
  {
    var first, second := GroundsAt(1, cfg, answers), GroundsAt(3, cfg, answers);
    GroundsSuffice(1, cfg, answers);
    GroundsSuffice(3, cfg, answers);
    RollbackIsARun(first, second);
    RollbackOverrides(first, second);
    RollbackSetsNoFlag(first, second);
  }

  // Pauses

  /** At every moment of the run up to k later than the last change of the ramp, the ramp was as at k. */
  ghost predicate RampHeld(run: seq<World>, k: nat)
    requires k < |run| && run[k].server.Some?
  {
    var r := run[k].server.value.routing;
    forall j :: 0 <= j <= k && run[j].clock > r.percentageChangedTime ==>
      run[j].server.Some? && SameRamp(run[j].server.value.routing, r)
  }

  lemma {:induction false} StepHoldsRamp(w: World, w': World, e: Event, me: string)
    requires Step(w, w', e, me) && w'.server.Some? && w'.server.value.routing.ramping.Some?
    requires w.clock > w'.server.value.routing.percentageChangedTime
    ensures w.server.Some? && SameRamp(w.server.value.routing, w'.server.value.routing)
    ensures w.server.value.routing.percentageChangedTime == w'.server.value.routing.percentageChangedTime
  {
  }

  lemma {:induction false} ClockRuns(run: seq<World>, events: seq<Event>, me: string, j: nat, k: nat)
    requires IsRun(run, events, me) && j <= k < |run|
    ensures run[j].clock <= run[k].clock
    decreases k - j
  {
    if j < k {
      assert Step(run[j], run[j + 1], events[j], me);
      ClockRuns(run, events, me, j + 1, k);
    }
  }

  lemma {:induction false} RampWasHeld(run: seq<World>, events: seq<Event>, me: string, j: nat, k: nat)
    requires IsRun(run, events, me) && j <= k < |run| && run[k].server.Some?
             && run[k].server.value.routing.ramping.Some?
    requires run[j].clock > run[k].server.value.routing.percentageChangedTime
    ensures run[j].server.Some? && SameRamp(run[j].server.value.routing, run[k].server.value.routing)
    ensures run[j].server.value.routing.percentageChangedTime == run[k].server.value.routing.percentageChangedTime
    decreases k - j
  {
    if j < k {
      ClockRuns(run, events, me, j, j + 1);
      RampWasHeld(run, events, me, j + 1, k);
      StepHoldsRamp(run[j], run[j + 1], events[j], me);
    }
  }

  /** The server has had the ramp at the step's percentage, unchanged, for longer than the step's pause,
      counted from the whole second of the last change. */
  ghost predicate SatOut(step: RolloutStep, target: BuildID, run: seq<World>, k: nat)
    requires k < |run|
  {
    && run[k].server.Some?
    && var r := run[k].server.value.routing;
       && T.BuildIDOf(r.ramping) == target
       && r.rampPercentage == step.rampPercentage as real
       && run[k].clock > WholeSecond(r.percentageChangedTime) + step.pauseDuration
       && RampHeld(run, k)
  }

  /** A planned advance: the target takes over although not fast-tracked, or its ramp rises from at or
      above the first step. */
  ghost predicate Advances(p: Phase) {
    && p.Decided? && p.found.Some? && p.grounds.cfg.strategy.strategy == Progressive
    && var g := p.grounds;
       var steps, ramp := g.cfg.strategy.steps, g.s.target.rampPercentage;
       && TargetEntryPresent(g.s, Seen(p.found, p.ignore, g))
       && (if p.change.setCurrent then !FastTracked(g.s, Seen(p.found, p.ignore, g))
           else
             && steps != [] && ramp.Some? && p.change.buildID != ""
             && steps[0].rampPercentage as real <= ramp.value < p.change.rampPercentage as real)
  }

  /** The step that an advance leaves: the one before the percentage it sets, the last if it promotes. */
  ghost predicate Leaves(i: nat, p: Phase)
    requires p.Decided?
  {
    var steps := p.grounds.cfg.strategy.steps;
    && i < |steps|
    && if p.change.setCurrent then i == |steps| - 1
       else i + 1 < |steps| && p.change.rampPercentage == steps[i + 1].rampPercentage
  }

  lemma {:induction false} AdvanceComesFromDecision(p: Phase, me: string)
    requires Advances(p) && Grounded(p.found, p.ignore, p.grounds, me)
             && Change(p.found, p.ignore, p.grounds) == Some(p.change)
    ensures var t := p.grounds.s.target;
            ProgressiveDecision(p.grounds.cfg.strategy.steps, p.grounds.now, t.rampLastModifiedAt, t.rampPercentage)
            == if p.change.setCurrent then Promote else SetRamp(p.change.rampPercentage)
  {
  }

  lemma {:induction false} TargetRampIsTheServers(p: Phase, me: string)
    requires p.Decided? && p.found.Some? && Grounded(p.found, p.ignore, p.grounds, me)
    requires p.grounds.s.target.rampLastModifiedAt.Some?
    ensures var r := p.found.value.routing;
            && T.BuildIDOf(r.ramping) == p.grounds.cfg.target && r.ramping.Some?
            && p.grounds.s.target.rampPercentage == Some(r.rampPercentage)
            && p.grounds.s.target.rampLastModifiedAt == Some(WholeSecond(r.percentageChangedTime))
  {
  }

  lemma {:induction false} DecisionLeavesAStep(steps: seq<RolloutStep>, now: Time, changed: Option<Time>,
                                               ramp: Option<real>) returns (i: nat)
    requires ProgressiveDecision(steps, now, changed, ramp) == Promote
             || (var d := ProgressiveDecision(steps, now, changed, ramp);
                 d.SetRamp? && ramp.Some? && steps[0].rampPercentage as real <= ramp.value < d.percentage as real)
    ensures i < |steps| && changed.Some? && now > changed.value + steps[i].pauseDuration
            && ramp == Some(steps[i].rampPercentage as real)
    ensures var d := ProgressiveDecision(steps, now, changed, ramp);
            if d.Promote? then i == |steps| - 1 else i + 1 < |steps| && d.percentage == steps[i + 1].rampPercentage
  {
    i := CurrentStep(steps, ramp);
  }

  /** Whatever is done to the ramp from outside and when, a progressive rollout goes from one step to
      the next, and from the last step to promotion, only after the ramp has stood at the step's
      percentage for longer than its pause, without interruption. The pause counts from the whole
      second in which the ramp was changed, the time that the stored status keeps. */
  lemma {:induction false} AdvancesOnlyAfterThePause(run: seq<World>, events: seq<Event>, me: string, c: nat, k: nat)
    returns (i: nat)
    requires IsRun(run, events, me) && Commits(run, events, c, k) && Advances(run[k].phases[c])
    ensures Leaves(i, run[k].phases[c])
    ensures var cfg := run[k].phases[c].grounds.cfg;
            SatOut(cfg.strategy.steps[i], cfg.target, run, k)
  {
    var p := run[k].phases[c];
    assert Step(run[k], run[k + 1], events[k], me);
    RunsStaySane(run, events, me, k);
    assert PhaseSane(p, run[k], me);
    ChangeNeedsOwnership(p.found, p.ignore, p.grounds, me);
    AdvanceComesFromDecision(p, me);
    var t := p.grounds.s.target;
    i := DecisionLeavesAStep(p.grounds.cfg.strategy.steps, p.grounds.now, t.rampLastModifiedAt, t.rampPercentage);
    TargetRampIsTheServers(p, me);
    assert Dated(p.found.value, run[k]);
    forall j | 0 <= j <= k && run[j].clock > run[k].server.value.routing.percentageChangedTime
      ensures run[j].server.Some? && SameRamp(run[j].server.value.routing, run[k].server.value.routing)
    {
      RampWasHeld(run, events, me, j, k);
    }
  }
}
