/**
 What the autoscaler guarantees over whole runs: when its decisions are those of the full history, how it
 stabilises, and that the count stays in range.
 */
module AutoscalerGuarantees {
  import opened Autoscaler
  import opened AutoscalerRuns
  import opened ScaleEvents
  import opened ScalingRules
  import opened SlotBuffers

  // ------------------------------------------------------------------ counts one period ago

  /** The period start computed from the buffers is the count back then plus what went unrecorded since. */
  lemma PeriodStartIsPast(s: Scenario, steps: seq<Step>, period: nat, now: int)
    requires Past(steps, now)
    requires period <= s.spec.UpRetention() && period <= s.spec.DownRetention()
    ensures
      var run := s.After(steps);
      PeriodStart(Strip(run.buffers.ups), Strip(run.buffers.downs), run.replicas, period, now)
        == CountAt(s.initial, run.changes, now - period) + NetUnrecorded(run.changes, now - period)
  {
    RunsAreFaithful(s, steps, now);
    FaithfulPeriodStart(s, s.After(steps), period, now);
  }

  lemma FaithfulPeriodStart(s: Scenario, run: Run, period: nat, now: int)
    requires Faithful(s, run, now)
    requires period <= s.spec.UpRetention() && period <= s.spec.DownRetention()
    ensures PeriodStart(Strip(run.buffers.ups), Strip(run.buffers.downs), run.replicas, period, now)
         == CountAt(s.initial, run.changes, now - period) + NetUnrecorded(run.changes, now - period)
  {
    StartFromEvents(s.initial, run.changes, run.replicas, run.buffers.ups, run.buffers.downs,
                    s.spec.UpRetention(), s.spec.DownRetention(), period, now);
  }

  lemma StartFromEvents(initial: int, changes: seq<Change>, current: int, ups: seq<ScaleEvent>, downs: seq<ScaleEvent>,
                        upRetention: nat, downRetention: nat, period: nat, now: int)
    requires FaithfulEvents(ups, ChangeLog(changes, true), upRetention, now)
    requires FaithfulEvents(downs, ChangeLog(changes, false), downRetention, now)
    requires InOrder(changes, now) && Chained(initial, changes, current) && period <= upRetention && period <= downRetention
    ensures PeriodStart(Strip(ups), Strip(downs), current, period, now)
         == CountAt(initial, changes, now - period) + NetUnrecorded(changes, now - period)
  {
    EventSum(ups, changes, true, upRetention, period, now);
    EventSum(downs, changes, false, downRetention, period, now);
    StartFromSums(initial, changes, current, Strip(ups), Strip(downs), period, now);
  }

  lemma StartFromSums(initial: int, changes: seq<Change>, current: int, ups: seq<Stamped<int>>, downs: seq<Stamped<int>>,
                      period: nat, now: int)
    requires InOrder(changes, now) && Chained(initial, changes, current)
    requires SumFrom(ups, now - period + 1) == SumFrom(ChangeLog(changes, true), now - period + 1)
    requires SumFrom(downs, now - period + 1) == SumFrom(ChangeLog(changes, false), now - period + 1)
    ensures PeriodStart(ups, downs, current, period, now) == CountAt(initial, changes, now - period) + NetUnrecorded(changes, now - period)
  {
    Telescope(initial, changes, current, now - period, now);
  }

  /** A faithful event buffer adds up to the recorded changes inside the period. */
  lemma EventSum(events: seq<ScaleEvent>, changes: seq<Change>, up: bool, retention: nat, period: nat, now: int)
    requires FaithfulEvents(events, ChangeLog(changes, up), retention, now)
    requires InOrder(changes, now) && period <= retention
    ensures SumFrom(Strip(events), now - period + 1) == SumFrom(ChangeLog(changes, up), now - period + 1)
  {
    ChangeLogOrdered(changes, up, now);
    SumIsExact(ChangeLog(changes, up), retention, period, now);
  }

  /** The history's count at `t` is the count of the run cut off at `t`. */
  lemma {:induction false} CountAtIsInForce(s: Scenario, steps: seq<Step>, t: int, now: int)
    requires Past(steps, now)
    ensures CountAt(s.initial, s.After(steps).changes, t) == s.CountInForce(steps, t)
  {
    if steps != [] {
      var n := |steps| - 1;
      var before := s.After(steps[..n]);
      if steps[n].now <= t {
        RunsAreFaithful(s, steps, t);
        AllByNow(s.initial, s.After(steps).changes, s.After(steps).replicas, t);
      } else {
        CountAtIsInForce(s, steps[..n], t, steps[n].now);
        ForgetChanges(s.initial, before.changes, before.replicas, t);
        var changes := s.After(steps).changes;
        if |changes| > |before.changes| {
          assert changes[..|changes| - 1] == before.changes;
        }
      }
    }
  }

  lemma AllByNow(initial: int, changes: seq<Change>, current: int, t: int)
    requires InOrder(changes, t) && Chained(initial, changes, current)
    ensures CountAt(initial, changes, t) == current
  {}

  /** Only reconciles that are remembered as scale events changed the count. */
  predicate OnlyRecorded(s: Scenario, steps: seq<Step>) {
    s.spec.behavior.Some? && forall i :: 0 <= i < |steps| ==> steps[i].Reconciled?
  }

  lemma {:induction false} NothingUnrecorded(s: Scenario, steps: seq<Step>, t: int)
    requires OnlyRecorded(s, steps)
    ensures NetUnrecorded(s.After(steps).changes, t) == 0
  {
    if steps != [] {
      var n := |steps| - 1;
      NothingUnrecorded(s, steps[..n], t);
      var before, changes := s.After(steps[..n]).changes, s.After(steps).changes;
      if |changes| > |before| {
        assert changes[..|changes| - 1] == before;
      }
    }
  }

  /** If only recorded steps change the count, the period starts are the counts in force one period ago. */
  lemma PeriodStartsAreCountsInForce(s: Scenario, steps: seq<Step>, policies: seq<Policy>, now: int)
    requires Past(steps, now) && OnlyRecorded(s, steps)
    ensures TrueStarts(policies, s.initial, s.After(steps).changes, now) == s.CountsInForce(steps, policies, now)
  {
    forall i | 0 <= i < |policies|
      ensures TrueStarts(policies, s.initial, s.After(steps).changes, now)[i] == s.CountsInForce(steps, policies, now)[i]
    {
      CountAtIsInForce(s, steps, now - policies[i].Period(), now);
      NothingUnrecorded(s, steps, now - policies[i].Period());
    }
  }

  // ------------------------------------------------------------------ lossy buffers, exact decisions

  /** The `i`-th period start computed from these events is the true one. */
  ghost predicate StartRight(policies: seq<Policy>, ups: seq<Stamped<int>>, downs: seq<Stamped<int>>, initial: int,
                             changes: seq<Change>, current: int, now: int, i: nat)
    requires i < |policies|
  {
    var period := policies[i].Period();
    PeriodStart(ups, downs, current, period, now) == CountAt(initial, changes, now - period) + NetUnrecorded(changes, now - period)
  }

  lemma StartsRightOneByOne(policies: seq<Policy>, ups: seq<Stamped<int>>, downs: seq<Stamped<int>>, initial: int,
                            changes: seq<Change>, current: int, now: int)
    ensures PeriodStarts(policies, ups, downs, current, now) == TrueStarts(policies, initial, changes, now)
      <==> forall i :: 0 <= i < |policies| ==> StartRight(policies, ups, downs, initial, changes, current, now, i)
  {
    var starts, truth := PeriodStarts(policies, ups, downs, current, now), TrueStarts(policies, initial, changes, now);
    forall i | 0 <= i < |policies|
      ensures StartRight(policies, ups, downs, initial, changes, current, now, i) <==> starts[i] == truth[i]
    {}
  }

  lemma StartsExact(s: Scenario, run: Run, policies: seq<Policy>, now: int)
    requires Faithful(s, run, now)
    requires LongestPeriod(policies) * SECOND <= s.spec.UpRetention() && LongestPeriod(policies) * SECOND <= s.spec.DownRetention()
    ensures PeriodStarts(policies, Strip(run.buffers.ups), Strip(run.buffers.downs), run.replicas, now)
         == TrueStarts(policies, s.initial, run.changes, now)
  {
    forall i | 0 <= i < |policies|
      ensures StartRight(policies, Strip(run.buffers.ups), Strip(run.buffers.downs), s.initial, run.changes, run.replicas, now, i)
    {
      PeriodCovered(policies, i);
      FaithfulPeriodStart(s, run, policies[i].Period(), now);
    }
    StartsRightOneByOne(policies, Strip(run.buffers.ups), Strip(run.buffers.downs), s.initial, run.changes, run.replicas, now);
  }

  /** Both ways of stabilising see in the buffer what they would see in the full log of proposals. */
  lemma StabilizationExact(s: Scenario, run: Run, proposal: int, now: int)
    requires Faithful(s, run, now)
    ensures
      var buffer, log := Seeded(run.buffers.recommendations, run.replicas, now), Seeded(run.proposals, run.replicas, now);
      match s.spec.behavior
      case None => StabilizedPlain(buffer, s.window, proposal, now) == StabilizedPlain(log, s.window, proposal, now)
      case Some(b) =>
        StabilizedWithBehaviors(buffer, b, run.replicas, proposal, now) == StabilizedWithBehaviors(log, b, run.replicas, proposal, now)
  {
    var buffer, log := Seeded(run.buffers.recommendations, run.replicas, now), Seeded(run.proposals, run.replicas, now);
    SeededStaysFaithful(s, run, now, now);
    StabilizationAgrees(s, buffer, log, run.replicas, proposal, now);
  }

  /** The same for each way of stabilising by itself. */
  lemma BehaviorsExact(s: Scenario, run: Run, b: Behavior, proposal: int, now: int)
    requires Faithful(s, run, now) && s.spec.behavior == Some(b)
    ensures StabilizedWithBehaviors(Seeded(run.buffers.recommendations, run.replicas, now), b, run.replicas, proposal, now)
         == StabilizedWithBehaviors(Seeded(run.proposals, run.replicas, now), b, run.replicas, proposal, now)
  {
    StabilizationExact(s, run, proposal, now);
  }

  lemma PlainExact(s: Scenario, run: Run, proposal: int, now: int)
    requires Faithful(s, run, now) && s.spec.behavior == None
    ensures StabilizedPlain(Seeded(run.buffers.recommendations, run.replicas, now), s.window, proposal, now)
         == StabilizedPlain(Seeded(run.proposals, run.replicas, now), s.window, proposal, now)
  {
    StabilizationExact(s, run, proposal, now);
  }

  lemma StabilizationAgrees(s: Scenario, buffer: seq<Stamped<int>>, log: seq<Stamped<int>>, current: int, proposal: int, now: int)
    requires FaithfulProposals(s, buffer, log, now)
    ensures
      match s.spec.behavior
      case None => StabilizedPlain(buffer, s.window, proposal, now) == StabilizedPlain(log, s.window, proposal, now)
      case Some(b) =>
        StabilizedWithBehaviors(buffer, b, current, proposal, now) == StabilizedWithBehaviors(log, b, current, proposal, now)
  {
    var m := s.spec.Memory(s.window);
    BufferAgrees(log, m, now);
    match s.spec.behavior
    case None =>
      AgreeExtremes(buffer, log, now - m, now - s.window, proposal);
    case Some(b) =>
      AgreeExtremes(buffer, log, now - m, now - b.up.Window() + 1, proposal);
      AgreeExtremes(buffer, log, now - m, now - b.down.Window() + 1, proposal);
  }

  /** The limits computed from the buffers for one direction are the true ones if its periods are covered. */
  lemma LimitsExact(s: Scenario, run: Run, now: int)
    requires Faithful(s, run, now) && s.spec.behavior.Some?
    ensures
      var b := s.spec.behavior.value;
      var ups, downs := Strip(run.buffers.ups), Strip(run.buffers.downs);
      && (RisesCovered(s.spec) ==>
            UpLimit(b.up, PeriodStarts(b.up.policies, ups, downs, run.replicas, now), run.replicas)
            == UpLimit(b.up, TrueStarts(b.up.policies, s.initial, run.changes, now), run.replicas))
      && (DropsCovered(s.spec) ==>
            DownLimit(b.down, PeriodStarts(b.down.policies, ups, downs, run.replicas, now), run.replicas)
            == DownLimit(b.down, TrueStarts(b.down.policies, s.initial, run.changes, now), run.replicas))
  {
    var b := s.spec.behavior.value;
    if RisesCovered(s.spec) && b.up.select != Disabled {
      StartsExact(s, run, b.up.policies, now);
    }
    if DropsCovered(s.spec) && b.down.select != Disabled {
      StartsExact(s, run, b.down.policies, now);
    }
  }

  /** The decision is above, or below, the current count. */
  predicate Above(decision: Option<int>, current: int) { decision.Some? && decision.value > current }

  predicate Below(decision: Option<int>, current: int) { decision.Some? && decision.value < current }

  lemma FaithfulDecision(s: Scenario, run: Run, proposal: Option<int>, now: int)
    requires Faithful(s, run, now)
    ensures
      var lossy := BufferDecision(s.spec, s.window, run.buffers, run.replicas, proposal, now);
      var full := s.HistoryDecision(run, proposal, now);
      && (RisesCovered(s.spec) && (Above(lossy, run.replicas) || Above(full, run.replicas)) ==> lossy == full)
      && (DropsCovered(s.spec) && (Below(lossy, run.replicas) || Below(full, run.replicas)) ==> lossy == full)
      && (RisesCovered(s.spec) && DropsCovered(s.spec) ==> lossy == full)
  {
    if proposal.Some? {
      StabilizationExact(s, run, Max(proposal.value, 0), now);
    }
    if s.spec.behavior.Some? {
      LimitsExact(s, run, now);
    } else {
      assert PeriodStarts([], Strip(run.buffers.ups), Strip(run.buffers.downs), run.replicas, now)
          == TrueStarts([], s.initial, run.changes, now);
    }
  }

  /**
   The controller decides on its overwritten buffers as it would on the complete history: on rises if the rise
   policies ask for no longer periods than the drop policies, on drops if it is the other way round.
   */
  lemma DecisionRefinesHistory(s: Scenario, steps: seq<Step>, proposal: Option<int>, now: int)
    requires Past(steps, now)
    ensures
      var run := s.After(steps);
      var lossy := BufferDecision(s.spec, s.window, run.buffers, run.replicas, proposal, now);
      var full := s.HistoryDecision(run, proposal, now);
      && (RisesCovered(s.spec) && (Above(lossy, run.replicas) || Above(full, run.replicas)) ==> lossy == full)
      && (DropsCovered(s.spec) && (Below(lossy, run.replicas) || Below(full, run.replicas)) ==> lossy == full)
      && (RisesCovered(s.spec) && DropsCovered(s.spec) ==> lossy == full)
  {
    RunsAreFaithful(s, steps, now);
    FaithfulDecision(s, s.After(steps), proposal, now);
  }

  // ------------------------------------------------------------------ exactly when the period starts are right

  ghost predicate UpStartsRight(spec: Spec, window: nat, initial: int, steps: seq<Step>, now: int) {
    var run := Scenario(spec, window, initial).After(steps);
    PeriodStarts(spec.UpPolicies(), Strip(run.buffers.ups), Strip(run.buffers.downs), run.replicas, now)
      == TrueStarts(spec.UpPolicies(), initial, run.changes, now)
  }

  /** The run that shows the flaw: two forced drops, the second one overwriting the first. */
  function TwoDrops(spec: Spec): seq<Step> {
    var later := spec.DownRetention() + 1;
    [Edited(spec.maxReplicas + 1, 0), Reconciled(None, true, 0),
     Edited(spec.maxReplicas + 1, later), Reconciled(None, true, later)]
  }

  lemma ForcedDrop(s: Scenario, run: Run, now: int)
    requires 0 <= s.spec.minReplicas <= s.spec.maxReplicas && s.spec.behavior.Some?
    ensures
      var m := s.spec.maxReplicas;
      var after := s.Next(s.Next(run, Edited(m + 1, now)), Reconciled(None, true, now));
      && after.replicas == m
      && after.buffers.ups == run.buffers.ups
      && after.buffers.downs == Stored(run.buffers.downs, now - s.spec.DownRetention(), 1, now)
      && after.changes == run.changes + [Change(run.replicas, m + 1, now, false), Change(m + 1, m, now, true)]
  {}

  lemma TwoDropsRun(s: Scenario)
    requires 0 <= s.spec.minReplicas <= s.spec.maxReplicas && s.spec.behavior.Some?
    ensures
      var run := s.After(TwoDrops(s.spec));
      var m, later := s.spec.maxReplicas, s.spec.DownRetention() + 1;
      && run.replicas == m
      && run.buffers.ups == []
      && Strip(run.buffers.downs) == [Stamped(1, later)]
      && run.changes == [Change(s.initial, m + 1, 0, false), Change(m + 1, m, 0, true),
                         Change(m, m + 1, later, false), Change(m + 1, m, later, true)]
  {
    var steps := TwoDrops(s.spec);
    var later := s.spec.DownRetention() + 1;
    assert steps[..3][..2] == steps[..2] && steps[..2][..1] == steps[..1] && steps[..1][..0] == [];
    var start := s.After([]);
    assert s.After(steps[..1]) == s.Next(start, steps[0]);
    var half := s.After(steps[..2]);
    assert half == s.Next(s.Next(start, steps[0]), steps[1]);
    ForcedDrop(s, start, 0);
    assert half.buffers.downs == [ScaleEvent(1, 0, false)];
    assert s.After(steps[..3]) == s.Next(half, steps[2]);
    assert s.After(steps) == s.Next(s.Next(half, steps[2]), steps[3]);
    ForcedDrop(s, half, later);
    StoredIsRecorded(half.buffers.downs, 0 - s.spec.DownRetention(), later - s.spec.DownRetention(), 1, later);
    assert Strip(half.buffers.downs) == [Stamped(1, 0)];
  }

  /** The count computed for the start of the period is not the true one. */
  ghost predicate StartMiscounted(s: Scenario, run: Run, period: nat, now: int) {
    PeriodStart(Strip(run.buffers.ups), Strip(run.buffers.downs), run.replicas, period, now)
      != CountAt(s.initial, run.changes, now - period) + NetUnrecorded(run.changes, now - period)
  }

  lemma MiscountedPolicy(s: Scenario, run: Run, policies: seq<Policy>, i: nat, now: int)
    requires i < |policies| && StartMiscounted(s, run, policies[i].Period(), now)
    ensures PeriodStarts(policies, Strip(run.buffers.ups), Strip(run.buffers.downs), run.replicas, now)
         != TrueStarts(policies, s.initial, run.changes, now)
  {
    assert PeriodStarts(policies, Strip(run.buffers.ups), Strip(run.buffers.downs), run.replicas, now)[i]
        != TrueStarts(policies, s.initial, run.changes, now)[i];
  }

  lemma TwoDropsMiscount(s: Scenario, period: nat)
    requires 0 <= s.spec.minReplicas <= s.spec.maxReplicas && s.spec.behavior.Some?
    requires period > s.spec.DownRetention() + 1
    ensures
      StartMiscounted(s, s.After(TwoDrops(s.spec)), period, s.spec.DownRetention() + 1)
  {
    TwoDropsRun(s);
    var run := s.After(TwoDrops(s.spec));
    var now := s.spec.DownRetention() + 1;
    var c := run.changes;
    assert c[..3][..2] == c[..2] && c[..2][..1] == c[..1] && c[..1][..0] == [];
    assert NetUnrecorded(c[..1], now - period) == s.spec.maxReplicas + 1 - s.initial;
    assert NetUnrecorded(c[..2], now - period) == NetUnrecorded(c[..1], now - period);
    assert NetUnrecorded(c[..3], now - period) == NetUnrecorded(c[..1], now - period) + 1;
    assert CountAt(s.initial, c[..1], now - period) == s.initial;
    assert CountAt(s.initial, c[..2], now - period) == s.initial;
    assert CountAt(s.initial, c[..3], now - period) == s.initial;
    assert Strip(run.buffers.downs)[..0] == [];
    assert SumFrom(Strip(run.buffers.downs), now - period + 1) == 1;
  }

  lemma TwoDropsPast(spec: Spec)
    ensures Past(TwoDrops(spec), spec.DownRetention() + 1)
  {
    var steps := TwoDrops(spec);
    assert steps[..3][..2] == steps[..2] && steps[..2][..1] == steps[..1] && steps[..1][..0] == [];
    assert Past(steps[..1], 0);
    assert Past(steps[..2], 0);
    assert Past(steps[..3], spec.DownRetention() + 1);
  }

  lemma UncoveredStartsWrong(spec: Spec, window: nat)
    requires 0 <= spec.minReplicas <= spec.maxReplicas && spec.behavior.Some?
    requires LongestPeriod(spec.UpPolicies()) > LongestPeriod(spec.DownPolicies())
    ensures !UpStartsRight(spec, window, 0, TwoDrops(spec), spec.DownRetention() + 1)
  {
    var policies := spec.UpPolicies();
    LongestCovers(policies);
    var i :| 0 <= i < |policies| && policies[i].periodSeconds == LongestPeriod(policies);
    WrongAt(spec, window, i);
  }

  lemma WrongAt(spec: Spec, window: nat, i: nat)
    requires 0 <= spec.minReplicas <= spec.maxReplicas && spec.behavior.Some?
    requires i < |spec.UpPolicies()| && spec.UpPolicies()[i].periodSeconds > LongestPeriod(spec.DownPolicies())
    ensures !UpStartsRight(spec, window, 0, TwoDrops(spec), spec.DownRetention() + 1)
  {
    var s := Scenario(spec, window, 0);
    assert spec.UpPolicies()[i].Period() > spec.DownRetention() + 1;
    TwoDropsMiscount(s, spec.UpPolicies()[i].Period());
    MiscountedPolicy(s, s.After(TwoDrops(spec)), spec.UpPolicies(), i, spec.DownRetention() + 1);
  }

  /**
   The rise limits are computed from the true past counts in every run exactly if the longest period
   of the rise policies is no longer than that of the drop policies.
   */
  lemma UpStartsRightIff(spec: Spec, window: nat)
    requires 0 <= spec.minReplicas <= spec.maxReplicas && spec.behavior.Some?
    ensures LongestPeriod(spec.UpPolicies()) <= LongestPeriod(spec.DownPolicies())
      <==> forall initial: int, steps: seq<Step>, now: int :: Past(steps, now) ==> UpStartsRight(spec, window, initial, steps, now)
  {
    if LongestPeriod(spec.UpPolicies()) <= LongestPeriod(spec.DownPolicies()) {
      forall initial: int, steps: seq<Step>, now: int | Past(steps, now)
        ensures UpStartsRight(spec, window, initial, steps, now)
      {
        RunsAreFaithful(Scenario(spec, window, initial), steps, now);
        StartsExact(Scenario(spec, window, initial), Scenario(spec, window, initial).After(steps), spec.UpPolicies(), now);
      }
    } else {
      UncoveredStartsWrong(spec, window);
      TwoDropsPast(spec);
    }
  }

  /** The metrics decided this reconcile under configured behaviors. */
  predicate BehaviorStep(s: Scenario, run: Run) {
    s.spec.behavior.Some? && s.spec.MetricsDecide(run.replicas)
  }

  // ------------------------------------------------------------------ stabilisation in terms of the history

  /** `low` is the least of the proposal and everything recorded later than `window` before `now`. */
  ghost predicate IsLeast(log: seq<Stamped<int>>, window: int, proposal: int, now: int, low: int) {
    && low <= proposal
    && (forall e :: e in log && e.timestamp > now - window ==> low <= e.value)
    && (low == proposal || Witnessed(log, now - window + 1, low))
  }

  ghost predicate IsGreatest(log: seq<Stamped<int>>, window: int, proposal: int, now: int, high: int) {
    && proposal <= high
    && (forall e :: e in log && e.timestamp > now - window ==> e.value <= high)
    && (high == proposal || Witnessed(log, now - window + 1, high))
  }

  lemma LeastInside(log: seq<Stamped<int>>, window: int, proposal: int, now: int)
    ensures IsLeast(log, window, proposal, now, MinFrom(log, now - window + 1, proposal))
  {
    MinFromIsMin(log, now - window + 1, proposal);
  }

  lemma GreatestInside(log: seq<Stamped<int>>, window: int, proposal: int, now: int)
    ensures IsGreatest(log, window, proposal, now, MaxFrom(log, now - window + 1, proposal))
  {
    MaxFromIsMax(log, now - window + 1, proposal);
  }

  lemma ClampBetween(current: int, low: int, high: int, proposal: int)
    requires low <= proposal <= high
    ensures current <= Clamp(current, low, high) <= proposal || proposal <= Clamp(current, low, high) <= current
  {
  }

  /** The buffer gives the stabilised count that the full log gives. */
  lemma StabilizedAsLogged(s: Scenario, steps: seq<Step>, b: Behavior, proposal: int, now: int)
    requires Past(steps, now) && s.spec.behavior == Some(b)
    ensures
      var run := s.After(steps);
      StabilizedWithBehaviors(Seeded(run.buffers.recommendations, run.replicas, now), b, run.replicas, proposal, now)
      == StabilizedWithBehaviors(Seeded(run.proposals, run.replicas, now), b, run.replicas, proposal, now)
  {
    RunsAreFaithful(s, steps, now);
    BehaviorsExact(s, s.After(steps), b, proposal, now);
  }

  /**
   The stabilised count is the current one clamped to the extremes of the proposal and of everything recorded
   inside the two windows, and lies between the current count and the proposal.
   */
  lemma BehaviorStabilization(s: Scenario, steps: seq<Step>, b: Behavior, proposal: int, now: int) returns (low: int, high: int)
    requires Past(steps, now) && s.spec.behavior == Some(b)
    ensures
      var run := s.After(steps);
      var log := Seeded(run.proposals, run.replicas, now);
      var r := StabilizedWithBehaviors(Seeded(run.buffers.recommendations, run.replicas, now), b, run.replicas, proposal, now);
      && IsLeast(log, b.up.Window(), proposal, now, low)
      && IsGreatest(log, b.down.Window(), proposal, now, high)
      && r == Clamp(run.replicas, low, high)
      && (run.replicas <= r <= proposal || proposal <= r <= run.replicas)
  {
    low, high := StabilizedInside(Seeded(s.After(steps).proposals, s.After(steps).replicas, now), b, s.After(steps).replicas, proposal, now);
    StabilizedAsLogged(s, steps, b, proposal, now);
  }

  lemma StabilizedInside(log: seq<Stamped<int>>, b: Behavior, current: int, proposal: int, now: int) returns (low: int, high: int)
    ensures IsLeast(log, b.up.Window(), proposal, now, low)
    ensures IsGreatest(log, b.down.Window(), proposal, now, high)
    ensures StabilizedWithBehaviors(log, b, current, proposal, now) == Clamp(current, low, high)
    ensures current <= Clamp(current, low, high) <= proposal || proposal <= Clamp(current, low, high) <= current
  {
    low, high := MinFrom(log, now - b.up.Window() + 1, proposal), MaxFrom(log, now - b.down.Window() + 1, proposal);
    LeastInside(log, b.up.Window(), proposal, now);
    GreatestInside(log, b.down.Window(), proposal, now);
    ClampBetween(current, low, high, proposal);
  }

  /** Without behaviors: the greatest of the proposal and everything recorded inside the window. */
  lemma PlainStabilization(s: Scenario, steps: seq<Step>, proposal: int, now: int)
    requires Past(steps, now) && s.spec.behavior == None
    ensures
      var run := s.After(steps);
      var log := Seeded(run.proposals, run.replicas, now);
      var r := StabilizedPlain(Seeded(run.buffers.recommendations, run.replicas, now), s.window, proposal, now);
      && r >= proposal
      && (forall e :: e in log && e.timestamp >= now - s.window ==> e.value <= r)
      && (r == proposal || Witnessed(log, now - s.window, r))
      && |run.buffers.recommendations| <= 1 + PeakInWindow(run.proposals, s.window)
  {
    var run := s.After(steps);
    RunsAreFaithful(s, steps, now);
    PlainExact(s, run, proposal, now);
    MaxFromIsMax(Seeded(run.proposals, run.replicas, now), now - s.window, proposal);
    BufferLength(run.proposals, s.window, now);
  }

  // ------------------------------------------------------------------ range and direction

  /** Every reconcile that is not switched off and can write leaves the count in range. */
  lemma RangeKept(s: Scenario, run: Run, proposal: Option<int>, now: int)
    requires 0 <= s.spec.minReplicas <= s.spec.maxReplicas && run.replicas >= 0
    ensures
      var after := s.Next(run, Reconciled(proposal, true, now)).replicas;
      if s.spec.Disables(run.replicas) then after == 0
      else s.spec.minReplicas <= after <= s.spec.maxReplicas
  {
    if s.spec.MetricsDecide(run.replicas) && proposal.Some? {
      var p, recs := Max(proposal.value, 0), Seeded(run.buffers.recommendations, run.replicas, now);
      match s.spec.behavior
      case None =>
        WithRulesInRange(run.replicas, StabilizedPlain(recs, s.window, p, now), s.spec.minReplicas, s.spec.maxReplicas);
      case Some(b) =>
        BehaviorRateBetween(b, run.replicas, StabilizedWithBehaviors(recs, b, run.replicas, p, now),
                            s.spec.minReplicas, s.spec.maxReplicas,
                            PeriodStarts(b.up.policies, Strip(run.buffers.ups), Strip(run.buffers.downs), run.replicas, now),
                            PeriodStarts(b.down.policies, Strip(run.buffers.ups), Strip(run.buffers.downs), run.replicas, now));
    }
  }

  /** With behaviors, a step never moves against the proposal, nor past it. */
  lemma NeverAgainstProposal(s: Scenario, run: Run, proposal: int, updated: bool, now: int)
    requires BehaviorStep(s, run) && proposal >= 0
    ensures
      var after := s.Next(run, Reconciled(Some(proposal), updated, now)).replicas;
      run.replicas <= after <= proposal || proposal <= after <= run.replicas
  {
    var b, recs := s.spec.behavior.value, Seeded(run.buffers.recommendations, run.replicas, now);
    MinFromIsMin(recs, now - b.up.Window() + 1, proposal);
    MaxFromIsMax(recs, now - b.down.Window() + 1, proposal);
    BehaviorRateBetween(b, run.replicas, StabilizedWithBehaviors(recs, b, run.replicas, proposal, now),
                        s.spec.minReplicas, s.spec.maxReplicas,
                        PeriodStarts(b.up.policies, Strip(run.buffers.ups), Strip(run.buffers.downs), run.replicas, now),
                        PeriodStarts(b.down.policies, Strip(run.buffers.ups), Strip(run.buffers.downs), run.replicas, now));
  }

  /** Some proposal recorded inside the window, in the run's whole log, is above the current count. */
  ghost predicate HigherProposalInside(s: Scenario, run: Run, now: int) {
    HigherInside(Seeded(run.proposals, run.replicas, now), now - s.window, run.replicas)
  }

  ghost predicate HigherInside(log: seq<Stamped<int>>, from: int, current: int) {
    exists e :: e in log && e.timestamp >= from && e.value > current
  }

  /** The plain result on the buffer is above the current count if and only if the proposal or the log is. */
  lemma PlainAboveIff(s: Scenario, steps: seq<Step>, proposal: int, now: int)
    requires Past(steps, now) && s.spec.behavior == None
    ensures
      var run := s.After(steps);
      var r := StabilizedPlain(Seeded(run.buffers.recommendations, run.replicas, now), s.window, proposal, now);
      r >= proposal && (r > run.replicas <==> proposal > run.replicas || HigherProposalInside(s, run, now))
  {
    var run := s.After(steps);
    PlainAsLogged(s, steps, proposal, now);
    PlainOnLog(s, Seeded(run.proposals, run.replicas, now), proposal, run.replicas, now);
  }

  lemma PlainOnLog(s: Scenario, log: seq<Stamped<int>>, proposal: int, current: int, now: int)
    ensures
      var r := StabilizedPlain(log, s.window, proposal, now);
      r >= proposal && (r > current <==> proposal > current || HigherInside(log, now - s.window, current))
  {
    HighestInside(log, now - s.window, proposal, current);
  }

  lemma PlainAsLogged(s: Scenario, steps: seq<Step>, proposal: int, now: int)
    requires Past(steps, now) && s.spec.behavior == None
    ensures
      var run := s.After(steps);
      StabilizedPlain(Seeded(run.buffers.recommendations, run.replicas, now), s.window, proposal, now)
      == StabilizedPlain(Seeded(run.proposals, run.replicas, now), s.window, proposal, now)
  {
    RunsAreFaithful(s, steps, now);
    PlainExact(s, s.After(steps), proposal, now);
  }

  lemma HighestInside(log: seq<Stamped<int>>, from: int, proposal: int, current: int)
    ensures proposal <= MaxFrom(log, from, proposal)
    ensures MaxFrom(log, from, proposal) > current
      <==> proposal > current || HigherInside(log, from, current)
  {
    MaxFromIsMax(log, from, proposal);
  }

  /**
   Without behaviors a step moves against the proposal exactly if there is room above the current count and a
   higher proposal was recorded inside the window: it then rises although the proposal does not ask for it.
   */
  lemma PlainMovesAgainstProposalIff(s: Scenario, steps: seq<Step>, proposal: int, now: int)
    requires Past(steps, now) && s.spec.behavior == None && 0 <= s.spec.minReplicas
    requires var run := s.After(steps); s.spec.MetricsDecide(run.replicas) && 0 <= proposal <= run.replicas
    ensures
      var run := s.After(steps);
      s.Next(run, Reconciled(Some(proposal), true, now)).replicas > run.replicas
      <==> run.replicas < s.spec.maxReplicas && HigherProposalInside(s, run, now)
  {
    PlainAboveIff(s, steps, proposal, now);
    PlainResult(s, s.After(steps), proposal, now);
  }

  /** The other way round it never does: with a proposal of at least the current count a plain step does not fall. */
  lemma PlainNeverFallsAgainstProposal(s: Scenario, steps: seq<Step>, proposal: int, now: int)
    requires Past(steps, now) && s.spec.behavior == None && 0 <= s.spec.minReplicas
    requires var run := s.After(steps); s.spec.MetricsDecide(run.replicas) && run.replicas <= proposal
    ensures s.Next(s.After(steps), Reconciled(Some(proposal), true, now)).replicas >= s.After(steps).replicas
  {
    PlainAboveIff(s, steps, proposal, now);
    PlainResult(s, s.After(steps), proposal, now);
  }

  /** Where a written plain step ends. */
  lemma PlainResult(s: Scenario, run: Run, proposal: int, now: int)
    requires s.spec.behavior == None && s.spec.MetricsDecide(run.replicas) && 0 <= proposal
    ensures s.Next(run, Reconciled(Some(proposal), true, now)).replicas
         == WithRules(run.replicas, StabilizedPlain(Seeded(run.buffers.recommendations, run.replicas, now), s.window, proposal, now),
                      s.spec.minReplicas, s.spec.maxReplicas)
  {
  }

  /** It does happen: an older, larger proposal still inside the window pulls the count up. */
  lemma PlainCanMoveAgainstProposal()
    ensures
      var s := Scenario(Spec(1, 10, None), 300 * SECOND, 2);
      var steps := [Reconciled(Some(8), true, 0)];
      var run := s.After(steps);
      run.replicas == 4 && s.Next(run, Reconciled(Some(1), true, SECOND)).replicas == 8
  {
    var s := Scenario(Spec(1, 10, None), 300 * SECOND, 2);
    var steps := [Reconciled(Some(8), true, 0)];
    assert steps[..0] == [];
    assert [Stamped(2, 0)][..0] == [];
    var run := s.After(steps);
    var recs := run.buffers.recommendations;
    assert run == s.Next(s.After([]), steps[0]);
    assert LastOlder([Stamped(2, 0)], 0 - 300 * SECOND) == -1;
    assert Recorded([Stamped(2, 0)], 0 - 300 * SECOND, Stamped(8, 0)) == [Stamped(2, 0)] + [Stamped(8, 0)];
    assert recs == [Stamped(2, 0), Stamped(8, 0)];
    assert MaxFrom([Stamped(2, 0)], 0 - 300 * SECOND, 8) == 8;
    assert recs[..1] == [Stamped(2, 0)];
    assert MaxFrom(recs[..1], SECOND - 300 * SECOND, 1) == 2;
    assert MaxFrom(recs, SECOND - 300 * SECOND, 1) == 8;
  }

  // ------------------------------------------------------------------ growth without behaviors

  /** When the metrics decide, one plain step at most doubles the count, though four are always allowed. */
  lemma PlainStepBounded(s: Scenario, run: Run, proposal: Option<int>, updated: bool, now: int)
    requires 0 <= s.spec.minReplicas && s.spec.behavior == None && s.spec.MetricsDecide(run.replicas)
    ensures s.Next(run, Reconciled(proposal, updated, now)).replicas <= Max(2 * run.replicas, 4)
  {}

  function Pow2(k: nat): (p: nat)
    ensures p >= 1
  {
    if k == 0 then 1 else 2 * Pow2(k - 1)
  }

  /** Reconciles with proposals of at least the maximum, all written. */
  ghost predicate FullDemand(spec: Spec, steps: seq<Step>) {
    forall i :: 0 <= i < |steps| ==>
      steps[i].Reconciled? && steps[i].updated && steps[i].proposal.Some? && steps[i].proposal.value >= spec.maxReplicas
  }

  function Continue(s: Scenario, run: Run, steps: seq<Step>): Run {
    if steps == [] then run else s.Next(Continue(s, run, steps[..|steps| - 1]), steps[|steps| - 1])
  }

  lemma FullDemandStep(s: Scenario, run: Run, step: Step)
    requires 0 <= s.spec.minReplicas <= s.spec.maxReplicas && s.spec.behavior == None
    requires step.Reconciled? && step.updated && step.proposal.Some? && step.proposal.value >= s.spec.maxReplicas
    requires 1 <= run.replicas
    ensures
      var after := s.Next(run, step).replicas;
      && s.spec.minReplicas <= after <= s.spec.maxReplicas
      && (run.replicas < s.spec.minReplicas ==> after == s.spec.minReplicas)
      && (run.replicas >= s.spec.minReplicas ==> Min(2 * run.replicas, s.spec.maxReplicas) <= after)
  {
    var p := Max(step.proposal.value, 0);
    MaxFromIsMax(Seeded(run.buffers.recommendations, run.replicas, step.now), step.now - s.window, p);
  }

  /** Sustained full demand reaches the maximum from any count as fast as doubling allows: within log2(max) steps, but at least one. */
  lemma {:induction false} FullDemandReachesMax(s: Scenario, run: Run, steps: seq<Step>)
    requires 0 <= s.spec.minReplicas <= s.spec.maxReplicas && s.spec.behavior == None
    requires FullDemand(s.spec, steps) && 1 <= run.replicas && 1 <= s.spec.maxReplicas
    ensures steps != [] ==> s.spec.minReplicas <= Continue(s, run, steps).replicas <= s.spec.maxReplicas
    ensures Min(Pow2(|steps|), s.spec.maxReplicas) <= Continue(s, run, steps).replicas
    ensures steps != [] && Pow2(|steps|) >= s.spec.maxReplicas ==> Continue(s, run, steps).replicas == s.spec.maxReplicas
  {
    if steps != [] {
      var n := |steps| - 1;
      FullDemandReachesMax(s, run, steps[..n]);
      assert Pow2(|steps|) == 2 * Pow2(n);
      assert Pow2(n) >= 1;
      FullDemandStep(s, Continue(s, run, steps[..n]), steps[n]);
    }
  }
}
