/**
 When the drop limits are computed from the true past counts: the counterpart of the result on rises. Here
 rise events are the ones that are retired too early.
 */
module AutoscalerDropPeriods {
  import opened Autoscaler
  import opened AutoscalerGuarantees
  import opened AutoscalerRuns
  import opened ScaleEvents
  import opened ScalingRules
  import opened SlotBuffers

  ghost predicate DownStartsRight(spec: Spec, window: nat, initial: int, steps: seq<Step>, now: int) {
    var run := Scenario(spec, window, initial).After(steps);
    PeriodStarts(spec.DownPolicies(), Strip(run.buffers.ups), Strip(run.buffers.downs), run.replicas, now)
      == TrueStarts(spec.DownPolicies(), initial, run.changes, now)
  }

  // ------------------------------------------------------------------ a repeated rise is counted once

  /** The second rise overwrites the first one, which is still inside a longer drop period. */
  lemma RepeatedRiseMiscounts(s: Scenario, steps: seq<Step>, amount: int, first: int, now: int, i: nat)
    requires Past(steps, now) && i < |s.spec.DownPolicies()| && amount > 0
    requires first < now - s.spec.UpRetention() && now - s.spec.DownPolicies()[i].Period() < first
    requires ChangeLog(s.After(steps).changes, true) == [Stamped(amount, first), Stamped(amount, now)]
    requires ChangeLog(s.After(steps).changes, false) == []
    ensures !DownStartsRight(s.spec, s.window, s.initial, steps, now)
  {
    RunsAreFaithful(s, steps, now);
    MiscountedStarts(s, s.After(steps), amount, first, now, i);
    WrongRun(s, steps, now);
  }

  lemma MiscountedStarts(s: Scenario, run: Run, amount: int, first: int, now: int, i: nat)
    requires Faithful(s, run, now) && i < |s.spec.DownPolicies()| && amount > 0
    requires first < now - s.spec.UpRetention() && now - s.spec.DownPolicies()[i].Period() < first
    requires ChangeLog(run.changes, true) == [Stamped(amount, first), Stamped(amount, now)]
    requires ChangeLog(run.changes, false) == []
    ensures PeriodStarts(s.spec.DownPolicies(), Strip(run.buffers.ups), Strip(run.buffers.downs), run.replicas, now)
         != TrueStarts(s.spec.DownPolicies(), s.initial, run.changes, now)
  {
    MiscountedStart(s, run, s.spec.DownPolicies()[i].Period(), amount, first, now);
    MiscountedPolicy(s, run, s.spec.DownPolicies(), i, now);
  }

  lemma WrongRun(s: Scenario, steps: seq<Step>, now: int)
    requires
      var run := s.After(steps);
      PeriodStarts(s.spec.DownPolicies(), Strip(run.buffers.ups), Strip(run.buffers.downs), run.replicas, now)
      != TrueStarts(s.spec.DownPolicies(), s.initial, run.changes, now)
    ensures !DownStartsRight(s.spec, s.window, s.initial, steps, now)
  {
    assert s == Scenario(s.spec, s.window, s.initial);
  }

  lemma MiscountedStart(s: Scenario, run: Run, period: nat, amount: int, first: int, now: int)
    requires Faithful(s, run, now) && amount > 0
    requires first < now - s.spec.UpRetention() && now - period < first
    requires ChangeLog(run.changes, true) == [Stamped(amount, first), Stamped(amount, now)]
    requires ChangeLog(run.changes, false) == []
    ensures StartMiscounted(s, run, period, now)
  {
    Telescope(s.initial, run.changes, run.replicas, now - period, now);
    Overwritten(amount, first, now, s.spec.UpRetention(), now - period + 1);
    assert Strip(run.buffers.downs) == [];
  }

  lemma Overwritten(amount: int, first: int, now: int, retention: nat, from: int)
    requires from <= first < now - retention
    ensures
      var log := [Stamped(amount, first), Stamped(amount, now)];
      SumFrom(log, from) == 2 * amount && SumFrom(BufferOf(log, retention), from) == amount
  {
    var x, y := Stamped(amount, first), Stamped(amount, now);
    LogGrows([], x, retention);
    assert [] + [x] == [x];
    LogGrows([x], y, retention);
    assert [x] + [y] == [x, y];
    OneEntry(x, now - retention, from);
    OneEntry(y, now - retention, from);
    assert Recorded([x], now - retention, y) == [y];
    assert [x, y][..1] == [x];
  }

  lemma OneEntry(x: Stamped<int>, cutoff: int, from: int)
    requires x.timestamp >= from
    ensures SumFrom([x], from) == x.value && LastOlder([x], cutoff) == if x.timestamp < cutoff then 0 else -1
  {
    assert [x][..0] == [];
  }

  // ------------------------------------------------------------------ two rises forced by the minimum

  function ForcedRises(spec: Spec): seq<Step> {
    var later := spec.UpRetention() + 1;
    [Edited(spec.minReplicas - 1, 0), Reconciled(None, true, 0),
     Edited(spec.minReplicas - 1, later), Reconciled(None, true, later)]
  }

  lemma ForcedRise(s: Scenario, run: Run, now: int)
    requires 2 <= s.spec.minReplicas <= s.spec.maxReplicas && s.spec.behavior.Some?
    ensures
      var m := s.spec.minReplicas;
      var after := s.Next(s.Next(run, Edited(m - 1, now)), Reconciled(None, true, now));
      after.replicas == m
      && after.changes == run.changes + [Change(run.replicas, m - 1, now, false), Change(m - 1, m, now, true)]
  {}

  lemma ForcedRisesRun(s: Scenario)
    requires 2 <= s.spec.minReplicas <= s.spec.maxReplicas && s.spec.behavior.Some?
    ensures
      var m, later := s.spec.minReplicas, s.spec.UpRetention() + 1;
      && s.After(ForcedRises(s.spec)).changes
         == [Change(s.initial, m - 1, 0, false), Change(m - 1, m, 0, true), Change(m, m - 1, later, false), Change(m - 1, m, later, true)]
      && Past(ForcedRises(s.spec), later)
  {
    var steps, later := ForcedRises(s.spec), s.spec.UpRetention() + 1;
    assert steps[..3][..2] == steps[..2] && steps[..2][..1] == steps[..1] && steps[..1][..0] == [];
    var half := s.After(steps[..2]);
    assert s.After(steps[..1]) == s.Next(s.After([]), steps[0]);
    assert half == s.Next(s.Next(s.After([]), steps[0]), steps[1]);
    ForcedRise(s, s.After([]), 0);
    assert s.After(steps[..3]) == s.Next(half, steps[2]);
    assert s.After(steps) == s.Next(s.Next(half, steps[2]), steps[3]);
    ForcedRise(s, half, later);
    assert Past(steps[..1], 0) && Past(steps[..2], 0) && Past(steps[..3], later);
  }

  /** The recorded rises of four changes of which the second and the fourth are equal and recorded. */
  lemma LogOfFour(start: int, a: int, b: int, first: int, later: int)
    requires a < b
    ensures
      var changes := [Change(start, a, first, false), Change(a, b, first, true), Change(b, a, later, false), Change(a, b, later, true)];
      && ChangeLog(changes, true) == [Stamped(b - a, first), Stamped(b - a, later)]
      && ChangeLog(changes, false) == []
  {
    var c := [Change(start, a, first, false), Change(a, b, first, true), Change(b, a, later, false), Change(a, b, later, true)];
    ChangeLogGrows([], c[0], true);
    ChangeLogGrows([], c[0], false);
    assert [] + [c[0]] == [c[0]];
    ChangeLogGrows([c[0]], c[1], true);
    ChangeLogGrows([c[0]], c[1], false);
    assert [c[0]] + [c[1]] == [c[0], c[1]];
    ChangeLogGrows([c[0], c[1]], c[2], true);
    ChangeLogGrows([c[0], c[1]], c[2], false);
    assert [c[0], c[1]] + [c[2]] == [c[0], c[1], c[2]];
    ChangeLogGrows([c[0], c[1], c[2]], c[3], true);
    ChangeLogGrows([c[0], c[1], c[2]], c[3], false);
    assert [c[0], c[1], c[2]] + [c[3]] == c;
  }

  // ------------------------------------------------------------------ two rises asked for by the metrics

  /** Rises above one are not switched off, and the range leaves room for them. */
  predicate RisesByMetrics(spec: Spec) {
    && spec.behavior.Some? && spec.minReplicas <= 1 && 2 <= spec.maxReplicas
    && spec.behavior.value.up.select != Disabled && spec.UpPolicies() != []
    && forall i :: 0 <= i < |spec.UpPolicies()| ==> spec.UpPolicies()[i].value > 0
  }

  function Ones(n: nat): (s: seq<int>)
    ensures |s| == n
  {
    seq(n, i => 1)
  }

  /** Where a rise from one ends when nothing has happened before. */
  function RiseFromOne(spec: Spec): int
    requires RisesByMetrics(spec)
  {
    Min(spec.maxReplicas, Max(UpLimit(spec.behavior.value.up, Ones(|spec.UpPolicies()|), 1), 1))
  }

  lemma OneCanRise(p: Policy)
    requires p.value > 0
    ensures p.ProposedUp(1) >= 2
  {
  }

  lemma RisesFromOne(spec: Spec)
    requires RisesByMetrics(spec)
    ensures RiseFromOne(spec) >= 2
  {
    var rules, ones := spec.behavior.value.up, Ones(|spec.UpPolicies()|);
    var limits := ProposalsUp(rules.policies, ones);
    forall i | 0 <= i < |limits| ensures limits[i] >= 2 {
      OneCanRise(rules.policies[i]);
    }
    ExtremesBound(limits, MAX_INT32);
    ExtremesBound(limits, MIN_INT32);
    assert limits[0] in limits;
  }

  /** The metrics ask for one, then for the maximum once the window is over, and again when the first rise may be forgotten. */
  function AskedRises(spec: Spec): seq<Step>
    requires spec.behavior.Some?
  {
    var w := spec.behavior.value.up.Window();
    [Reconciled(Some(1), true, 0), Reconciled(Some(spec.maxReplicas), true, w), Edited(1, w),
     Reconciled(Some(spec.maxReplicas), true, w + spec.UpRetention() + 1)]
  }

  /** One count, and a proposal log in which everything inside the rise window asks for the maximum. */
  ghost predicate AskedForMax(s: Scenario, run: Run, now: int)
    requires RisesByMetrics(s.spec)
  {
    && run.replicas == 1 && run.proposals != []
    && (forall e :: e in run.proposals ==> e.value <= s.spec.maxReplicas)
    && (forall e :: e in run.proposals && e.timestamp > now - s.spec.behavior.value.up.Window() ==> e.value == s.spec.maxReplicas)
  }

  lemma AskedRise(s: Scenario, run: Run, now: int)
    requires RisesByMetrics(s.spec) && Faithful(s, run, now) && AskedForMax(s, run, now)
    requires PeriodStarts(s.spec.UpPolicies(), Strip(run.buffers.ups), Strip(run.buffers.downs), 1, now) == Ones(|s.spec.UpPolicies()|)
    ensures
      var after := s.Next(run, Reconciled(Some(s.spec.maxReplicas), true, now));
      && after.replicas == RiseFromOne(s.spec)
      && after.changes == run.changes + [Change(1, RiseFromOne(s.spec), now, true)]
      && after.proposals == run.proposals + [Stamped(s.spec.maxReplicas, now)]
  {
    AskedIsGranted(s, run, now);
    RisesFromOne(s.spec);
    GrantedRise(s, run, now);
  }

  lemma GrantedRise(s: Scenario, run: Run, now: int)
    requires RisesByMetrics(s.spec) && run.replicas == 1 && run.proposals != [] && RiseFromOne(s.spec) >= 2
    requires PeriodStarts(s.spec.UpPolicies(), Strip(run.buffers.ups), Strip(run.buffers.downs), 1, now) == Ones(|s.spec.UpPolicies()|)
    requires StabilizedWithBehaviors(Seeded(run.buffers.recommendations, run.replicas, now), s.spec.behavior.value, 1, s.spec.maxReplicas, now)
          == s.spec.maxReplicas
    ensures
      var after := s.Next(run, Reconciled(Some(s.spec.maxReplicas), true, now));
      && after.replicas == RiseFromOne(s.spec)
      && after.changes == run.changes + [Change(1, RiseFromOne(s.spec), now, true)]
      && after.proposals == run.proposals + [Stamped(s.spec.maxReplicas, now)]
  {
    assert BufferDecision(s.spec, s.window, run.buffers, 1, Some(s.spec.maxReplicas), now) == Some(RiseFromOne(s.spec));
  }

  /** Nothing in the windows holds the maximum back. */
  lemma AskedIsGranted(s: Scenario, run: Run, now: int)
    requires RisesByMetrics(s.spec) && Faithful(s, run, now) && AskedForMax(s, run, now)
    ensures
      var b, max := s.spec.behavior.value, s.spec.maxReplicas;
      StabilizedWithBehaviors(Seeded(run.buffers.recommendations, run.replicas, now), b, 1, max, now) == max
  {
    BehaviorsExact(s, run, s.spec.behavior.value, s.spec.maxReplicas, now);
    LoggedIsGranted(run.proposals, s.spec.behavior.value, s.spec.maxReplicas, now);
  }

  lemma LoggedIsGranted(log: seq<Stamped<int>>, b: Behavior, max: int, now: int)
    requires 1 <= max && forall e :: e in log ==> e.value <= max
    requires forall e :: e in log && e.timestamp > now - b.up.Window() ==> e.value == max
    ensures StabilizedWithBehaviors(log, b, 1, max, now) == max
  {
    NothingBelow(log, now - b.up.Window() + 1, max);
    NothingAbove(log, now - b.down.Window() + 1, max);
  }

  lemma NothingBelow(log: seq<Stamped<int>>, from: int, max: int)
    requires forall e :: e in log && e.timestamp >= from ==> e.value == max
    ensures MinFrom(log, from, max) == max
  {
    MinFromIsMin(log, from, max);
  }

  lemma NothingAbove(log: seq<Stamped<int>>, from: int, max: int)
    requires forall e :: e in log ==> e.value <= max
    ensures MaxFrom(log, from, max) == max
  {
    MaxFromIsMax(log, from, max);
  }

  lemma FirstAsk(s: Scenario)
    requires RisesByMetrics(s.spec) && s.initial == 1
    ensures
      var run := s.Next(s.After([]), Reconciled(Some(1), true, 0));
      && run.replicas == 1 && run.changes == [] && run.proposals == [Stamped(1, 0), Stamped(1, 0)]
      && run.buffers.ups == [] && run.buffers.downs == []
  {
    var b, seeds := s.spec.behavior.value, [Stamped(1, 0)];
    MinFromIsMin(seeds, 0 - b.up.Window() + 1, 1);
    MaxFromIsMax(seeds, 0 - b.down.Window() + 1, 1);
    assert seeds + [Stamped(1, 0)] == [Stamped(1, 0), Stamped(1, 0)];
  }

  /** The events of a run with one rise do not matter to policies whose periods are over. */
  lemma FreshStarts(s: Scenario, ups: seq<Stamped<int>>, now: int)
    requires ups == [] || (|ups| == 1 && ups[0].timestamp < now - s.spec.UpRetention())
    ensures PeriodStarts(s.spec.UpPolicies(), ups, [], 1, now) == Ones(|s.spec.UpPolicies()|)
  {
    forall i | 0 <= i < |s.spec.UpPolicies()|
      ensures PeriodStarts(s.spec.UpPolicies(), ups, [], 1, now)[i] == 1
    {
      PeriodCovered(s.spec.UpPolicies(), i);
      if ups != [] {
        assert ups == [ups[0]] && ups[..0] == [];
      }
    }
  }

  lemma AskedRisesPast(spec: Spec)
    requires spec.behavior.Some?
    ensures
      var steps, w := AskedRises(spec), spec.behavior.value.up.Window();
      Past(steps[..1], w) && Past(steps[..3], SecondTime(spec)) && Past(steps, SecondTime(spec))
  {
    var steps, w := AskedRises(spec), spec.behavior.value.up.Window();
    assert steps[..1][..0] == [];
    assert Past(steps[..1], 0);
    assert steps[..2][..1] == steps[..1];
    assert Past(steps[..2], w);
    assert steps[..3][..2] == steps[..2];
    assert Past(steps[..3], w);
    assert steps[..4] == steps && steps[..4][..3] == steps[..3];
  }

  function SecondTime(spec: Spec): int
    requires spec.behavior.Some?
  {
    spec.behavior.value.up.Window() + spec.UpRetention() + 1
  }

  lemma AskedRisesRun(s: Scenario)
    requires RisesByMetrics(s.spec) && s.initial == 1
    ensures s.After(AskedRises(s.spec)).changes == ThreeChanges(RiseFromOne(s.spec), s.spec.behavior.value.up.Window(), SecondTime(s.spec))
  {
    var steps := AskedRises(s.spec);
    AskedStepByStep(s);
    AskedFaithful(s);
    AskedChanges(s, s.After(steps[..1]), s.After(steps[..2]), s.After(steps[..3]), s.spec.behavior.value.up.Window(), SecondTime(s.spec));
  }

  function ThreeChanges(r: int, first: int, later: int): seq<Change> {
    [Change(1, r, first, true), Change(r, 1, first, false), Change(1, r, later, true)]
  }

  lemma AskedFaithful(s: Scenario)
    requires s.spec.behavior.Some?
    ensures Faithful(s, s.After(AskedRises(s.spec)[..1]), s.spec.behavior.value.up.Window())
    ensures Faithful(s, s.After(AskedRises(s.spec)[..3]), SecondTime(s.spec))
  {
    AskedRisesPast(s.spec);
    RunsAreFaithful(s, AskedRises(s.spec)[..1], s.spec.behavior.value.up.Window());
    RunsAreFaithful(s, AskedRises(s.spec)[..3], SecondTime(s.spec));
  }

  lemma AskedChanges(s: Scenario, one: Run, two: Run, three: Run, w: int, later: int)
    requires RisesByMetrics(s.spec) && s.initial == 1 && w == s.spec.behavior.value.up.Window() && later == SecondTime(s.spec)
    requires one == s.Next(s.After([]), Reconciled(Some(1), true, 0)) && Faithful(s, one, w)
    requires two == s.Next(one, Reconciled(Some(s.spec.maxReplicas), true, w))
    requires three == s.Next(two, Edited(1, w)) && Faithful(s, three, later)
    ensures s.Next(three, Reconciled(Some(s.spec.maxReplicas), true, later)).changes == ThreeChanges(RiseFromOne(s.spec), w, later)
  {
    FirstAsk(s);
    FirstRise(s, one, w);
    AfterEdit(s, two, 1, w);
    assert three.changes == [Change(1, RiseFromOne(s.spec), w, true), Change(RiseFromOne(s.spec), 1, w, false)];
    assert AskedForMax(s, three, later);
    SecondAsk(s, three, RiseFromOne(s.spec), w, later);
  }

  lemma AskedStepByStep(s: Scenario)
    requires s.spec.behavior.Some?
    ensures
      var steps, w, max := AskedRises(s.spec), s.spec.behavior.value.up.Window(), s.spec.maxReplicas;
      && s.After(steps[..1]) == s.Next(s.After([]), Reconciled(Some(1), true, 0))
      && s.After(steps[..2]) == s.Next(s.After(steps[..1]), Reconciled(Some(max), true, w))
      && s.After(steps[..3]) == s.Next(s.After(steps[..2]), Edited(1, w))
      && s.After(steps) == s.Next(s.After(steps[..3]), Reconciled(Some(max), true, SecondTime(s.spec)))
  {
    var steps, w, max := AskedRises(s.spec), s.spec.behavior.value.up.Window(), s.spec.maxReplicas;
    OneMore(s, steps, 0, Reconciled(Some(1), true, 0));
    OneMore(s, steps, 1, Reconciled(Some(max), true, w));
    OneMore(s, steps, 2, Edited(1, w));
    OneMore(s, steps, 3, Reconciled(Some(max), true, SecondTime(s.spec)));
    assert steps[..4] == steps && steps[..0] == [];
  }

  lemma OneMore(s: Scenario, steps: seq<Step>, n: nat, step: Step)
    requires n < |steps| && steps[n] == step
    ensures s.After(steps[..n + 1]) == s.Next(s.After(steps[..n]), step)
  {
    assert steps[..n + 1][..n] == steps[..n];
  }

  lemma FirstRise(s: Scenario, run: Run, w: int)
    requires RisesByMetrics(s.spec) && w == s.spec.behavior.value.up.Window() && Faithful(s, run, w)
    requires run.replicas == 1 && run.changes == [] && run.proposals == [Stamped(1, 0), Stamped(1, 0)]
    requires run.buffers.ups == [] && run.buffers.downs == []
    ensures
      var r := RiseFromOne(s.spec);
      var after := s.Next(run, Reconciled(Some(s.spec.maxReplicas), true, w));
      && r >= 2 && after.replicas == r && after.changes == [Change(1, r, w, true)]
      && after.proposals == [Stamped(1, 0), Stamped(1, 0), Stamped(s.spec.maxReplicas, w)]
  {
    FreshStarts(s, [], w);
    AskedRise(s, run, w);
    RisesFromOne(s.spec);
    assert [Stamped(1, 0), Stamped(1, 0)] + [Stamped(s.spec.maxReplicas, w)] == [Stamped(1, 0), Stamped(1, 0), Stamped(s.spec.maxReplicas, w)];
  }

  lemma AfterEdit(s: Scenario, run: Run, replicas: int, now: int)
    ensures
      var after := s.Next(run, Edited(replicas, now));
      && after.replicas == replicas && after.proposals == run.proposals
      && after.changes == run.changes + [Change(run.replicas, replicas, now, false)]
  {
  }

  lemma SecondAsk(s: Scenario, run: Run, r: int, first: int, later: int)
    requires RisesByMetrics(s.spec) && Faithful(s, run, later) && r == RiseFromOne(s.spec) >= 2
    requires first < later - s.spec.UpRetention() && AskedForMax(s, run, later)
    requires run.changes == [Change(1, r, first, true), Change(r, 1, first, false)]
    ensures s.Next(run, Reconciled(Some(s.spec.maxReplicas), true, later)).changes == run.changes + [Change(1, r, later, true)]
  {
    LogOfTwo(r, first, s.spec.UpRetention());
    assert Strip(run.buffers.downs) == [];
    FreshStarts(s, Strip(run.buffers.ups), later);
    AskedRise(s, run, later);
  }

  lemma LogOfTwo(r: int, first: int, retention: nat)
    requires r > 1
    ensures
      var changes := [Change(1, r, first, true), Change(r, 1, first, false)];
      ChangeLog(changes, false) == [] && BufferOf(ChangeLog(changes, true), retention) == [Stamped(r - 1, first)]
  {
    var c := [Change(1, r, first, true), Change(r, 1, first, false)];
    ChangeLogGrows([], c[0], true);
    ChangeLogGrows([], c[0], false);
    assert [] + [c[0]] == [c[0]];
    ChangeLogGrows([c[0]], c[1], true);
    ChangeLogGrows([c[0]], c[1], false);
    assert c == [c[0]] + [c[1]];
    LogGrows([], Stamped(r - 1, first), retention);
    assert [] + [Stamped(r - 1, first)] == [Stamped(r - 1, first)];
  }

  // ------------------------------------------------------------------ exactly when the drop limits are right

  /** The spec can raise the count: by force, or because the metrics ask for it. */
  predicate CanRise(spec: Spec) {
    spec.behavior.Some? && spec.minReplicas <= spec.maxReplicas && (2 <= spec.minReplicas || RisesByMetrics(spec))
  }

  lemma UncoveredDropWrong(spec: Spec, window: nat, i: nat)
    requires CanRise(spec) && i < |spec.DownPolicies()|
    requires spec.DownPolicies()[i].periodSeconds > LongestPeriod(spec.UpPolicies())
    ensures exists steps: seq<Step>, now: int :: Past(steps, now) && !DownStartsRight(spec, window, 1, steps, now)
  {
    if 2 <= spec.minReplicas {
      ForcedWrong(Scenario(spec, window, 1), i);
    } else {
      AskedWrong(Scenario(spec, window, 1), i);
    }
  }

  lemma ForcedWrong(s: Scenario, i: nat)
    requires 2 <= s.spec.minReplicas <= s.spec.maxReplicas && s.spec.behavior.Some? && i < |s.spec.DownPolicies()|
    requires s.spec.DownPolicies()[i].periodSeconds > LongestPeriod(s.spec.UpPolicies())
    ensures Past(ForcedRises(s.spec), s.spec.UpRetention() + 1)
    ensures !DownStartsRight(s.spec, s.window, s.initial, ForcedRises(s.spec), s.spec.UpRetention() + 1)
  {
    var later := s.spec.UpRetention() + 1;
    assert s.spec.DownPolicies()[i].Period() > later;
    ForcedRisesRun(s);
    LogOfFour(s.initial, s.spec.minReplicas - 1, s.spec.minReplicas, 0, later);
    RepeatedRiseMiscounts(s, ForcedRises(s.spec), 1, 0, later, i);
  }

  lemma AskedWrong(s: Scenario, i: nat)
    requires RisesByMetrics(s.spec) && s.initial == 1 && i < |s.spec.DownPolicies()|
    requires s.spec.DownPolicies()[i].periodSeconds > LongestPeriod(s.spec.UpPolicies())
    ensures Past(AskedRises(s.spec), SecondTime(s.spec))
    ensures !DownStartsRight(s.spec, s.window, s.initial, AskedRises(s.spec), SecondTime(s.spec))
  {
    var w, r := s.spec.behavior.value.up.Window(), RiseFromOne(s.spec);
    assert s.spec.DownPolicies()[i].Period() > s.spec.UpRetention() + 1;
    AskedRisesPast(s.spec);
    AskedRisesRun(s);
    RisesFromOne(s.spec);
    LogOfThree(r, w, SecondTime(s.spec));
    RepeatedRiseMiscounts(s, AskedRises(s.spec), r - 1, w, SecondTime(s.spec), i);
  }

  lemma LogOfThree(r: int, first: int, later: int)
    requires r > 1
    ensures
      var changes := ThreeChanges(r, first, later);
      && ChangeLog(changes, true) == [Stamped(r - 1, first), Stamped(r - 1, later)]
      && ChangeLog(changes, false) == []
  {
    var c := [Change(1, r, first, true), Change(r, 1, first, false), Change(1, r, later, true)];
    ChangeLogGrows([], c[0], true);
    ChangeLogGrows([], c[0], false);
    assert [] + [c[0]] == [c[0]];
    ChangeLogGrows([c[0]], c[1], true);
    ChangeLogGrows([c[0]], c[1], false);
    assert [c[0]] + [c[1]] == [c[0], c[1]];
    ChangeLogGrows([c[0], c[1]], c[2], true);
    ChangeLogGrows([c[0], c[1]], c[2], false);
    assert [c[0], c[1]] + [c[2]] == c;
  }

  /**
   For a spec that can raise the count at all, the drop limits are computed from the true past counts in every
   run exactly if the longest period of the drop policies is no longer than that of the rise policies.
   */
  lemma DownStartsRightIff(spec: Spec, window: nat)
    requires CanRise(spec)
    ensures LongestPeriod(spec.DownPolicies()) <= LongestPeriod(spec.UpPolicies())
      <==> forall initial: int, steps: seq<Step>, now: int :: Past(steps, now) ==> DownStartsRight(spec, window, initial, steps, now)
  {
    if LongestPeriod(spec.DownPolicies()) <= LongestPeriod(spec.UpPolicies()) {
      forall initial: int, steps: seq<Step>, now: int | Past(steps, now)
        ensures DownStartsRight(spec, window, initial, steps, now)
      {
        RunsAreFaithful(Scenario(spec, window, initial), steps, now);
        StartsExact(Scenario(spec, window, initial), Scenario(spec, window, initial).After(steps), spec.DownPolicies(), now);
      }
    } else {
      LongestCovers(spec.DownPolicies());
      var i :| 0 <= i < |spec.DownPolicies()| && spec.DownPolicies()[i].periodSeconds == LongestPeriod(spec.DownPolicies());
      UncoveredDropWrong(spec, window, i);
    }
  }
}
