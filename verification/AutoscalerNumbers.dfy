/**
 What a step of the autoscaler comes to in numbers: how far the policies let the count go from the counts in
 force one period ago, that it goes as far as they let it, and where it ends when they do not matter.
 */
module AutoscalerNumbers {
  import opened Autoscaler
  import opened AutoscalerBounds
  import opened AutoscalerGuarantees
  import opened AutoscalerRuns
  import opened ScaleEvents
  import opened ScalingRules
  import opened SlotBuffers

  // ------------------------------------------------------------------ policies in numbers

  /** Rising to `x` is within the policy: by `value` pods, or by `value` percent of the start, rounded up. */
  predicate WithinRise(p: Policy, start: int, x: int) {
    match p.kind
    case Pods => x <= start + p.value
    case Percent => 100 * (x - 1) < start * (100 + p.value)
  }

  /** Dropping to `x` is within the policy: by `value` pods, or by `value` percent, rounded towards zero. */
  predicate WithinDrop(p: Policy, start: int, x: int) {
    match p.kind
    case Pods => start - p.value <= x
    case Percent =>
      var rest := start * (100 - p.value);
      if rest >= 0 then rest < 100 * (x + 1) else rest <= 100 * x
  }

  /** All policies, or one of them, allow the rise; none is allowed in a disabled direction. */
  ghost predicate RiseAllowed(rules: Rules, starts: seq<int>, x: int)
    requires |starts| == |rules.policies|
  {
    match rules.select
    case Disabled => false
    case MinChange => forall i :: 0 <= i < |starts| ==> WithinRise(rules.policies[i], starts[i], x)
    case MaxChange => exists i :: 0 <= i < |starts| && WithinRise(rules.policies[i], starts[i], x)
  }

  ghost predicate DropAllowed(rules: Rules, starts: seq<int>, x: int)
    requires |starts| == |rules.policies|
  {
    match rules.select
    case Disabled => false
    case MinChange => forall i :: 0 <= i < |starts| ==> WithinDrop(rules.policies[i], starts[i], x)
    case MaxChange => exists i :: 0 <= i < |starts| && WithinDrop(rules.policies[i], starts[i], x)
  }

  lemma CeilingIff(a: int, x: int)
    ensures x <= CeilDiv(a, 100) <==> 100 * (x - 1) < a
  {
  }

  lemma TruncationIff(a: int, x: int)
    ensures TruncDiv(a, 100) <= x <==> if a >= 0 then a < 100 * (x + 1) else a <= 100 * x
  {
  }

  lemma WithinRiseIff(p: Policy, start: int, x: int)
    ensures x <= p.ProposedUp(start) <==> WithinRise(p, start, x)
  {
    CeilingIff(start * (100 + p.value), x);
  }

  lemma WithinDropIff(p: Policy, start: int, x: int)
    ensures p.ProposedDown(start) <= x <==> WithinDrop(p, start, x)
  {
    TruncationIff(start * (100 - p.value), x);
  }

  /** The limit on rises is exactly what is allowed. */
  lemma UpLimitIff(rules: Rules, starts: seq<int>, current: int, x: int)
    requires |starts| == |rules.policies| && current < x && MIN_INT32 < x <= MAX_INT32
    ensures x <= UpLimit(rules, starts, current) <==> RiseAllowed(rules, starts, x)
  {
    var limits := ProposalsUp(rules.policies, starts);
    ExtremesBound(limits, MAX_INT32);
    ExtremesBound(limits, MIN_INT32);
    forall i | 0 <= i < |starts| ensures x <= limits[i] <==> WithinRise(rules.policies[i], starts[i], x) {
      WithinRiseIff(rules.policies[i], starts[i], x);
    }
    forall i | 0 <= i < |limits| ensures limits[i] in limits {
    }
  }

  lemma DownLimitIff(rules: Rules, starts: seq<int>, current: int, x: int)
    requires |starts| == |rules.policies| && x < current && MIN_INT32 <= x < MAX_INT32
    ensures DownLimit(rules, starts, current) <= x <==> DropAllowed(rules, starts, x)
  {
    var limits := ProposalsDown(rules.policies, starts);
    ExtremesBound(limits, MAX_INT32);
    ExtremesBound(limits, MIN_INT32);
    forall i | 0 <= i < |starts| ensures limits[i] <= x <==> WithinDrop(rules.policies[i], starts[i], x) {
      WithinDropIff(rules.policies[i], starts[i], x);
    }
    forall i | 0 <= i < |limits| ensures limits[i] in limits {
    }
  }

  // ------------------------------------------------------------------ behaviors, over runs

  predicate ProperRange(spec: Spec) { 0 <= spec.minReplicas <= spec.maxReplicas <= MAX_INT32 }

  lemma StaysInRange(s: Scenario, run: Run, proposal: Option<int>, updated: bool, now: int)
    requires ProperRange(s.spec) && s.spec.MetricsDecide(run.replicas)
    ensures s.spec.minReplicas <= s.Next(run, Reconciled(proposal, updated, now)).replicas <= s.spec.maxReplicas
  {
    if updated {
      RangeKept(s, run, proposal, now);
    }
  }

  /** Every rise is within the policies, measured from the counts in force one period ago. */
  lemma RiseInNumbers(s: Scenario, steps: seq<Step>, proposal: Option<int>, updated: bool, now: int)
    requires Past(steps, now) && OnlyRecorded(s, steps) && KeepsSign(s.spec.UpPolicies())
    requires ProperRange(s.spec) && BehaviorStep(s, s.After(steps))
    ensures
      var run := s.After(steps);
      var after := s.Next(run, Reconciled(proposal, updated, now)).replicas;
      after > run.replicas ==> RiseAllowed(s.spec.behavior.value.up, s.CountsInForce(steps, s.spec.UpPolicies(), now), after)
  {
    var run := s.After(steps);
    var after := s.Next(run, Reconciled(proposal, updated, now)).replicas;
    RiseWithinPolicies(s, steps, proposal, updated, now);
    StaysInRange(s, run, proposal, updated, now);
    if after > run.replicas {
      UpLimitIff(s.spec.behavior.value.up, s.CountsInForce(steps, s.spec.UpPolicies(), now), run.replicas, after);
    }
  }

  lemma DropInNumbers(s: Scenario, steps: seq<Step>, proposal: Option<int>, updated: bool, now: int)
    requires Past(steps, now) && OnlyRecorded(s, steps) && 0 <= s.initial
    requires ProperRange(s.spec) && BehaviorStep(s, s.After(steps))
    ensures
      var run := s.After(steps);
      var after := s.Next(run, Reconciled(proposal, updated, now)).replicas;
      after < run.replicas ==> DropAllowed(s.spec.behavior.value.down, s.CountsInForce(steps, s.spec.DownPolicies(), now), after)
  {
    var run := s.After(steps);
    var after := s.Next(run, Reconciled(proposal, updated, now)).replicas;
    DropWithinPolicies(s, steps, proposal, updated, now);
    StaysInRange(s, run, proposal, updated, now);
    if after < run.replicas {
      DownLimitIff(s.spec.behavior.value.down, s.CountsInForce(steps, s.spec.DownPolicies(), now), run.replicas, after);
    }
  }

  /** The count that stabilisation asks for, on the complete history of proposals. */
  function Desired(s: Scenario, run: Run, proposal: int, now: int): int
    requires s.spec.behavior.Some?
  {
    StabilizedWithBehaviors(Seeded(run.proposals, run.replicas, now), s.spec.behavior.value, run.replicas, proposal, now)
  }

  /** Where a written step under behaviors ends. */
  lemma BehaviorResult(s: Scenario, run: Run, proposal: int, now: int)
    requires Faithful(s, run, now) && BehaviorStep(s, run) && 0 <= proposal
    ensures
      var b := s.spec.behavior.value;
      var ups := PeriodStarts(b.up.policies, Strip(run.buffers.ups), Strip(run.buffers.downs), run.replicas, now);
      var downs := PeriodStarts(b.down.policies, Strip(run.buffers.ups), Strip(run.buffers.downs), run.replicas, now);
      s.Next(run, Reconciled(Some(proposal), true, now)).replicas
      == WithBehaviorRate(b, run.replicas, Desired(s, run, proposal, now), s.spec.minReplicas, s.spec.maxReplicas, ups, downs)
  {
    BehaviorsExact(s, run, s.spec.behavior.value, proposal, now);
  }

  /** A rise goes as far as desired, as the maximum and as the policies let it. */
  lemma RiseReaches(s: Scenario, steps: seq<Step>, proposal: int, now: int, x: int)
    requires Past(steps, now) && OnlyRecorded(s, steps) && RisesCovered(s.spec) && ProperRange(s.spec) && 0 <= proposal
    requires BehaviorStep(s, s.After(steps))
    requires s.After(steps).replicas < x <= Desired(s, s.After(steps), proposal, now) && x <= s.spec.maxReplicas
    requires RiseAllowed(s.spec.behavior.value.up, s.CountsInForce(steps, s.spec.UpPolicies(), now), x)
    ensures x <= s.Next(s.After(steps), Reconciled(Some(proposal), true, now)).replicas
  {
    var run := s.After(steps);
    RunsAreFaithful(s, steps, now);
    LimitsExact(s, run, now);
    PeriodStartsAreCountsInForce(s, steps, s.spec.UpPolicies(), now);
    UpLimitIff(s.spec.behavior.value.up, s.CountsInForce(steps, s.spec.UpPolicies(), now), run.replicas, x);
    BehaviorResult(s, run, proposal, now);
  }

  lemma DropReaches(s: Scenario, steps: seq<Step>, proposal: int, now: int, x: int)
    requires Past(steps, now) && OnlyRecorded(s, steps) && DropsCovered(s.spec) && ProperRange(s.spec) && 0 <= proposal
    requires BehaviorStep(s, s.After(steps))
    requires Desired(s, s.After(steps), proposal, now) <= x < s.After(steps).replicas && s.spec.minReplicas <= x
    requires DropAllowed(s.spec.behavior.value.down, s.CountsInForce(steps, s.spec.DownPolicies(), now), x)
    ensures s.Next(s.After(steps), Reconciled(Some(proposal), true, now)).replicas <= x
  {
    var run := s.After(steps);
    RunsAreFaithful(s, steps, now);
    LimitsExact(s, run, now);
    PeriodStartsAreCountsInForce(s, steps, s.spec.DownPolicies(), now);
    DownLimitIff(s.spec.behavior.value.down, s.CountsInForce(steps, s.spec.DownPolicies(), now), run.replicas, x);
    BehaviorResult(s, run, proposal, now);
  }

  // ------------------------------------------------------------------ without behaviors

  /** `r` is the greatest of the proposal and everything recorded inside the window, in the complete history. */
  ghost predicate IsPlainWish(s: Scenario, run: Run, proposal: int, now: int, r: int) {
    var log := Seeded(run.proposals, run.replicas, now);
    && proposal <= r
    && (forall e :: e in log && e.timestamp >= now - s.window ==> e.value <= r)
    && (r == proposal || Witnessed(log, now - s.window, r))
  }

  /** A plain step may go to `x`: it is at most the maximum, and at most the doubled count or at most four. */
  predicate HasRoom(spec: Spec, current: int, x: int) {
    x <= spec.maxReplicas && (x <= 2 * current || x <= 4)
  }

  /** A plain step, up or down, ends at what is wished for, or as near to it as there is room and the minimum allows. */
  lemma PlainStepEnds(s: Scenario, steps: seq<Step>, proposal: int, now: int, r: int)
    requires Past(steps, now) && s.spec.behavior == None && ProperRange(s.spec) && 0 <= proposal
    requires s.spec.MetricsDecide(s.After(steps).replicas) && IsPlainWish(s, s.After(steps), proposal, now, r)
    ensures
      var current := s.After(steps).replicas;
      var after := s.Next(s.After(steps), Reconciled(Some(proposal), true, now)).replicas;
      && (r < s.spec.minReplicas ==> after == s.spec.minReplicas)
      && (r >= s.spec.minReplicas && HasRoom(s.spec, current, r) ==> after == r)
      && (r >= s.spec.minReplicas && !HasRoom(s.spec, current, r) ==>
            HasRoom(s.spec, current, after) && !HasRoom(s.spec, current, after + 1) && after < r)
  {
    PlainStepResult(s, steps, proposal, now, r);
    RulesInNumbers(s.spec, s.After(steps).replicas, r);
  }

  lemma PlainStepResult(s: Scenario, steps: seq<Step>, proposal: int, now: int, r: int)
    requires Past(steps, now) && s.spec.behavior == None && 0 <= proposal
    requires s.spec.MetricsDecide(s.After(steps).replicas) && IsPlainWish(s, s.After(steps), proposal, now, r)
    ensures s.Next(s.After(steps), Reconciled(Some(proposal), true, now)).replicas
         == WithRules(s.After(steps).replicas, r, s.spec.minReplicas, s.spec.maxReplicas)
  {
    var run := s.After(steps);
    PlainAsLogged(s, steps, proposal, now);
    WishIsMaximum(Seeded(run.proposals, run.replicas, now), now - s.window, proposal, r);
    PlainResult(s, run, proposal, now);
  }

  lemma RulesInNumbers(spec: Spec, current: int, r: int)
    requires ProperRange(spec) && spec.MetricsDecide(current)
    ensures
      var after := WithRules(current, r, spec.minReplicas, spec.maxReplicas);
      && (r < spec.minReplicas ==> after == spec.minReplicas)
      && (r >= spec.minReplicas && HasRoom(spec, current, r) ==> after == r)
      && (r >= spec.minReplicas && !HasRoom(spec, current, r) ==>
            HasRoom(spec, current, after) && !HasRoom(spec, current, after + 1) && after < r)
  {
  }

  lemma WishIsMaximum(log: seq<Stamped<int>>, from: int, proposal: int, r: int)
    requires proposal <= r && (r == proposal || Witnessed(log, from, r))
    requires forall e :: e in log && e.timestamp >= from ==> e.value <= r
    ensures MaxFrom(log, from, proposal) == r
  {
    MaxFromIsMax(log, from, proposal);
  }

  // ------------------------------------------------------------------ when the metrics do not decide

  /** Out of range the count is brought to the nearer end, a zero count below the minimum stays, and no proposal is recorded. */
  lemma OutOfRangeEnds(s: Scenario, run: Run, proposal: Option<int>, now: int)
    requires ProperRange(s.spec) && 0 <= run.replicas
    ensures
      var after := s.Next(run, Reconciled(proposal, true, now));
      && (run.replicas == 0 && s.spec.minReplicas > 0 ==> after.replicas == 0)
      && (run.replicas > s.spec.maxReplicas ==> after.replicas == s.spec.maxReplicas)
      && (0 < run.replicas < s.spec.minReplicas ==> after.replicas == s.spec.minReplicas)
      && (!s.spec.MetricsDecide(run.replicas) ==> after.proposals == Seeded(run.proposals, run.replicas, now))
  {
  }

  /** Without a proposal, or with a failed write, the count stays, and no change is remembered. */
  lemma NothingWritten(s: Scenario, run: Run, proposal: Option<int>, updated: bool, now: int)
    requires (s.spec.MetricsDecide(run.replicas) && proposal.None?) || !updated
    ensures
      var after := s.Next(run, Reconciled(proposal, updated, now));
      && after.replicas == run.replicas && after.changes == run.changes
      && after.buffers.ups == run.buffers.ups && after.buffers.downs == run.buffers.downs
  {
  }
}
