/**
 Rate bounds over whole runs. Lost events of the other direction can only make a limit stricter, so the
 bounds hold for every combination of policies, whether or not the limits are computed from exact counts.
 */
module AutoscalerBounds {
  import opened Autoscaler
  import opened AutoscalerGuarantees
  import opened AutoscalerRuns
  import opened ScaleEvents
  import opened ScalingRules
  import opened SlotBuffers

  // ------------------------------------------------------------------ which way the period starts err

  lemma {:induction false} LogNotNegative(changes: seq<Change>, up: bool, e: Stamped<int>)
    requires e in ChangeLog(changes, up)
    ensures e.value >= 0
  {
    if changes != [] {
      var n := |changes| - 1;
      var rest := ChangeLog(changes[..n], up);
      if e in rest {
        LogNotNegative(changes[..n], up, e);
      }
    }
  }

  /** What a buffer adds up to over any period is at most what was recorded. */
  lemma EventSumAtMost(events: seq<ScaleEvent>, changes: seq<Change>, up: bool, retention: nat, from: int, now: int)
    requires FaithfulEvents(events, ChangeLog(changes, up), retention, now)
    ensures SumFrom(Strip(events), from) <= SumFrom(ChangeLog(changes, up), from)
  {
    forall e | e in ChangeLog(changes, up) ensures e.value >= 0 {
      LogNotNegative(changes, up, e);
    }
    SumAtMost(ChangeLog(changes, up), retention, from);
  }

  lemma OneStart(s: Scenario, run: Run, period: nat, now: int)
    requires Faithful(s, run, now)
    ensures
      var start := PeriodStart(Strip(run.buffers.ups), Strip(run.buffers.downs), run.replicas, period, now);
      var truth := CountAt(s.initial, run.changes, now - period) + NetUnrecorded(run.changes, now - period);
      && (period <= s.spec.UpRetention() ==> start <= truth)
      && (period <= s.spec.DownRetention() ==> truth <= start)
  {
    Telescope(s.initial, run.changes, run.replicas, now - period, now);
    EventSumAtMost(run.buffers.ups, run.changes, true, s.spec.UpRetention(), now - period + 1, now);
    EventSumAtMost(run.buffers.downs, run.changes, false, s.spec.DownRetention(), now - period + 1, now);
    if period <= s.spec.UpRetention() {
      EventSum(run.buffers.ups, run.changes, true, s.spec.UpRetention(), period, now);
    }
    if period <= s.spec.DownRetention() {
      EventSum(run.buffers.downs, run.changes, false, s.spec.DownRetention(), period, now);
    }
  }

  /** Rises start from counts that are at most the true ones, drops from counts that are at least the true ones. */
  lemma StartsErrSafely(s: Scenario, run: Run, now: int)
    requires Faithful(s, run, now)
    ensures
      var ups, downs := Strip(run.buffers.ups), Strip(run.buffers.downs);
      var rises, drops := s.spec.UpPolicies(), s.spec.DownPolicies();
      && AtMost(PeriodStarts(rises, ups, downs, run.replicas, now), TrueStarts(rises, s.initial, run.changes, now))
      && AtMost(TrueStarts(drops, s.initial, run.changes, now), PeriodStarts(drops, ups, downs, run.replicas, now))
  {
    RisesStartLow(s, run, s.spec.UpPolicies(), now);
    DropsStartHigh(s, run, s.spec.DownPolicies(), now);
  }

  lemma RisesStartLow(s: Scenario, run: Run, rises: seq<Policy>, now: int)
    requires Faithful(s, run, now) && LongestPeriod(rises) * SECOND <= s.spec.UpRetention()
    ensures AtMost(PeriodStarts(rises, Strip(run.buffers.ups), Strip(run.buffers.downs), run.replicas, now),
                   TrueStarts(rises, s.initial, run.changes, now))
  {
    var starts := PeriodStarts(rises, Strip(run.buffers.ups), Strip(run.buffers.downs), run.replicas, now);
    forall i | 0 <= i < |rises| ensures starts[i] <= TrueStarts(rises, s.initial, run.changes, now)[i] {
      PeriodCovered(rises, i);
      OneStart(s, run, rises[i].Period(), now);
    }
  }

  lemma DropsStartHigh(s: Scenario, run: Run, drops: seq<Policy>, now: int)
    requires Faithful(s, run, now) && LongestPeriod(drops) * SECOND <= s.spec.DownRetention()
    ensures AtMost(TrueStarts(drops, s.initial, run.changes, now),
                   PeriodStarts(drops, Strip(run.buffers.ups), Strip(run.buffers.downs), run.replicas, now))
  {
    var starts := PeriodStarts(drops, Strip(run.buffers.ups), Strip(run.buffers.downs), run.replicas, now);
    forall i | 0 <= i < |drops| ensures TrueStarts(drops, s.initial, run.changes, now)[i] <= starts[i] {
      PeriodCovered(drops, i);
      OneStart(s, run, drops[i].Period(), now);
    }
  }

  // ------------------------------------------------------------------ never bolder than the full history

  ghost predicate NotNegative(starts: seq<int>) {
    forall i :: 0 <= i < |starts| ==> starts[i] >= 0
  }

  /** No true past count is negative. */
  ghost predicate DropsMeasurable(s: Scenario, run: Run, now: int) {
    && 0 <= s.spec.minReplicas
    && NotNegative(TrueStarts(s.spec.DownPolicies(), s.initial, run.changes, now))
  }

  /**
   Without any assumption on the periods: where the controller raises or lowers the count, the decision on the
   complete history would go at least as far.
   */
  lemma NeverBolderThanHistory(s: Scenario, steps: seq<Step>, proposal: Option<int>, now: int)
    requires Past(steps, now)
    ensures
      var run := s.After(steps);
      var lossy := BufferDecision(s.spec, s.window, run.buffers, run.replicas, proposal, now);
      var full := s.HistoryDecision(run, proposal, now);
      && (lossy.None? <==> full.None?)
      && (KeepsSign(s.spec.UpPolicies()) && Above(lossy, run.replicas) ==> lossy.value <= full.value)
      && (DropsMeasurable(s, run, now) && Below(lossy, run.replicas) ==> full.value <= lossy.value)
  {
    RunsAreFaithful(s, steps, now);
    FaithfulNeverBolder(s, s.After(steps), proposal, now);
  }

  lemma FaithfulNeverBolder(s: Scenario, run: Run, proposal: Option<int>, now: int)
    requires Faithful(s, run, now)
    ensures
      var lossy := BufferDecision(s.spec, s.window, run.buffers, run.replicas, proposal, now);
      var full := s.HistoryDecision(run, proposal, now);
      && (lossy.None? <==> full.None?)
      && (KeepsSign(s.spec.UpPolicies()) && Above(lossy, run.replicas) ==> lossy.value <= full.value)
      && (DropsMeasurable(s, run, now) && Below(lossy, run.replicas) ==> full.value <= lossy.value)
  {
    if s.spec.behavior.None? {
      FaithfulDecision(s, run, proposal, now);
    } else if proposal.Some? && s.spec.MetricsDecide(run.replicas) {
      var b, p := s.spec.behavior.value, Max(proposal.value, 0);
      BehaviorsExact(s, run, b, p, now);
      LimitsErrSafely(s, run, now);
      RatesErrSafely(b, run.replicas, StabilizedWithBehaviors(Seeded(run.proposals, run.replicas, now), b, run.replicas, p, now),
                     s.spec.minReplicas, s.spec.maxReplicas,
                     PeriodStarts(b.up.policies, Strip(run.buffers.ups), Strip(run.buffers.downs), run.replicas, now),
                     PeriodStarts(b.down.policies, Strip(run.buffers.ups), Strip(run.buffers.downs), run.replicas, now),
                     TrueStarts(b.up.policies, s.initial, run.changes, now), TrueStarts(b.down.policies, s.initial, run.changes, now));
    }
  }

  /** With limits that are no farther away, a step goes no farther. */
  lemma RatesErrSafely(b: Behavior, current: int, desired: int, min: int, max: int,
                       ups: seq<int>, downs: seq<int>, trueUps: seq<int>, trueDowns: seq<int>)
    requires |ups| == |trueUps| == |b.up.policies| && |downs| == |trueDowns| == |b.down.policies|
    requires min <= current <= max
    ensures
      var lossy := WithBehaviorRate(b, current, desired, min, max, ups, downs);
      var full := WithBehaviorRate(b, current, desired, min, max, trueUps, trueDowns);
      && (UpLimit(b.up, ups, current) <= UpLimit(b.up, trueUps, current) && lossy > current ==> lossy <= full)
      && (0 <= min && Max(0, DownLimit(b.down, trueDowns, current)) <= Max(0, DownLimit(b.down, downs, current)) && lossy < current
          ==> full <= lossy)
  {
  }

  /** The limits computed from the buffers are at most as far from the current count as the true ones. */
  lemma LimitsErrSafely(s: Scenario, run: Run, now: int)
    requires Faithful(s, run, now) && s.spec.behavior.Some?
    ensures
      var b := s.spec.behavior.value;
      var ups, downs := Strip(run.buffers.ups), Strip(run.buffers.downs);
      var trueDrops := TrueStarts(b.down.policies, s.initial, run.changes, now);
      && (KeepsSign(b.up.policies) ==>
            UpLimit(b.up, PeriodStarts(b.up.policies, ups, downs, run.replicas, now), run.replicas)
            <= UpLimit(b.up, TrueStarts(b.up.policies, s.initial, run.changes, now), run.replicas))
      && (NotNegative(trueDrops) ==>
            Max(0, DownLimit(b.down, trueDrops, run.replicas))
            <= Max(0, DownLimit(b.down, PeriodStarts(b.down.policies, ups, downs, run.replicas, now), run.replicas)))
  {
    var b := s.spec.behavior.value;
    var ups, downs := Strip(run.buffers.ups), Strip(run.buffers.downs);
    StartsErrSafely(s, run, now);
    if KeepsSign(b.up.policies) {
      UpLimitMonotone(b.up, PeriodStarts(b.up.policies, ups, downs, run.replicas, now),
                      TrueStarts(b.up.policies, s.initial, run.changes, now), run.replicas);
    }
    var trueDrops := TrueStarts(b.down.policies, s.initial, run.changes, now);
    if NotNegative(trueDrops) {
      DownLimitMonotone(b.down, trueDrops, PeriodStarts(b.down.policies, ups, downs, run.replicas, now), run.replicas);
    }
  }

  // ------------------------------------------------------------------ rate bounds

  /** A rise ends at or below the selected policy limit on the counts in force one period ago. */
  lemma RiseWithinPolicies(s: Scenario, steps: seq<Step>, proposal: Option<int>, updated: bool, now: int)
    requires Past(steps, now) && OnlyRecorded(s, steps) && KeepsSign(s.spec.UpPolicies())
    requires BehaviorStep(s, s.After(steps))
    ensures
      var run := s.After(steps);
      var after := s.Next(run, Reconciled(proposal, updated, now)).replicas;
      after > run.replicas ==>
        after <= UpLimit(s.spec.behavior.value.up, s.CountsInForce(steps, s.spec.UpPolicies(), now), run.replicas)
  {
    RunsAreFaithful(s, steps, now);
    LimitsErrSafely(s, s.After(steps), now);
    PeriodStartsAreCountsInForce(s, steps, s.spec.UpPolicies(), now);
    RiseStops(s, s.After(steps), proposal, updated, now);
  }

  /** A rise ends at or below the limit computed from the buffers. */
  lemma RiseStops(s: Scenario, run: Run, proposal: Option<int>, updated: bool, now: int)
    requires BehaviorStep(s, run)
    ensures
      var after := s.Next(run, Reconciled(proposal, updated, now)).replicas;
      var starts := PeriodStarts(s.spec.UpPolicies(), Strip(run.buffers.ups), Strip(run.buffers.downs), run.replicas, now);
      after > run.replicas ==> after <= UpLimit(s.spec.behavior.value.up, starts, run.replicas)
  {
  }

  /** A drop ends at or above the selected policy limit on the counts in force one period ago. */
  lemma DropWithinPolicies(s: Scenario, steps: seq<Step>, proposal: Option<int>, updated: bool, now: int)
    requires Past(steps, now) && OnlyRecorded(s, steps)
    requires 0 <= s.initial && 0 <= s.spec.minReplicas <= s.spec.maxReplicas
    requires BehaviorStep(s, s.After(steps))
    ensures
      var run := s.After(steps);
      var after := s.Next(run, Reconciled(proposal, updated, now)).replicas;
      after < run.replicas ==>
        after >= DownLimit(s.spec.behavior.value.down, s.CountsInForce(steps, s.spec.DownPolicies(), now), run.replicas)
  {
    var run := s.After(steps);
    RunsAreFaithful(s, steps, now);
    PeriodStartsAreCountsInForce(s, steps, s.spec.DownPolicies(), now);
    CountsNotNegative(s, steps, s.spec.DownPolicies(), now);
    LimitsErrSafely(s, run, now);
    DropStops(s, run, proposal, updated, now);
  }

  /** A drop ends at or above the limit computed from the buffers, and is not negative. */
  lemma DropStops(s: Scenario, run: Run, proposal: Option<int>, updated: bool, now: int)
    requires 0 <= s.spec.minReplicas && BehaviorStep(s, run)
    ensures
      var after := s.Next(run, Reconciled(proposal, updated, now)).replicas;
      var starts := PeriodStarts(s.spec.DownPolicies(), Strip(run.buffers.ups), Strip(run.buffers.downs), run.replicas, now);
      after < run.replicas ==> after >= Max(0, DownLimit(s.spec.behavior.value.down, starts, run.replicas))
  {
  }

  lemma CountsNotNegative(s: Scenario, steps: seq<Step>, policies: seq<Policy>, now: int)
    requires 0 <= s.initial && 0 <= s.spec.minReplicas <= s.spec.maxReplicas
    requires forall i :: 0 <= i < |steps| ==> steps[i].Reconciled?
    ensures NotNegative(s.CountsInForce(steps, policies, now))
  {
    forall i | 0 <= i < |policies| ensures s.CountsInForce(steps, policies, now)[i] >= 0 {
      UntilIsPrefix(steps, now - policies[i].Period());
      CountNotNegative(s, Until(steps, now - policies[i].Period()));
    }
  }

  lemma {:induction false} UntilIsPrefix(steps: seq<Step>, t: int)
    ensures Until(steps, t) <= steps
  {
    if steps != [] && steps[|steps| - 1].now > t {
      UntilIsPrefix(steps[..|steps| - 1], t);
    }
  }

  /** The count never becomes negative by itself. */
  lemma {:induction false} CountNotNegative(s: Scenario, steps: seq<Step>)
    requires 0 <= s.initial && 0 <= s.spec.minReplicas <= s.spec.maxReplicas
    requires forall i :: 0 <= i < |steps| ==> steps[i].Reconciled?
    ensures s.After(steps).replicas >= 0
  {
    if steps != [] {
      var n := |steps| - 1;
      CountNotNegative(s, steps[..n]);
      RangeKept(s, s.After(steps[..n]), steps[n].proposal, steps[n].now);
    }
  }
}
