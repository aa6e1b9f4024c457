/**
 Whole runs of the autoscaler on one key. Next to the controller's own buffers a run carries the
 complete history: every proposal ever recorded and every change of the replica count. The main
 theorem is that the controller, for all its overwriting, decides exactly as if it kept everything.
 */
module AutoscalerRuns {
  import opened Autoscaler
  import opened ScaleEvents
  import opened ScalingRules
  import opened SlotBuffers

  /** A change of the replica count; `recorded` if the controller (still) remembers it as a scale event. */
  datatype Change = Change(before: int, after: int, timestamp: int, recorded: bool)

  /** A reconcile, an edit of the count by someone else, or the controller losing its memory of the key. */
  datatype Step =
    | Reconciled(proposal: Option<int>, updated: bool, now: int)
    | Edited(replicas: int, now: int)
    | Forgotten(now: int)

  datatype Run = Run(buffers: Buffers, replicas: int, proposals: seq<Stamped<int>>, changes: seq<Change>)

  function Unrecorded(changes: seq<Change>): seq<Change> {
    seq(|changes|, i requires 0 <= i < |changes| => changes[i].(recorded := false))
  }

  /** A fixed spec and controller window, and the replica count at the start. */
  datatype Scenario = Scenario(spec: Spec, window: nat, initial: int) {

    function Next(run: Run, step: Step): Run {
      match step
      case Edited(replicas, now) =>
        run.(replicas := replicas, changes := run.changes + [Change(run.replicas, replicas, now, false)])
      case Forgotten(now) =>
        run.(buffers := Buffers([], [], []), proposals := [], changes := Unrecorded(run.changes))
      case Reconciled(proposal, updated, now) =>
        var (b, replicas) := Reconcile(spec, window, run.buffers, run.replicas, proposal, updated, now);
        Run(b, replicas, Proposed(run, proposal, now),
            if replicas == run.replicas then run.changes
            else run.changes + [Change(run.replicas, replicas, now, spec.behavior.Some?)])
    }

    /** The log of proposals, the initial count being the first. */
    function Proposed(run: Run, proposal: Option<int>, now: int): seq<Stamped<int>> {
      var seeded := Seeded(run.proposals, run.replicas, now);
      if spec.MetricsDecide(run.replicas) && proposal.Some? then seeded + [Stamped(Max(proposal.value, 0), now)]
      else seeded
    }

    function After(steps: seq<Step>): Run {
      if steps == [] then Run(Buffers([], [], []), initial, [], [])
      else Next(After(steps[..|steps| - 1]), steps[|steps| - 1])
    }

    /** What the decision would be with the whole history at hand. */
    ghost function HistoryDecision(run: Run, proposal: Option<int>, now: int): Option<int> {
      Decide(spec, window, Seeded(run.proposals, run.replicas, now),
             TrueStarts(spec.UpPolicies(), initial, run.changes, now),
             TrueStarts(spec.DownPolicies(), initial, run.changes, now),
             run.replicas, proposal, now)
    }

    /** The replica count in force at time `t`: that of the run cut off at `t`. */
    function CountInForce(steps: seq<Step>, t: int): int {
      After(Until(steps, t)).replicas
    }

    function CountsInForce(steps: seq<Step>, policies: seq<Policy>, now: int): (counts: seq<int>)
      ensures |counts| == |policies|
    {
      seq(|policies|, i requires 0 <= i < |policies| => CountInForce(steps, now - policies[i].Period()))
    }
  }

  /** The steps taken by time `t`. */
  function Until(steps: seq<Step>, t: int): seq<Step> {
    if steps == [] || steps[|steps| - 1].now <= t then steps else Until(steps[..|steps| - 1], t)
  }

  /** The steps are in chronological order and have all happened by `now`. */
  ghost predicate Past(steps: seq<Step>, now: int) {
    steps != [] ==>
      var last := steps[|steps| - 1];
      last.now <= now && Past(steps[..|steps| - 1], last.now)
  }

  /**
   The direction asks only for periods that the other direction's buffer still answers, too. Both limit
   calculations read both buffers, and each buffer is cleaned by its own direction's longest period.
   */
  predicate Covered(rules: Rules, other: Rules) {
    rules.select == Disabled || LongestPeriod(rules.policies) <= LongestPeriod(other.policies)
  }

  predicate RisesCovered(spec: Spec) {
    spec.behavior.Some? ==> Covered(spec.behavior.value.up, spec.behavior.value.down)
  }

  predicate DropsCovered(spec: Spec) {
    spec.behavior.Some? ==> Covered(spec.behavior.value.down, spec.behavior.value.up)
  }

  // ------------------------------------------------------------------ the history of the count

  ghost predicate InOrder(changes: seq<Change>, now: int) {
    changes != [] ==>
      var last := changes[|changes| - 1];
      last.timestamp <= now && InOrder(changes[..|changes| - 1], last.timestamp)
  }

  /** The changes lead from the initial count to the current one. */
  ghost predicate Chained(initial: int, changes: seq<Change>, current: int) {
    if changes == [] then initial == current
    else
      var last := changes[|changes| - 1];
      last.after == current && Chained(initial, changes[..|changes| - 1], last.before)
  }

  /** The recorded changes of one direction, as amounts. */
  ghost function ChangeLog(changes: seq<Change>, up: bool): seq<Stamped<int>> {
    if changes == [] then []
    else
      var rest := ChangeLog(changes[..|changes| - 1], up);
      var c := changes[|changes| - 1];
      if c.recorded && up == (c.after > c.before) then
        rest + [Stamped(if up then c.after - c.before else c.before - c.after, c.timestamp)]
      else rest
  }

  ghost function CountAt(initial: int, changes: seq<Change>, t: int): int {
    if changes == [] then initial
    else if changes[|changes| - 1].timestamp <= t then changes[|changes| - 1].after
    else CountAt(initial, changes[..|changes| - 1], t)
  }

  /** The net effect, since `t`, of the changes the controller does not remember. */
  ghost function NetUnrecorded(changes: seq<Change>, t: int): int {
    if changes == [] then 0
    else
      var c := changes[|changes| - 1];
      NetUnrecorded(changes[..|changes| - 1], t) + if !c.recorded && c.timestamp > t then c.after - c.before else 0
  }

  ghost function TrueStarts(policies: seq<Policy>, initial: int, changes: seq<Change>, now: int): (starts: seq<int>)
    ensures |starts| == |policies|
  {
    seq(|policies|, i requires 0 <= i < |policies| =>
      CountAt(initial, changes, now - policies[i].Period()) + NetUnrecorded(changes, now - policies[i].Period()))
  }

  lemma {:induction false} ChangeLogOrdered(changes: seq<Change>, up: bool, now: int)
    requires InOrder(changes, now)
    ensures Chronicle(ChangeLog(changes, up), now)
  {
    if changes != [] {
      var n := |changes| - 1;
      ChangeLogOrdered(changes[..n], up, changes[n].timestamp);
      var rest, log := ChangeLog(changes[..n], up), ChangeLog(changes, up);
      if log != rest {
        assert log[..|log| - 1] == rest;
      }
    }
  }

  /** What happened by `t` does not count towards the sum since then. */
  lemma {:induction false} NothingSince(changes: seq<Change>, up: bool, t: int)
    requires InOrder(changes, t)
    ensures SumFrom(ChangeLog(changes, up), t + 1) == 0
    ensures NetUnrecorded(changes, t) == 0
  {
    if changes != [] {
      var n := |changes| - 1;
      NothingSince(changes[..n], up, t);
      SumAppended(changes, up, t);
    }
  }

  lemma SumAppended(changes: seq<Change>, up: bool, t: int)
    requires changes != []
    ensures
      var c := changes[|changes| - 1];
      SumFrom(ChangeLog(changes, up), t + 1) == SumFrom(ChangeLog(changes[..|changes| - 1], up), t + 1)
        + if c.recorded && up == (c.after > c.before) && c.timestamp > t then
            if up then c.after - c.before else c.before - c.after
          else 0
  {
    var rest := ChangeLog(changes[..|changes| - 1], up);
    var log := ChangeLog(changes, up);
    if log != rest {
      assert log[..|log| - 1] == rest;
    }
  }

  /** Undoing the recorded changes since `t` gives the count at `t`, off by the unrecorded ones. */
  lemma {:induction false} Telescope(initial: int, changes: seq<Change>, current: int, t: int, now: int)
    requires InOrder(changes, now) && Chained(initial, changes, current)
    ensures current - SumFrom(ChangeLog(changes, true), t + 1) + SumFrom(ChangeLog(changes, false), t + 1)
         == CountAt(initial, changes, t) + NetUnrecorded(changes, t)
  {
    if changes != [] {
      var n := |changes| - 1;
      if changes[n].timestamp <= t {
        NothingSince(changes, true, t);
        NothingSince(changes, false, t);
      } else {
        Telescope(initial, changes[..n], changes[n].before, t, now);
        SumAppended(changes, true, t);
        SumAppended(changes, false, t);
      }
    }
  }

  lemma {:induction false} ForgetChanges(initial: int, changes: seq<Change>, current: int, t: int)
    ensures ChangeLog(Unrecorded(changes), true) == ChangeLog(Unrecorded(changes), false) == []
    ensures InOrder(Unrecorded(changes), t) == InOrder(changes, t)
    ensures CountAt(initial, Unrecorded(changes), t) == CountAt(initial, changes, t)
    ensures Chained(initial, Unrecorded(changes), current) == Chained(initial, changes, current)
  {
    if changes != [] {
      var n := |changes| - 1;
      ForgetChanges(initial, changes[..n], changes[n].before, t);
      assert Unrecorded(changes)[..n] == Unrecorded(changes[..n]);
    }
  }

  // ------------------------------------------------------------------ buffers stand for the history

  ghost predicate FaithfulProposals(s: Scenario, buffer: seq<Stamped<int>>, log: seq<Stamped<int>>, now: int) {
    buffer == BufferOf(log, s.spec.Memory(s.window)) && Chronicle(log, now)
  }

  ghost predicate FaithfulEvents(events: seq<ScaleEvent>, log: seq<Stamped<int>>, retention: nat, now: int) {
    Strip(events) == BufferOf(log, retention) && FlagsBefore(events, now - retention)
  }

  ghost predicate FaithfulHistory(s: Scenario, run: Run, now: int) {
    InOrder(run.changes, now) && Chained(s.initial, run.changes, run.replicas)
  }

  /** The buffers are what writing the whole history into them leaves. */
  ghost predicate Faithful(s: Scenario, run: Run, now: int) {
    && FaithfulProposals(s, run.buffers.recommendations, run.proposals, now)
    && FaithfulEvents(run.buffers.ups, ChangeLog(run.changes, true), s.spec.UpRetention(), now)
    && FaithfulEvents(run.buffers.downs, ChangeLog(run.changes, false), s.spec.DownRetention(), now)
    && FaithfulHistory(s, run, now)
  }

  lemma SeededStaysFaithful(s: Scenario, run: Run, before: int, now: int)
    requires FaithfulProposals(s, run.buffers.recommendations, run.proposals, before) && before <= now
    ensures FaithfulProposals(s, Seeded(run.buffers.recommendations, run.replicas, now),
                              Seeded(run.proposals, run.replicas, now), now)
  {
    if run.proposals == [] {
      LogGrows([], Stamped(run.replicas, now), s.spec.Memory(s.window));
      assert [] + [Stamped(run.replicas, now)] == [Stamped(run.replicas, now)];
    }
  }

  lemma RecordStaysFaithful(s: Scenario, buffer: seq<Stamped<int>>, log: seq<Stamped<int>>, entry: Stamped<int>)
    requires FaithfulProposals(s, buffer, log, entry.timestamp)
    ensures FaithfulProposals(s, Recorded(buffer, entry.timestamp - s.spec.Memory(s.window), entry), log + [entry], entry.timestamp)
  {
    LogGrows(log, entry, s.spec.Memory(s.window));
  }

  lemma ProposalsStayFaithful(s: Scenario, run: Run, before: int, proposal: Option<int>, now: int)
    requires FaithfulProposals(s, run.buffers.recommendations, run.proposals, before) && before <= now
    ensures FaithfulProposals(s, WithProposal(s.spec, s.window, run.buffers, run.replicas, proposal, now).recommendations,
                              s.Proposed(run, proposal, now), now)
  {
    SeededStaysFaithful(s, run, before, now);
    RememberedStaysFaithful(s, Seeded(run.buffers.recommendations, run.replicas, now), Seeded(run.proposals, run.replicas, now),
                            run.replicas, proposal, now);
  }

  lemma RememberedStaysFaithful(s: Scenario, buffer: seq<Stamped<int>>, log: seq<Stamped<int>>, current: int, proposal: Option<int>, now: int)
    requires FaithfulProposals(s, buffer, log, now)
    ensures FaithfulProposals(s, Remembered(s.spec, s.window, buffer, current, proposal, now),
                              if s.spec.MetricsDecide(current) && proposal.Some? then log + [Stamped(Max(proposal.value, 0), now)] else log, now)
  {
    if s.spec.MetricsDecide(current) && proposal.Some? {
      RecordStaysFaithful(s, buffer, log, Stamped(Max(proposal.value, 0), now));
    }
  }

  lemma HistoryGrows(s: Scenario, run: Run, before: int, replicas: int, recorded: bool, now: int)
    requires FaithfulHistory(s, run, before) && before <= now
    ensures
      var changes := run.changes + [Change(run.replicas, replicas, now, recorded)];
      && InOrder(changes, now)
      && Chained(s.initial, changes, replicas)
  {
    var changes := run.changes + [Change(run.replicas, replicas, now, recorded)];
    assert changes[..|changes| - 1] == run.changes;
  }

  lemma ChangeLogGrows(changes: seq<Change>, c: Change, up: bool)
    ensures ChangeLog(changes + [c], up) == ChangeLog(changes, up) +
      if c.recorded && up == (c.after > c.before) then
        [Stamped(if up then c.after - c.before else c.before - c.after, c.timestamp)]
      else []
  {
    assert (changes + [c])[..|changes|] == changes;
  }

  /** One stored event keeps a buffer of events faithful to its log. */
  lemma StoreStaysFaithful(events: seq<ScaleEvent>, log: seq<Stamped<int>>, retention: nat, before: int, amount: int, now: int)
    requires FaithfulEvents(events, log, retention, before) && before <= now
    ensures FaithfulEvents(Stored(events, now - retention, amount, now), log + [Stamped(amount, now)], retention, now)
  {
    StoredIsRecorded(events, before - retention, now - retention, amount, now);
    RecordedFollowsLog(Stored(events, now - retention, amount, now), events, log, retention, Stamped(amount, now));
  }

  lemma RecordedFollowsLog(stored: seq<ScaleEvent>, events: seq<ScaleEvent>, log: seq<Stamped<int>>, retention: nat, entry: Stamped<int>)
    requires Strip(stored) == Recorded(Strip(events), entry.timestamp - retention, entry)
    requires FlagsBefore(stored, entry.timestamp - retention) && Strip(events) == BufferOf(log, retention)
    ensures FaithfulEvents(stored, log + [entry], retention, entry.timestamp)
  {
    LogGrows(log, entry, retention);
  }

  lemma EventsLater(events: seq<ScaleEvent>, log: seq<Stamped<int>>, retention: nat, before: int, now: int)
    requires FaithfulEvents(events, log, retention, before) && before <= now
    ensures FaithfulEvents(events, log, retention, now)
  {}

  predicate Concerns(up: bool, c: Change) { c.recorded && up == (c.after > c.before) }

  function Amount(up: bool, c: Change): int { if up then c.after - c.before else c.before - c.after }

  /** The events of one direction after a change that may or may not concern them. */
  ghost function NotedIn(events: seq<ScaleEvent>, up: bool, retention: nat, c: Change): seq<ScaleEvent> {
    if Concerns(up, c) then Stored(events, c.timestamp - retention, Amount(up, c), c.timestamp)
    else events
  }

  /** And their log. */
  ghost function GrownLog(log: seq<Stamped<int>>, up: bool, c: Change): seq<Stamped<int>> {
    if Concerns(up, c) then log + [Stamped(Amount(up, c), c.timestamp)] else log
  }

  lemma ChangeLogIsGrown(changes: seq<Change>, c: Change, up: bool)
    ensures ChangeLog(changes + [c], up) == GrownLog(ChangeLog(changes, up), up, c)
  {
    ChangeLogGrows(changes, c, up);
  }

  lemma DirectionStaysFaithful(events: seq<ScaleEvent>, changes: seq<Change>, up: bool, retention: nat, before: int, c: Change)
    requires FaithfulEvents(events, ChangeLog(changes, up), retention, before) && before <= c.timestamp
    ensures FaithfulEvents(NotedIn(events, up, retention, c), ChangeLog(changes + [c], up), retention, c.timestamp)
  {
    ChangeLogIsGrown(changes, c, up);
    NotedStaysFaithful(events, ChangeLog(changes, up), up, retention, before, c);
  }

  lemma NotedStaysFaithful(events: seq<ScaleEvent>, log: seq<Stamped<int>>, up: bool, retention: nat, before: int, c: Change)
    requires FaithfulEvents(events, log, retention, before) && before <= c.timestamp
    ensures FaithfulEvents(NotedIn(events, up, retention, c), GrownLog(log, up, c), retention, c.timestamp)
  {
    if Concerns(up, c) {
      StoreStaysFaithful(events, log, retention, before, Amount(up, c), c.timestamp);
      assert NotedIn(events, up, retention, c) == Stored(events, c.timestamp - retention, Amount(up, c), c.timestamp);
      assert GrownLog(log, up, c) == log + [Stamped(Amount(up, c), c.timestamp)];
    } else {
      EventsLater(events, log, retention, before, c.timestamp);
    }
  }

  lemma NotedByDirection(s: Scenario, b: Buffers, c: Change)
    requires c.recorded == s.spec.behavior.Some?
    ensures Noted(s.spec, b, c.before, c.after, c.timestamp)
         == Buffers(b.recommendations, NotedIn(b.ups, true, s.spec.UpRetention(), c),
                    NotedIn(b.downs, false, s.spec.DownRetention(), c))
  {}

  lemma NextStaysFaithful(s: Scenario, run: Run, step: Step, before: int)
    requires Faithful(s, run, before) && before <= step.now
    ensures Faithful(s, s.Next(run, step), step.now)
  {
    match step
    case Edited(replicas, now) =>
      HistoryGrows(s, run, before, replicas, false, now);
      ChangeLogGrows(run.changes, Change(run.replicas, replicas, now, false), true);
      ChangeLogGrows(run.changes, Change(run.replicas, replicas, now, false), false);
    case Forgotten(now) =>
      ForgetChanges(s.initial, run.changes, run.replicas, now);
    case Reconciled(proposal, updated, now) =>
      ReconcileStaysFaithful(s, run, before, proposal, updated, now);
  }

  lemma ReconcileStaysFaithful(s: Scenario, run: Run, before: int, proposal: Option<int>, updated: bool, now: int)
    requires Faithful(s, run, before) && before <= now
    ensures Faithful(s, s.Next(run, Reconciled(proposal, updated, now)), now)
  {
    ProposalsStayFaithful(s, run, before, proposal, now);
    var b := WithProposal(s.spec, s.window, run.buffers, run.replicas, proposal, now);
    var replicas := s.Next(run, Reconciled(proposal, updated, now)).replicas;
    if replicas != run.replicas {
      var c := Change(run.replicas, replicas, now, s.spec.behavior.Some?);
      HistoryGrows(s, run, before, replicas, c.recorded, now);
      NotedByDirection(s, b, c);
      DirectionStaysFaithful(b.ups, run.changes, true, s.spec.UpRetention(), before, c);
      DirectionStaysFaithful(b.downs, run.changes, false, s.spec.DownRetention(), before, c);
    }
  }

  /** Every run's buffers are what writing its whole history into them leaves. */
  lemma {:induction false} RunsAreFaithful(s: Scenario, steps: seq<Step>, now: int)
    requires Past(steps, now)
    ensures Faithful(s, s.After(steps), now)
  {
    if steps != [] {
      var n := |steps| - 1;
      RunsAreFaithful(s, steps[..n], steps[n].now);
      NextStaysFaithful(s, s.After(steps[..n]), steps[n], steps[n].now);
    }
  }
}
