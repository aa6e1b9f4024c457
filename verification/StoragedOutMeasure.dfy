/**
 The measure of scaling out: every job started and every space whose leaders are balanced at the end of its
 job lowers it by one, and the operation ends with all bookkeeping cleared.
 */
module StoragedOutMeasure {
  import opened StoragedScaling
  import opened StoragedSafety
  import opened StoragedProgress
  import opened StoragedScaleOut
  import opened StoragedMeasure

  function MeasureOut(spaces: seq<int>, st: Status): nat {
    2 * |Pending(spaces, st.balanced)| + Unstarted(spaces, st, Balance)
  }

  lemma MeasureOutAtMost(spaces: seq<int>, st: Status)
    ensures 1 <= MeasureOut(spaces, st) <= 2 * |spaces| + 1
  {
    PendingSubset(spaces, st.balanced);
  }

  function ProgressOut(trace: seq<Event>): nat { Starts(trace) + LeaderBalances(trace) }

  lemma ScaleOutConserves(w: World, env: Answers, c: Config, sight: Sight)
    requires Durable(env) && Distinct(c.spaces) && sight.autoBalance
    ensures
      var (w', ok) := ScaleOut(w, env, c, sight);
      w'.status.phase != Running ==> Ledger(Balance, w', c.spaces) == Ledger(Balance, w, c.spaces)
  {
    var entered := EnterPhase(w, env, ScalingOut).0;
    var (reached, listed) := ReachMeta(entered, env);
    if sight.ready && listed {
      SpacesConserve(Balance, reached, env, c.spaces, []);
      LedgerOfStatus(w, reached, c.spaces);
    } else {
      LedgerOfStatus(w, ScaleOut(w, env, c, sight).0, c.spaces);
    }
  }

  /** Phase and other answers do not matter to the ledger. */
  lemma LedgerOfStatus(w: World, w': World, spaces: seq<int>)
    requires w'.status == w.status.(phase := w'.status.phase) && w'.trace == w.trace
    ensures Ledger(Balance, w', spaces) == Ledger(Balance, w, spaces)
  {
  }

  lemma ScaleOutOnlyAdds(w: World, env: Answers, c: Config, sight: Sight)
    requires Durable(env) && Distinct(c.spaces) && Serial(Balance, w, c.spaces)
    ensures w.trace <= ScaleOut(w, env, c, sight).0.trace
  {
    EnterStep(Balance, w, env, ScalingOut, c.spaces);
    var entered := EnterPhase(w, env, ScalingOut).0;
    var (reached, listed) := ReachMeta(entered, env);
    if sight.ready && sight.autoBalance && listed {
      SpacesStep(Balance, reached, env, c.spaces, []);
    }
  }

  lemma ReconcileOutConserves(w: World, env: Answers, c: Config, sight: Sight)
    requires Durable(env) && Distinct(c.spaces) && Growing(w, c) && sight.autoBalance
    requires w.replicas < c.target || w.status.phase == ScalingOut
    ensures
      var w' := Reconcile(w, env, c, sight);
      && LeaderBalances(w.trace) <= LeaderBalances(w'.trace) && Starts(w.trace) <= Starts(w'.trace)
      && (w'.status.phase != Running ==> Ledger(Balance, w', c.spaces) == Ledger(Balance, w, c.spaces))
  {
    var w0 := w.(status := w.persisted);
    var scaled := ScaleOut(w0, env, c, sight).0;
    ScaleOutConserves(w0, env, c, sight);
    ScaleOutOnlyAdds(w0, env, c, sight);
    CountsGrow(w.trace, scaled.trace);
    ResizeKeepsCounts(scaled, env, c);
    LedgerByCounts(scaled, Reconcile(w, env, c, sight), c.spaces);
  }

  lemma LedgerByCounts(w: World, w': World, spaces: seq<int>)
    requires w'.status == w.status && Starts(w'.trace) == Starts(w.trace) && LeaderBalances(w'.trace) == LeaderBalances(w.trace)
    ensures Ledger(Balance, w', spaces) == Ledger(Balance, w, spaces)
  {
  }

  // ------------------------------------------------------------------ runs

  ghost predicate UsefulOut(before: World, after: World, env: Answers, sight: Sight) {
    || ProgressOut(after.trace) > ProgressOut(before.trace)
    || (sight.ready && Good(env, before.next, after.next))
  }

  ghost function UsefulReconcilesOut(w: World, env: Answers, c: Config, sights: seq<Sight>): nat {
    if sights == [] then 0
    else
      var n := |sights| - 1;
      UsefulReconcilesOut(w, env, c, sights[..n]) +
        if UsefulOut(After(w, env, c, sights[..n]), After(w, env, c, sights), env, sights[n]) then 1 else 0
  }

  /** How often everything was balanced before the workload could be enlarged: it is done again. */
  ghost function RestartsOut(w: World, env: Answers, c: Config, sights: seq<Sight>): nat {
    if sights == [] then 0
    else
      var n := |sights| - 1;
      var after := After(w, env, c, sights);
      RestartsOut(w, env, c, sights[..n]) + if after.status.phase == Running && after.replicas != c.target then 1 else 0
  }

  ghost predicate EverBalanced(w: World, env: Answers, c: Config, sights: seq<Sight>) {
    sights != [] &&
      var after := After(w, env, c, sights);
      (Balanced(after.persisted) && after.replicas == c.target) || EverBalanced(w, env, c, sights[..|sights| - 1])
  }

  lemma OneReconcileOut(w: World, env: Answers, c: Config, sight: Sight)
    requires Durable(env) && Distinct(c.spaces) && Growing(w, c) && sight.autoBalance
    requires w.replicas < c.target || w.status.phase == ScalingOut
    ensures
      var w' := Reconcile(w, env, c, sight);
      var again := w'.status.phase == Running && w'.replicas != c.target;
      && Growing(w', c)
      && (!(Balanced(w'.persisted) && w'.replicas == c.target) ==>
            && (w'.replicas < c.target || w'.status.phase == ScalingOut)
            && MeasureOut(c.spaces, w'.status) + (if UsefulOut(w, w', env, sight) then 1 else 0)
               <= MeasureOut(c.spaces, w.status) + (if again then 2 * |c.spaces| + 1 else 0))
  {
    ReconcileOutStep(w, env, c, sight);
    ReconcileOutConserves(w, env, c, sight);
    MeasureOutAtMost(c.spaces, w.status);
    MeasureOutAtMost(c.spaces, Reconcile(w, env, c, sight).status);
  }

  lemma OneMoreCountedOut(w0: World, env: Answers, c: Config, sights: seq<Sight>)
    requires sights != []
    ensures
      var n := |sights| - 1;
      var w, w' := After(w0, env, c, sights[..n]), After(w0, env, c, sights);
      && w' == Reconcile(w, env, c, sights[n])
      && UsefulReconcilesOut(w0, env, c, sights)
         == UsefulReconcilesOut(w0, env, c, sights[..n]) + (if UsefulOut(w, w', env, sights[n]) then 1 else 0)
      && RestartsOut(w0, env, c, sights)
         == RestartsOut(w0, env, c, sights[..n]) + (if w'.status.phase == Running && w'.replicas != c.target then 1 else 0)
  {
  }

  predicate InAllowanceOut(spaces: seq<int>, st: Status, now: Status, useful: nat, restarts: nat) {
    && WithinAllowance(MeasureOut(spaces, st), MeasureOut(spaces, now), 2 * |spaces| + 1, useful, restarts)
    && FewUsefulOut(spaces, useful, restarts)
  }

  /** There were fewer useful reconciles than two for each space and one more, for each start of the operation. */
  predicate FewUsefulOut(spaces: seq<int>, useful: nat, restarts: nat) {
    Bounded(2 * |spaces| + 1, useful, restarts)
  }

  lemma InAllowanceKeptOut(spaces: seq<int>, st: Status, before: Status, after: Status, useful: nat, useful': nat, restarts: nat, restarts': nat)
    requires InAllowanceOut(spaces, st, before, useful, restarts) && restarts <= restarts' <= restarts + 1
    requires MeasureOut(spaces, after) + (useful' - useful)
          <= MeasureOut(spaces, before) + if restarts' > restarts then 2 * |spaces| + 1 else 0
    ensures InAllowanceOut(spaces, st, after, useful', restarts')
  {
    MeasureOutAtMost(spaces, st);
    MeasureOutAtMost(spaces, after);
    AllowanceKept(MeasureOut(spaces, st), MeasureOut(spaces, before), MeasureOut(spaces, after), 2 * |spaces| + 1,
                  useful, useful', restarts, restarts');
  }

  lemma {:induction false} UsefulAddsUpOut(st: Status, replicas: int, env: Answers, c: Config, sights: seq<Sight>)
    requires Durable(env) && Distinct(c.spaces) && replicas < c.target && st.phase != ScalingIn
    requires AutoBalanced(sights) && !EverBalanced(Initial(st, replicas), env, c, sights)
    ensures
      var w0, w := Initial(st, replicas), After(Initial(st, replicas), env, c, sights);
      && Growing(w, c) && (w.replicas < c.target || w.status.phase == ScalingOut)
      && InAllowanceOut(c.spaces, st, w.status, UsefulReconcilesOut(w0, env, c, sights), RestartsOut(w0, env, c, sights))
  {
    if sights != [] {
      var w0, n := Initial(st, replicas), |sights| - 1;
      UsefulAddsUpOut(st, replicas, env, c, sights[..n]);
      OneReconcileOut(After(w0, env, c, sights[..n]), env, c, sights[n]);
      OneMoreCountedOut(w0, env, c, sights);
      InAllowanceKeptOut(c.spaces, st, After(w0, env, c, sights[..n]).status, After(w0, env, c, sights).status,
                    UsefulReconcilesOut(w0, env, c, sights[..n]), UsefulReconcilesOut(w0, env, c, sights),
                    RestartsOut(w0, env, c, sights[..n]), RestartsOut(w0, env, c, sights));
    }
  }

  /**
   Scaling out ends, with the workload enlarged, the phase Running and all its bookkeeping cleared, once two
   reconciles per space and one more were useful, for each time that it had to start.
   */
  lemma ScaleOutEnds(st: Status, replicas: int, env: Answers, c: Config, sights: seq<Sight>)
    requires Durable(env) && Distinct(c.spaces) && replicas < c.target && st.phase != ScalingIn && AutoBalanced(sights)
    requires !FewUsefulOut(c.spaces, UsefulReconcilesOut(Initial(st, replicas), env, c, sights),
                           RestartsOut(Initial(st, replicas), env, c, sights))
    ensures EverBalanced(Initial(st, replicas), env, c, sights)
  {
    if !EverBalanced(Initial(st, replicas), env, c, sights) {
      UsefulAddsUpOut(st, replicas, env, c, sights);
    }
  }
}
