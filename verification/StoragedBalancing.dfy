/**
 What scaling achieves for each space. In every run that scales out, lost status writes included, a space enters
 the balanced list only after a job started for it was reported as finished and its leaders were balanced, and
 the operation is over only when that holds for every space that was due. A run that scales in clears its
 bookkeeping only after the leaders of every space were balanced.
 */
module StoragedBalancing {
  import opened StoragedScaling
  import opened StoragedSafety
  import opened StoragedProgress
  import opened StoragedScaleOut
  import opened StoragedMeasure
  import opened StoragedOutMeasure

  /**
   The leaders of the space were balanced, after a balancing job for the space was reported as finished: one
   started before, or the one recorded when the operation began.
   */
  ghost predicate Spread(trace: seq<Event>, space: int, recorded: Option<Job>) {
    exists k: nat :: SpreadAt(trace, space, recorded, k)
  }

  ghost predicate SpreadAt(trace: seq<Event>, space: int, recorded: Option<Job>, k: nat) {
    && k < |trace| && trace[k] == LeadersBalanced(space)
    && FinishedFor(trace[..k], space, recorded)
  }

  ghost predicate FinishedFor(trace: seq<Event>, space: int, recorded: Option<Job>) {
    || JobDone(trace, Balance, space, [])
    || (recorded.Some? && recorded.value.space == space && JobReported(recorded.value, Finished) in trace)
  }

  /** Every space that was due is balanced. */
  ghost predicate AllSpread(trace: seq<Event>, spaces: seq<int>, st: Status) {
    forall s :: s in spaces && s !in st.balanced ==> Spread(trace, s, st.lastJob)
  }

  /** What a status says, beyond what the one at the start said, has really happened. */
  ghost predicate Truthful(now: Status, trace: seq<Event>, st: Status) {
    && (forall s :: s in now.balanced ==> s in st.balanced || Spread(trace, s, st.lastJob))
    && (now.lastJob.Some? ==> now.lastJob == st.lastJob || Started(trace, Balance, now.lastJob.value, []))
  }

  ghost predicate AllTruthful(w: World, st: Status) {
    Truthful(w.persisted, w.trace, st) && Truthful(w.status, w.trace, st)
  }

  lemma SpreadStays(trace: seq<Event>, longer: seq<Event>, space: int, recorded: Option<Job>)
    requires trace <= longer && Spread(trace, space, recorded)
    ensures Spread(longer, space, recorded)
  {
    var k: nat :| SpreadAt(trace, space, recorded, k);
    assert longer[..k] == trace[..k];
    assert SpreadAt(longer, space, recorded, k);
  }

  lemma AllSpreadStays(trace: seq<Event>, longer: seq<Event>, spaces: seq<int>, st: Status)
    requires trace <= longer && AllSpread(trace, spaces, st)
    ensures AllSpread(longer, spaces, st)
  {
    forall s | s in spaces && s !in st.balanced
      ensures Spread(longer, s, st.lastJob)
    {
      SpreadStays(trace, longer, s, st.lastJob);
    }
  }

  lemma TruthfulStays(now: Status, trace: seq<Event>, longer: seq<Event>, st: Status)
    requires trace <= longer && Truthful(now, trace, st)
    ensures Truthful(now, longer, st)
  {
    forall s | s in now.balanced && s !in st.balanced
      ensures Spread(longer, s, st.lastJob)
    {
      SpreadStays(trace, longer, s, st.lastJob);
    }
  }

  lemma LogTruthful(w: World, e: Event, st: Status)
    requires AllTruthful(w, st)
    ensures AllTruthful(w.Logged(e), st)
  {
    TruthfulStays(w.persisted, w.trace, w.Logged(e).trace, st);
    TruthfulStays(w.status, w.trace, w.Logged(e).trace, st);
  }

  // ------------------------------------------------------------------ one space

  lemma StartTruthful(w: World, env: Answers, space: int, st: Status)
    requires AllTruthful(w, st)
    ensures AllTruthful(StartJob(Balance, w, env, space, []).0, st)
    ensures w.trace <= StartJob(Balance, w, env, space, []).0.trace
  {
    var a := env(w.next);
    if a.ok && a.jobId > 0 {
      LogTruthful(w.Asked(), JobStarted(Balance, Job(space, a.jobId), []), st);
    }
  }

  /** The report that a job of the status is finished is one that counts. */
  lemma ReportCounts(trace: seq<Event>, job: Job, st: Status)
    requires st.lastJob == Some(job) || Started(trace, Balance, job, [])
    ensures FinishedFor(trace + [JobReported(job, Finished)], job.space, st.lastJob)
  {
    var reported := trace + [JobReported(job, Finished)];
    assert reported[|trace|] == JobReported(job, Finished);
    if Started(trace, Balance, job, []) {
      assert reported[..|trace|] == trace;
      assert DoneAt(reported, Balance, Job(job.space, job.id), [], |trace|);
    }
  }

  lemma LeaderTruthful(w: World, env: Answers, space: int, st: Status)
    requires AllTruthful(w, st) && FinishedFor(w.trace, space, st.lastJob)
    ensures AllTruthful(BalanceLeader(w, env, space).0, st)
    ensures w.trace <= BalanceLeader(w, env, space).0.trace
  {
    var balanced := w.Asked().Logged(LeadersBalanced(space));
    LogTruthful(w.Asked(), LeadersBalanced(space), st);
    assert balanced.trace[..|w.trace|] == w.trace;
    assert SpreadAt(balanced.trace, space, st.lastJob, |w.trace|);
    assert Truthful(MarkDone(balanced, Balance, space).status, balanced.trace, st);
  }

  lemma PollTruthful(w: World, env: Answers, job: Job, st: Status)
    requires AllTruthful(w, st) && w.status.lastJob == Some(job)
    ensures AllTruthful(PollJob(Balance, w, env, job).0, st)
    ensures w.trace <= PollJob(Balance, w, env, job).0.trace
  {
    var a := env(w.next);
    var polled := w.Asked().Logged(JobReported(job, a.state));
    LogTruthful(w.Asked(), JobReported(job, a.state), st);
    if a.state == Failed {
      LogTruthful(polled.Asked(), JobRecovered(job), st);
    } else if a.state == Finished {
      ReportCounts(w.trace, job, st);
      LeaderTruthful(polled, env, job.space, st);
    }
  }

  /** The loop over the spaces ends well only with every space balanced. */
  lemma {:induction false} SpacesTruthful(w: World, env: Answers, spaces: seq<int>, st: Status)
    requires AllTruthful(w, st)
    ensures
      var (w', ok) := ProcessSpaces(Balance, w, env, spaces, []);
      && AllTruthful(w', st) && w.trace <= w'.trace && w'.replicas == w.replicas
      && w'.status.phase == w.status.phase
      && (w'.persisted == w.persisted || w'.persisted.phase == w.status.phase)
      && (ok ==> forall s :: s in spaces ==> s in w'.status.balanced)
    decreases |spaces|
  {
    if spaces != [] {
      assert spaces == [spaces[0]] + spaces[1..];
      if spaces[0] in w.status.balanced {
        SpacesTruthful(w, env, spaces[1..], st);
        DoneStays(Balance, w, env, spaces[1..], [], spaces[0]);
      } else {
        var (w', ok) := ProcessSpace(Balance, w, env, spaces[0], []);
        if w.status.lastJob.Some? && w.status.lastJob.value.space == spaces[0] {
          PollTruthful(w, env, w.status.lastJob.value, st);
        } else {
          StartTruthful(w, env, spaces[0], st);
        }
        if ok {
          SpacesTruthful(w', env, spaces[1..], st);
          DoneStays(Balance, w', env, spaces[1..], [], spaces[0]);
        }
      }
    }
  }

  // ------------------------------------------------------------------ runs that scale out

  /** Under way, or over with everything balanced. */
  ghost predicate OutOrSpread(now: Status, trace: seq<Event>, spaces: seq<int>, st: Status) {
    now.phase == ScalingOut || (now.phase == Running && AllSpread(trace, spaces, st))
  }

  lemma AllSpreadWhenDone(w: World, spaces: seq<int>, st: Status)
    requires AllTruthful(w, st) && forall s :: s in spaces ==> s in w.status.balanced
    ensures AllSpread(w.trace, spaces, st)
  {
  }

  /** A scale-out ends in Running only with everything balanced; only a lost write leaves the persisted phase alone. */
  lemma ScaleOutTruthful(w: World, env: Answers, c: Config, sight: Sight, st: Status)
    requires AllTruthful(w, st) && sight.autoBalance && w.persisted == w.status
    ensures
      var (w', ok) := ScaleOut(w, env, c, sight);
      && AllTruthful(w', st) && w.trace <= w'.trace && w'.replicas == w.replicas
      && OutOrSpread(w'.status, w'.trace, c.spaces, st)
      && (w'.persisted == w.persisted || OutOrSpread(w'.persisted, w'.trace, c.spaces, st))
  {
    var entered := EnterPhase(w, env, ScalingOut).0;
    var (reached, listed) := ReachMeta(entered, env);
    assert AllTruthful(reached, st);
    if EnterPhase(w, env, ScalingOut).1 && sight.ready && listed {
      SpacesTruthful(reached, env, c.spaces, st);
      var (balanced, ok) := ProcessSpaces(Balance, reached, env, c.spaces, []);
      if ok {
        AllSpreadWhenDone(balanced, c.spaces, st);
      }
    }
  }

  /** Every run keeps this: the persisted status is the one at the start, or that of a scale-out under way or over. */
  ghost predicate Balancing(w: World, c: Config, st: Status) {
    && Truthful(w.persisted, w.trace, st) && w.replicas <= c.target
    && (w.persisted == st || OutOrSpread(w.persisted, w.trace, c.spaces, st))
  }

  lemma ResizeTruthful(w: World, env: Answers, c: Config, st: Status)
    requires AllTruthful(w, st) && w.replicas <= c.target
    ensures
      var w' := UpdateWorkload(w, env, c);
      && AllTruthful(w', st) && w.trace <= w'.trace && w'.replicas <= c.target
      && w'.status == w.status && w'.persisted == w.persisted
  {
    LogTruthful(w.Asked(), WorkloadResized(c.target), st);
  }

  lemma OutOrSpreadStays(now: Status, trace: seq<Event>, longer: seq<Event>, spaces: seq<int>, st: Status)
    requires trace <= longer && OutOrSpread(now, trace, spaces, st)
    ensures OutOrSpread(now, longer, spaces, st)
  {
    if now.phase == Running {
      AllSpreadStays(trace, longer, spaces, st);
    }
  }

  predicate OutDue(w: World, c: Config) { w.replicas < c.target || w.persisted.phase == ScalingOut }

  lemma OutReconcile(w: World, env: Answers, c: Config, sight: Sight, st: Status)
    requires Balancing(w, c, st) && sight.autoBalance && w.persisted.phase != ScalingIn && OutDue(w, c)
    ensures
      var w' := Reconcile(w, env, c, sight);
      && Balancing(w', c, st) && w.trace <= w'.trace
      && (Durable(env) ==> OutOrSpread(w'.persisted, w'.trace, c.spaces, st))
  {
    var w0 := w.(status := w.persisted);
    ScaleOutTruthful(w0, env, c, sight, st);
    var (scaled, ok) := ScaleOut(w0, env, c, sight);
    var resized := if ok then UpdateWorkload(scaled, env, c) else scaled;
    ResizeTruthful(scaled, env, c, st);
    OutOrSpreadStays(scaled.status, scaled.trace, resized.trace, c.spaces, st);
    if scaled.persisted == w.persisted && w.persisted != st {
      OutOrSpreadStays(w.persisted, w.trace, resized.trace, c.spaces, st);
    } else if scaled.persisted != w.persisted {
      OutOrSpreadStays(scaled.persisted, scaled.trace, resized.trace, c.spaces, st);
    }
    assert Reconcile(w, env, c, sight) == WriteStatus(resized, env).0;
  }

  /**
   In every run that scales out under automatic balancing, whatever is lost or fails: once the persisted status
   is Running, and not merely the one at the start, every space that was due has been balanced.
   */
  lemma {:induction false} RunsBalance(st: Status, replicas: int, env: Answers, c: Config, sights: seq<Sight>)
    requires replicas <= c.target && st.phase != ScalingIn && AutoBalanced(sights)
    ensures
      var w := After(Initial(st, replicas), env, c, sights);
      && Balancing(w, c, st) && w.persisted.phase != ScalingIn
  {
    if sights != [] {
      var n := |sights| - 1;
      var w := After(Initial(st, replicas), env, c, sights[..n]);
      RunsBalance(st, replicas, env, c, sights[..n]);
      if OutDue(w, c) {
        OutReconcile(w, env, c, sights[n], st);
      }
    }
  }

  // ------------------------------------------------------------------ exactly the work that is due

  /** With durable writes the persisted status is Running after a reconcile only with everything balanced. */
  lemma {:induction false} RunningMeansBalanced(st: Status, replicas: int, env: Answers, c: Config, sights: seq<Sight>)
    requires Durable(env) && replicas <= c.target && st.phase != ScalingIn && AutoBalanced(sights)
    requires OutDue(Initial(st, replicas), c) && sights != []
    ensures
      var w := After(Initial(st, replicas), env, c, sights);
      w.persisted.phase != ScalingOut ==> w.persisted.phase == Running && AllSpread(w.trace, c.spaces, st)
  {
    var n := |sights| - 1;
    var w := After(Initial(st, replicas), env, c, sights[..n]);
    RunsBalance(st, replicas, env, c, sights[..n]);
    if OutDue(w, c) {
      OutReconcile(w, env, c, sights[n], st);
    } else {
      RunningMeansBalanced(st, replicas, env, c, sights[..n]);
    }
  }

  /** All spaces that were pending before, and no others, have been balanced. */
  ghost predicate OutBooksClosed(w: World, trace: seq<Event>, spaces: seq<int>) {
    Ledger(Balance, w, spaces) == (LeaderBalances(trace), Starts(trace) + 1 - LeaderBalances(trace))
  }

  lemma ScaleOutCloses(w: World, env: Answers, c: Config, sight: Sight)
    requires Durable(env) && Distinct(c.spaces) && sight.autoBalance
    ensures
      var (w', ok) := ScaleOut(w, env, c, sight);
      w'.status.phase == Running ==> OutBooksClosed(w, w'.trace, c.spaces)
  {
    var entered := EnterPhase(w, env, ScalingOut).0;
    var (reached, listed) := ReachMeta(entered, env);
    if sight.ready && listed {
      SpacesConserve(Balance, reached, env, c.spaces, []);
      LedgerOfStatus(w, reached, c.spaces);
      if ProcessSpaces(Balance, reached, env, c.spaces, []).1 {
        AllDoneIfOk(Balance, reached, env, c.spaces, []);
      }
    }
  }

  lemma ReconcileOutCloses(w: World, env: Answers, c: Config, sight: Sight)
    requires Durable(env) && Distinct(c.spaces) && sight.autoBalance && w.persisted == w.status
    requires w.replicas <= c.target && w.status.phase != ScalingIn && OutDue(w, c)
    ensures
      var w' := Reconcile(w, env, c, sight);
      w'.status.phase == Running ==> OutBooksClosed(w, w'.trace, c.spaces)
  {
    var (scaled, ok) := ScaleOut(w, env, c, sight);
    ScaleOutCloses(w, env, c, sight);
    ResizeKeepsCounts(scaled, env, c);
    ReconcileIsScaleOut(w, env, c, sight);
    var resized := if ok then UpdateWorkload(scaled, env, c) else scaled;
    SameOutBooks(w, scaled.trace, resized.trace, c.spaces);
  }

  lemma ReconcileIsScaleOut(w: World, env: Answers, c: Config, sight: Sight)
    requires w.persisted == w.status && w.replicas <= c.target && w.status.phase != ScalingIn && OutDue(w, c)
    ensures
      var (scaled, ok) := ScaleOut(w, env, c, sight);
      Reconcile(w, env, c, sight) == WriteStatus(if ok then UpdateWorkload(scaled, env, c) else scaled, env).0
  {
    assert w.(status := w.persisted) == w;
  }

  lemma SameOutBooks(w: World, trace: seq<Event>, longer: seq<Event>, spaces: seq<int>)
    requires Starts(longer) == Starts(trace) && LeaderBalances(longer) == LeaderBalances(trace)
    ensures OutBooksClosed(w, trace, spaces) <==> OutBooksClosed(w, longer, spaces)
  {
  }

  lemma {:induction false} OutBooksOverRuns(st: Status, replicas: int, env: Answers, c: Config, sights: seq<Sight>)
    requires Durable(env) && Distinct(c.spaces) && replicas < c.target && st.phase != ScalingIn && AutoBalanced(sights)
    requires !EverRunning(Initial(st, replicas), env, c, sights)
    ensures
      var w0, w := Initial(st, replicas), After(Initial(st, replicas), env, c, sights);
      Growing(w, c) && OutDue(w, c) && Ledger(Balance, w, c.spaces) == Ledger(Balance, w0, c.spaces)
  {
    GrowthAddsUp(st, replicas, env, c, sights);
    if sights != [] {
      var n := |sights| - 1;
      var before := After(Initial(st, replicas), env, c, sights[..n]);
      OutBooksOverRuns(st, replicas, env, c, sights[..n]);
      ReconcileOutConserves(before, env, c, sights[n]);
      ReconcileOutStep(before, env, c, sights[n]);
    }
  }

  /**
   When a scale-out is first over, exactly the spaces that were due have been balanced: each of them had a job,
   its own one, started (or recorded at the start), reported as finished, and its leaders balanced after that.
   */
  lemma ExactlyTheBalancingDue(st: Status, replicas: int, env: Answers, c: Config, sights: seq<Sight>, last: Sight)
    requires Durable(env) && Distinct(c.spaces) && replicas < c.target && st.phase != ScalingIn
    requires AutoBalanced(sights + [last]) && !EverRunning(Initial(st, replicas), env, c, sights)
    requires After(Initial(st, replicas), env, c, sights + [last]).persisted.phase == Running
    ensures
      var trace := After(Initial(st, replicas), env, c, sights + [last]).trace;
      && (forall s :: s in c.spaces && s !in st.balanced ==> Spread(trace, s, st.lastJob))
      && LeaderBalances(trace) == |Pending(c.spaces, st.balanced)|
      && Starts(trace) == LeaderBalances(trace) - if JobPending(c.spaces, st, Balance) then 1 else 0
  {
    var before := After(Initial(st, replicas), env, c, sights);
    assert (sights + [last])[..|sights|] == sights;
    assert (sights + [last])[|sights|] == last;
    assert AutoBalanced(sights) by {
      assert forall i :: 0 <= i < |sights| ==> (sights + [last])[i] == sights[i];
    }
    RunningMeansBalanced(st, replicas, env, c, sights + [last]);
    OutBooksOverRuns(st, replicas, env, c, sights);
    ReconcileOutCloses(before, env, c, last);
    ReconcileOutStep(before, env, c, last);
  }

  // ------------------------------------------------------------------ the leaders when scaling in

  /** What a status of a run that scales in says about leaders has really happened. */
  ghost predicate LeadersTrue(now: Status, trace: seq<Event>, st: Status) {
    forall s :: s in now.balanced ==> s in st.balanced || LeadersBalanced(s) in trace
  }

  /** The bookkeeping is only ever cleared after the leaders of every space that was due were balanced. */
  ghost predicate ClearedBalanced(trace: seq<Event>, spaces: seq<int>, st: Status) {
    forall i, s :: 0 <= i < |trace| && trace[i].BookkeepingCleared? && s in spaces && s !in st.balanced ==>
      LeadersBalanced(s) in trace[..i]
  }

  ghost predicate LeadersKept(w: World, spaces: seq<int>, st: Status) {
    && LeadersTrue(w.persisted, w.trace, st) && LeadersTrue(w.status, w.trace, st)
    && ClearedBalanced(w.trace, spaces, st)
  }

  lemma LogLeaders(w: World, e: Event, spaces: seq<int>, st: Status)
    requires LeadersKept(w, spaces, st)
    requires e.BookkeepingCleared? ==> forall s :: s in spaces && s !in st.balanced ==> LeadersBalanced(s) in w.trace
    ensures LeadersKept(w.Logged(e), spaces, st)
  {
    var logged := w.Logged(e).trace;
    forall i, s | 0 <= i < |logged| && logged[i].BookkeepingCleared? && s in spaces && s !in st.balanced
      ensures LeadersBalanced(s) in logged[..i]
    {
      assert logged[..i] == w.trace[..i];
    }
  }

  lemma SpaceKeepsLeaders(w: World, env: Answers, space: int, hosts: seq<int>, spaces: seq<int>, st: Status)
    requires LeadersKept(w, spaces, st)
    ensures LeadersKept(ProcessSpace(Removal, w, env, space, hosts).0, spaces, st)
  {
    var a := env(w.next);
    if w.status.lastJob.Some? && w.status.lastJob.value.space == space {
      var job := w.status.lastJob.value;
      LogLeaders(w.Asked(), JobReported(job, a.state), spaces, st);
      LogLeaders(w.Asked().Logged(JobReported(job, a.state)).Asked(), JobRecovered(job), spaces, st);
    } else {
      LogLeaders(w.Asked(), JobStarted(Removal, Job(space, a.jobId), hosts), spaces, st);
    }
  }

  lemma {:induction false} SpacesKeepLeaders(w: World, env: Answers, rest: seq<int>, hosts: seq<int>, spaces: seq<int>, st: Status)
    requires LeadersKept(w, spaces, st)
    ensures LeadersKept(ProcessSpaces(Removal, w, env, rest, hosts).0, spaces, st)
    decreases |rest|
  {
    if rest != [] {
      if rest[0] in w.status.removed {
        SpacesKeepLeaders(w, env, rest[1..], hosts, spaces, st);
      } else {
        SpaceKeepsLeaders(w, env, rest[0], hosts, spaces, st);
        SpacesKeepLeaders(ProcessSpace(Removal, w, env, rest[0], hosts).0, env, rest[1..], hosts, spaces, st);
      }
    }
  }

  lemma LeaderKept(w: World, env: Answers, space: int, spaces: seq<int>, st: Status)
    requires LeadersKept(w, spaces, st)
    ensures LeadersKept(BalanceLeader(w, env, space).0, spaces, st)
    ensures BalanceLeader(w, env, space).1 ==> space in BalanceLeader(w, env, space).0.status.balanced
  {
    LogLeaders(w.Asked(), LeadersBalanced(space), spaces, st);
    var balanced := w.Asked().Logged(LeadersBalanced(space));
    assert LeadersBalanced(space) in balanced.trace;
    assert LeadersTrue(MarkDone(balanced, Balance, space).status, balanced.trace, st);
  }

  lemma {:induction false} AllLeadersKept(w: World, env: Answers, rest: seq<int>, spaces: seq<int>, st: Status)
    requires LeadersKept(w, spaces, st)
    ensures
      var (w', ok) := BalanceLeaders(w, env, rest);
      LeadersKept(w', spaces, st) && (ok ==> forall s :: s in rest ==> s in w'.status.balanced)
    decreases |rest|
  {
    if rest != [] {
      assert rest == [rest[0]] + rest[1..];
      if rest[0] in w.status.balanced {
        AllLeadersKept(w, env, rest[1..], spaces, st);
        BalancedStays(w, env, rest[1..], rest[0]);
      } else {
        LeaderKept(w, env, rest[0], spaces, st);
        var (w', ok) := BalanceLeader(w, env, rest[0]);
        if ok {
          AllLeadersKept(w', env, rest[1..], spaces, st);
          BalancedStays(w', env, rest[1..], rest[0]);
        }
      }
    }
  }

  lemma FinishKeepsLeaders(w: World, env: Answers, spaces: seq<int>, st: Status)
    requires LeadersKept(w, spaces, st) && forall s :: s in spaces ==> s in w.status.balanced
    ensures LeadersKept(FinishScaleIn(w, env).0, spaces, st)
  {
    var marked := Request(w, env).0;
    LogLeaders(marked, VolumesMarked, spaces, st);
    var gone := Request(marked.Logged(VolumesMarked), env).0;
    LogLeaders(gone, VolumesGone, spaces, st);
    LogLeaders(gone.Logged(VolumesGone), BookkeepingCleared, spaces, st);
  }

  lemma RemovalKeepsLeaders(w: World, env: Answers, c: Config, sight: Sight, st: Status)
    requires LeadersKept(w, c.spaces, st)
    ensures LeadersKept(RemoveHosts(w, env, c, sight).0, c.spaces, st)
  {
    if sight.hosts.Some? {
      var hosts := sight.hosts.value;
      SpacesKeepLeaders(w, env, c.spaces, hosts, c.spaces, st);
      var moved := ProcessSpaces(Removal, w, env, c.spaces, hosts).0;
      LogLeaders(moved, DropAsked(hosts), c.spaces, st);
      LogLeaders(Request(moved.Logged(DropAsked(hosts)), env).0, HostsDropped(hosts), c.spaces, st);
    }
  }

  lemma ScaleInKeepsLeaders(w: World, env: Answers, c: Config, sight: Sight, st: Status)
    requires LeadersKept(w, c.spaces, st)
    ensures LeadersKept(ScaleIn(w, env, c, sight).0, c.spaces, st)
  {
    var entered := EnterPhase(w, env, ScalingIn).0;
    var reached := ReachMeta(entered, env).0;
    assert LeadersKept(reached, c.spaces, st);
    RemovalKeepsLeaders(reached, env, c, sight, st);
    var (removed, dropped) := RemoveHosts(reached, env, c, sight);
    if dropped {
      AllLeadersKept(removed, env, c.spaces, c.spaces, st);
      var (balanced, ok) := BalanceLeaders(removed, env, c.spaces);
      if ok {
        FinishKeepsLeaders(balanced, env, c.spaces, st);
      }
    }
  }

  /** In every run that scales in, lost writes included, the leaders are balanced before the bookkeeping is cleared. */
  lemma {:induction false} LeadersBeforeClearing(st: Status, replicas: int, env: Answers, c: Config, sights: seq<Sight>, hosts: seq<int>)
    requires c.target < replicas && Clean(c.spaces, st) && SameHosts(sights, hosts)
    ensures
      var w := After(Initial(st, replicas), env, c, sights);
      LeadersTrue(w.persisted, w.trace, st) && ClearedBalanced(w.trace, c.spaces, st)
  {
    if sights != [] {
      var n := |sights| - 1;
      var w := After(Initial(st, replicas), env, c, sights[..n]);
      LeadersBeforeClearing(st, replicas, env, c, sights[..n], hosts);
      RunsKeepInvariant(Initial(st, replicas), env, c, hosts, sights[..n]);
      if c.target < w.replicas {
        var w0 := w.(status := w.persisted);
        ScaleInKeepsLeaders(w0, env, c, sights[n], st);
        LogLeaders(ScaleIn(w0, env, c, sights[n]).0.Asked(), WorkloadResized(c.target), c.spaces, st);
      }
    }
  }

  // ------------------------------------------------------------------ when there is nothing to remove

  predicate MovesNothing(e: Event) {
    e.LeadersBalanced? || e.VolumesMarked? || e.VolumesGone? || e.BookkeepingCleared? || e.WorkloadResized?
  }

  /** The trace has grown, by events that move no data and give no hosts away. */
  ghost predicate Quietly(trace: seq<Event>, longer: seq<Event>) {
    trace <= longer && forall i :: |trace| <= i < |longer| ==> MovesNothing(longer[i])
  }

  lemma {:induction false} LeadersQuietly(w: World, env: Answers, spaces: seq<int>)
    requires Durable(env)
    ensures
      var (w', ok) := BalanceLeaders(w, env, spaces);
      && Quietly(w.trace, w'.trace) && w'.replicas == w.replicas && w.next <= w'.next
      && w'.status.phase == w.status.phase
      && (!ok ==> !Good(env, w.next, w'.next))
    decreases |spaces|
  {
    if spaces != [] {
      if spaces[0] in w.status.balanced {
        LeadersQuietly(w, env, spaces[1..]);
      } else {
        LeaderOutcome(w, env, spaces[0]);
        var (w', ok) := BalanceLeader(w, env, spaces[0]);
        if ok {
          LeadersQuietly(w', env, spaces[1..]);
        }
      }
    }
  }

  lemma FinishQuietly(w: World, env: Answers)
    requires Durable(env)
    ensures
      var (w', ok) := FinishScaleIn(w, env);
      && Quietly(w.trace, w'.trace) && w'.replicas == w.replicas && w.next <= w'.next
      && (if ok then w'.status == CLEARED else w'.status == w.status && !Good(env, w.next, w'.next))
  {
    FinishOutcome(w, env);
    var marked := Request(w, env).0;
    assert !FinishScaleIn(w, env).1 ==> !env(w.next).ok || !env(marked.next).ok;
  }

  /**
   A scale-in that finds no hosts to remove any more, the target having been put back, starts no job and drops
   nothing: it balances the leaders, clears the bookkeeping and lets the workload have its target.
   */
  lemma AbandonedScaleIn(w: World, env: Answers, c: Config, sight: Sight)
    requires Durable(env) && w.persisted.phase == ScalingIn && w.replicas <= c.target
    ensures
      var w' := Reconcile(w, env, c, sight);
      && Quietly(w.trace, w'.trace)
      && (w'.persisted.phase == ScalingIn || w'.persisted == CLEARED)
      && (w'.persisted.phase == ScalingIn ==> w'.replicas == w.replicas)
      && (Good(env, w.next, w'.next) ==> w'.persisted == CLEARED && w'.replicas == c.target)
  {
    var entered := EnterPhase(w.(status := w.persisted), env, ScalingIn).0;
    var (reached, listed) := ReachMeta(entered, env);
    if listed {
      LeadersQuietly(reached, env, c.spaces);
      var (balanced, ok) := BalanceLeaders(reached, env, c.spaces);
      if ok {
        FinishQuietly(balanced, env);
        ResizeQuietly(FinishScaleIn(balanced, env).0, env, c);
      }
    } else {
      assert !env(entered.next).ok || !env(entered.next + 1).ok;
    }
  }

  lemma ResizeQuietly(w: World, env: Answers, c: Config)
    requires Durable(env)
    ensures
      var w' := UpdateWorkload(w, env, c);
      && Quietly(w.trace, w'.trace) && w.next <= w'.next && w'.status == w.status
      && (Good(env, w.next, w'.next) ==> w'.replicas == c.target)
  {
    assert w.replicas != c.target ==> (env(w.next).ok ==> UpdateWorkload(w, env, c).replicas == c.target);
  }

  /** With the target reached and no operation under way a reconcile asks for nothing and keeps the status. */
  lemma IdleKeeps(w: World, env: Answers, c: Config, sight: Sight)
    requires w.replicas == c.target && w.persisted.phase != ScalingIn && w.persisted.phase != ScalingOut
    ensures
      var w' := Reconcile(w, env, c, sight);
      w'.trace == w.trace && w'.persisted == w.persisted && w'.replicas == w.replicas
  {
  }
}
