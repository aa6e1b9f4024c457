/**
 Rolling update by partition: which pod the operator updates next, when it lowers the partition, and how
 this interleaves with a StatefulSet controller that replaces outdated pods at or above the partition.
 */
module RollingUpdate {

  datatype Option<+T> = None | Some(value: T)

  /** The revision label of a pod, compared with the update revision. */
  datatype Revision = Unlabelled | Old | New

  datatype Pod = Missing | Pod(revision: Revision, running: bool)

  /** Wait stands for every error that is answered by coming back later. */
  datatype Found = Wait | AllUpdated | Ordinal(index: nat)

  predicate Updated(p: Pod) { p == Pod(New, true) }

  predicate Outdated(p: Pod) { p.Pod? && p.revision == Old }

  /** The highest of the first `n` pods that is not updated, if everything above it is. */
  function NextBelow(pods: seq<Pod>, n: nat): Found
    requires n <= |pods|
  {
    if n == 0 then AllUpdated
    else if Updated(pods[n - 1]) then NextBelow(pods, n - 1)
    else if Outdated(pods[n - 1]) then Ordinal(n - 1)
    else Wait
  }

  method GetNextUpdatePod(pods: seq<Pod>) returns (r: Found)
    ensures r == NextBelow(pods, |pods|)
  {
    var index := |pods| - 1;
    while index >= 0
      invariant -1 <= index < |pods|
      invariant NextBelow(pods, index + 1) == NextBelow(pods, |pods|)
    {
      var pod := pods[index];
      if pod.Missing? {
        return Wait;
      }
      if pod.revision == Unlabelled {
        return Wait;
      }
      if pod.revision == New {
        if !pod.running {
          return Wait;
        }
        index := index - 1;
        continue;
      }
      return Ordinal(index);
    }
    return AllUpdated;
  }

  /** A pod is chosen exactly if it is outdated and every higher one is updated and running. */
  lemma {:induction false} NextBelowIff(pods: seq<Pod>, n: nat, i: nat)
    requires n <= |pods|
    ensures NextBelow(pods, n) == Ordinal(i) <==>
            i < n && Outdated(pods[i]) && forall j :: i < j < n ==> Updated(pods[j])
    ensures NextBelow(pods, n) == AllUpdated <==> forall j :: 0 <= j < n ==> Updated(pods[j])
  {
    if n > 0 {
      NextBelowIff(pods, n - 1, i);
    }
  }

  // ------------------------------------------------------------------ one reconcile of storaged

  const SECOND: int := 1_000_000_000
  const TRANSFER_TIMEOUT: int := 1800 * SECOND

  /**
   What one reconcile meets: `spaces` and `leaders` are None if the meta service could not be asked,
   `annotates` says whether the pod's annotation can be written.
   */
  datatype Answers = Answers(blocked: bool, templateChanged: bool, rolledOut: bool, spaces: Option<nat>, forced: bool,
                             annotates: bool, leaders: Option<nat>, now: int, leadersSpread: bool)

  /** There is no data to serve, or no other replica to serve it, or waiting is not wanted. */
  predicate Exempt(a: Answers, replicas: nat) {
    a.spaces == Some(0) || replicas < 3 || a.forced
  }

  /** When the transfer of leaders began, as annotated on the pod in whole seconds. */
  function Annotated(began: Option<int>, a: Answers): Option<int> {
    if began.None? && a.annotates then Some(a.now - a.now % SECOND) else began
  }

  /** The pod leads no part any more, or has been given long enough. */
  predicate Ready(began: Option<int>, a: Answers) {
    a.leaders.Some? && (a.leaders.value == 0 || (began.Some? && a.now > began.value + TRANSFER_TIMEOUT))
  }

  predicate MayReplace(began: Option<int>, a: Answers, replicas: nat) {
    Exempt(a, replicas) || (Annotated(began, a).Some? && Ready(Annotated(began, a), a))
  }

  function BeganAt(began: map<nat, int>, i: nat): Option<int> {
    if i in began then Some(began[i]) else None
  }

  /** The annotations after a pod was chosen. */
  function Marked(began: map<nat, int>, i: nat, a: Answers, replicas: nat): map<nat, int> {
    if Exempt(a, replicas) || Annotated(BeganAt(began, i), a).None? then began
    else began[i := Annotated(BeganAt(began, i), a).value]
  }

  /** The pod that this reconcile means to replace next. */
  function Candidate(pods: seq<Pod>, a: Answers): Option<nat> {
    if |pods| == 0 || a.blocked || a.templateChanged || a.rolledOut || a.spaces.None? then None
    else if NextBelow(pods, |pods|).Ordinal? then Some(NextBelow(pods, |pods|).index)
    else None
  }

  /** The partition written, or None if the reconcile ends before the write. */
  function Desired(partition: nat, began: map<nat, int>, pods: seq<Pod>, a: Answers): Option<nat> {
    if |pods| == 0 || a.blocked || a.templateChanged || a.rolledOut then Some(|pods|)
    else if a.spaces.None? then None
    else
      match NextBelow(pods, |pods|)
      case Wait => None
      case Ordinal(i) => if MayReplace(BeganAt(began, i), a, |pods|) then Some(i) else None
      case AllUpdated => if a.leadersSpread then Some(partition) else None
  }

  /** `transferBegan` holds the annotations of the pods. */
  class StoragedWorkload {
    var partition: nat
    var transferBegan: map<nat, int>

    constructor (replicas: nat)
      ensures partition == replicas && transferBegan == map[]
    {
      partition, transferBegan := replicas, map[];
    }

    method ReadyToUpdate(ordinal: nat, a: Answers) returns (ready: bool)
      ensures ready == Ready(BeganAt(transferBegan, ordinal), a)
    {
      if a.leaders == None {
        return false;
      }
      if a.leaders.value == 0 {
        return true;
      }
      if ordinal in transferBegan {
        return a.now > transferBegan[ordinal] + TRANSFER_TIMEOUT;
      }
      return false;
    }

    method UpdateStoragedPod(ordinal: nat, replicas: nat, a: Answers) returns (allowed: bool)
      modifies this`transferBegan
      ensures allowed == MayReplace(BeganAt(old(transferBegan), ordinal), a, replicas)
      ensures transferBegan == Marked(old(transferBegan), ordinal, a, replicas)
    {
      if a.spaces == Some(0) || replicas < 3 || a.forced {
        return true;
      }
      if ordinal !in transferBegan {
        if !a.annotates {
          return false;
        }
        transferBegan := transferBegan[ordinal := a.now - a.now % SECOND];
      }
      allowed := ReadyToUpdate(ordinal, a);
      assert old(ordinal in transferBegan) ==> transferBegan == old(transferBegan)[ordinal := transferBegan[ordinal]];
    }

    /** The desired workload starts with the partition at the replica count. */
    method Update(pods: seq<Pod>, a: Answers) returns (written: bool)
      modifies this
      ensures written == Desired(old(partition), old(transferBegan), pods, a).Some?
      ensures Progress(partition, transferBegan) == AfterVisit(Progress(old(partition), old(transferBegan)), Visit(pods, {}, a))
    {
      if |pods| == 0 || a.blocked || a.templateChanged || a.rolledOut {
        partition := |pods|;
        return true;
      }
      if a.spaces == None {
        return false;
      }
      var next := GetNextUpdatePod(pods);
      match next {
        case Wait =>
          written := false;
        case Ordinal(i) =>
          var allowed := UpdateStoragedPod(i, |pods|, a);
          if allowed {
            partition := i;
          }
          written := allowed;
        case AllUpdated =>
          written := a.leadersSpread;
      }
    }
  }

  /** What the reconciles leave behind: the partition and the annotations of the pods. */
  datatype Progress = Progress(partition: nat, began: map<nat, int>)

  /** One reconcile: the pods as it finds them, those that were created anew since the one before, and what it meets. */
  datatype Visit = Visit(pods: seq<Pod>, renewed: set<nat>, answers: Answers)

  /** A new pod has no annotation. */
  function Unmarked(began: map<nat, int>, renewed: set<nat>): map<nat, int> { began - renewed }

  /** One reconcile of the workload, as `Update` leaves it. */
  function AfterVisit(s: Progress, v: Visit): Progress {
    var began := Unmarked(s.began, v.renewed);
    var desired := Desired(s.partition, began, v.pods, v.answers);
    Progress(if desired.Some? then desired.value else s.partition,
             match Candidate(v.pods, v.answers)
             case Some(i) => Marked(began, i, v.answers, |v.pods|)
             case None => began)
  }

  function AfterVisits(s: Progress, visits: seq<Visit>): Progress {
    if visits == [] then s else AfterVisit(AfterVisits(s, visits[..|visits| - 1]), visits[|visits| - 1])
  }

  /** The reconcile means to replace the pod, which serves data, and can annotate it. */
  predicate Marks(v: Visit, i: nat) {
    Candidate(v.pods, v.answers) == Some(i) && !Exempt(v.answers, |v.pods|) && v.answers.annotates
  }

  ghost predicate InTime(visits: seq<Visit>) {
    forall i, j :: 0 <= i < j < |visits| ==> visits[i].answers.now <= visits[j].answers.now
  }

  /** The pod is the same one all along. */
  ghost predicate SamePod(visits: seq<Visit>, i: nat) {
    forall k :: 0 <= k < |visits| ==> i !in visits[k].renewed
  }

  function WholeSeconds(now: int): int { now - now % SECOND }

  /** What one reconcile does to the annotation of a pod. */
  lemma VisitMarks(s: Progress, v: Visit, i: nat)
    requires i !in v.renewed
    ensures BeganAt(AfterVisit(s, v).began, i)
         == if i !in s.began && Marks(v, i) then Some(WholeSeconds(v.answers.now)) else BeganAt(s.began, i)
  {
  }

  /** The annotation is the time of the first reconcile that could make it. */
  lemma {:induction false} BeganAtFirst(s: Progress, visits: seq<Visit>, i: nat)
    requires i !in s.began && SamePod(visits, i) && InTime(visits)
    ensures
      var began := BeganAt(AfterVisits(s, visits).began, i);
      && (began.Some? ==> exists k :: 0 <= k < |visits| && Marks(visits[k], i) && began.value == WholeSeconds(visits[k].answers.now))
      && (forall k :: 0 <= k < |visits| && Marks(visits[k], i) ==> began.Some? && began.value <= visits[k].answers.now)
  {
    if visits != [] {
      var n := |visits| - 1;
      BeganAtFirst(s, visits[..n], i);
      VisitMarks(AfterVisits(s, visits[..n]), visits[n], i);
      var before := BeganAt(AfterVisits(s, visits[..n]).began, i);
      if before.Some? {
        var k :| 0 <= k < n && Marks(visits[..n][k], i) && before.value == WholeSeconds(visits[..n][k].answers.now);
        assert Marks(visits[k], i) && visits[k].answers.now <= visits[n].answers.now;
      }
      forall k | 0 <= k < n && Marks(visits[k], i) ensures before.Some? && before.value <= visits[k].answers.now {
        assert Marks(visits[..n][k], i);
      }
    }
  }

  /** The last reconcile of the run gives the pod up. */
  predicate GivesUp(s: Progress, visits: seq<Visit>, i: nat)
    requires visits != []
  {
    var n := |visits| - 1;
    var before := AfterVisits(s, visits[..n]);
    && Candidate(visits[n].pods, visits[n].answers) == Some(i)
    && Desired(before.partition, Unmarked(before.began, visits[n].renewed), visits[n].pods, visits[n].answers) == Some(i)
  }

  /** Some reconcile of the run marked the pod longer ago than the time limit, up to `slack`. */
  ghost predicate TimeIsUp(visits: seq<Visit>, i: nat, slack: int)
    requires visits != []
  {
    exists k :: 0 <= k < |visits| && Marks(visits[k], i)
      && visits[|visits| - 1].answers.now > visits[k].answers.now - slack + TRANSFER_TIMEOUT
  }

  /**
   However many reconciles choose a pod that serves data, it is given up only when its leaders are known, and are
   gone or had the time limit, less the rounding, since a reconcile that annotated the pod; and it is given up as
   soon as they are gone from an annotated pod, or have had the full time limit.
   */
  lemma LeadersGetTheirTime(s: Progress, visits: seq<Visit>, i: nat)
    requires visits != [] && i !in s.began && SamePod(visits, i) && InTime(visits)
    requires
      var last := visits[|visits| - 1];
      Candidate(last.pods, last.answers) == Some(i) && !Exempt(last.answers, |last.pods|)
    ensures
      var leaders := visits[|visits| - 1].answers.leaders;
      && (GivesUp(s, visits, i) ==> leaders.Some? && (leaders.value == 0 || TimeIsUp(visits, i, SECOND)))
      && (leaders.Some? && TimeIsUp(visits, i, 0) ==> GivesUp(s, visits, i))
      && (leaders == Some(0) && (exists k :: 0 <= k < |visits| && Marks(visits[k], i)) ==> GivesUp(s, visits, i))
  {
    var n := |visits| - 1;
    var before, last := AfterVisits(s, visits[..n]), visits[n];
    BeganAtFirst(s, visits, i);
    VisitMarks(before, last, i);
    GivenUpIff(s, visits, i);
  }

  /** The pod is given up exactly if it is ready by the annotation that the reconcile leaves. */
  lemma GivenUpIff(s: Progress, visits: seq<Visit>, i: nat)
    requires visits != [] && SamePod(visits, i)
    requires
      var last := visits[|visits| - 1];
      Candidate(last.pods, last.answers) == Some(i) && !Exempt(last.answers, |last.pods|)
    ensures
      var began := BeganAt(AfterVisits(s, visits).began, i);
      GivesUp(s, visits, i) <==> began.Some? && Ready(began, visits[|visits| - 1].answers)
  {
    var n := |visits| - 1;
    var before := AfterVisits(s, visits[..n]);
    assert BeganAt(Unmarked(before.began, visits[n].renewed), i) == BeganAt(before.began, i);
    VisitMarks(before, visits[n], i);
  }

  /** The partition is lowered only to give up an outdated pod with everything above it updated and running. */
  lemma LoweredOnlyIfReady(s: Rollout, began: map<nat, int>, a: Answers, k: nat)
    requires |s.settled| == |s.pods| && Desired(s.partition, began, s.pods, a) == Some(k) && k < s.partition <= |s.pods|
    ensures Outdated(s.pods[k]) && forall j :: k < j < |s.pods| ==> Updated(s.pods[j])
    ensures Exempt(a, |s.pods|) || Ready(Annotated(BeganAt(began, k), a), a)
  {
    NextBelowIff(s.pods, |s.pods|, k);
  }

  // ------------------------------------------------------------------ what one reconcile writes

  /** Pod `i` is the next one: it is outdated, and everything above it is updated. */
  ghost predicate IsNext(pods: seq<Pod>, i: nat) {
    i < |pods| && Outdated(pods[i]) && forall j :: i < j < |pods| ==> Updated(pods[j])
  }

  /** Nothing stands in the way of choosing a pod. */
  predicate Free(pods: seq<Pod>, a: Answers) {
    pods != [] && !a.blocked && !a.templateChanged && !a.rolledOut && a.spaces.Some?
  }

  lemma CandidateIff(pods: seq<Pod>, a: Answers, i: nat)
    ensures Candidate(pods, a) == Some(i) <==> Free(pods, a) && IsNext(pods, i)
  {
    NextBelowIff(pods, |pods|, i);
  }

  /** Without data, with too few replicas to wait for, or when forced, the next pod is given up at once, and no pod is annotated. */
  lemma GivenUpAtOnce(s: Progress, v: Visit, i: nat)
    requires Free(v.pods, v.answers) && IsNext(v.pods, i)
    requires v.answers.spaces == Some(0) || |v.pods| < 3 || v.answers.forced
    ensures AfterVisit(s, v) == Progress(i, Unmarked(s.began, v.renewed))
  {
    CandidateIff(v.pods, v.answers, i);
  }

  /**
   Otherwise the next pod is annotated, if it is not yet and can be, and is given up exactly if its leaders are
   known, and are gone from the annotated pod or have had the time limit; nothing else changes.
   */
  lemma GivenUpInTime(s: Progress, v: Visit, i: nat)
    requires Free(v.pods, v.answers) && IsNext(v.pods, i) && i !in v.renewed
    requires v.answers.spaces != Some(0) && |v.pods| >= 3 && !v.answers.forced
    ensures
      var a, after := v.answers, AfterVisit(s, v);
      && (i in s.began || a.annotates ==>
            && i in after.began
            && after.began[i] == (if i in s.began then s.began[i] else WholeSeconds(a.now))
            && after.partition == (if a.leaders.Some? && (a.leaders.value == 0 || a.now > after.began[i] + TRANSFER_TIMEOUT) then i
                                   else s.partition))
      && (i !in s.began && !a.annotates ==> i !in after.began && after.partition == s.partition)
      && (forall j :: j != i ==> BeganAt(after.began, j) == BeganAt(Unmarked(s.began, v.renewed), j))
  {
    CandidateIff(v.pods, v.answers, i);
  }

  /** With no pod to give up the annotations stay; only something that stands in the way moves the partition, to the replica count. */
  lemma NothingGivenUp(s: Progress, v: Visit)
    requires !Free(v.pods, v.answers) || forall i :: 0 <= i < |v.pods| ==> !IsNext(v.pods, i)
    ensures AfterVisit(s, v).began == Unmarked(s.began, v.renewed)
    ensures AfterVisit(s, v).partition ==
      if |v.pods| == 0 || v.answers.blocked || v.answers.templateChanged || v.answers.rolledOut then |v.pods| else s.partition
  {
    ChosenIsNext(v.pods);
  }

  /** With no pod to give up the workload is written only when all pods are updated and the leaders are spread, or when something stands in the way. */
  lemma WrittenWithoutNext(partition: nat, began: map<nat, int>, pods: seq<Pod>, a: Answers)
    requires forall i :: 0 <= i < |pods| ==> !IsNext(pods, i)
    ensures Desired(partition, began, pods, a).Some? <==>
      || pods == [] || a.blocked || a.templateChanged || a.rolledOut
      || (a.spaces.Some? && a.leadersSpread && forall i :: 0 <= i < |pods| ==> Updated(pods[i]))
  {
    NextBelowIff(pods, |pods|, 0);
    ChosenIsNext(pods);
  }

  lemma ChosenIsNext(pods: seq<Pod>)
    ensures NextBelow(pods, |pods|).Ordinal? ==> IsNext(pods, NextBelow(pods, |pods|).index)
  {
    if NextBelow(pods, |pods|).Ordinal? {
      NextBelowIff(pods, |pods|, NextBelow(pods, |pods|).index);
    }
  }

  // ------------------------------------------------------------------ a rollout that nothing holds up

  /** One reconcile, with the pods created anew since the one before; then the StatefulSet controller has time to act. */
  datatype Turn = Turn(renewed: set<nat>, answers: Answers)

  /** The reconcile may give its pod up: nothing stands in the way, and nothing has to be waited for. */
  predicate Lets(a: Answers, replicas: nat) {
    && !a.blocked && !a.templateChanged && !a.rolledOut && a.spaces.Some?
    && (a.spaces == Some(0) || replicas < 3 || a.forced || (a.annotates && a.leaders == Some(0)))
  }

  /** The pods from the partition on, once the StatefulSet controller has replaced them. */
  function Replaced(pods: seq<Pod>, partition: nat): (r: seq<Pod>)
    ensures |r| == |pods|
  {
    seq(|pods|, i requires 0 <= i < |pods| => if i >= partition then Pod(New, true) else pods[i])
  }

  datatype Rolling = Rolling(pods: seq<Pod>, progress: Progress)

  function AfterTurn(s: Rolling, t: Turn): Rolling {
    var progress := AfterVisit(s.progress, Visit(s.pods, t.renewed, t.answers));
    Rolling(Replaced(s.pods, progress.partition), progress)
  }

  function AfterTurns(s: Rolling, turns: seq<Turn>): Rolling {
    if turns == [] then s else AfterTurn(AfterTurns(s, turns[..|turns| - 1]), turns[|turns| - 1])
  }

  /** The pods below `k` are outdated, those from `k` on updated. */
  ghost predicate DoneFrom(pods: seq<Pod>, k: nat) {
    k <= |pods| && forall i :: 0 <= i < |pods| ==> if i < k then Outdated(pods[i]) else Updated(pods[i])
  }

  /** Each turn brings exactly one pod to the update revision, the highest that is not. */
  lemma TurnReplacesOne(s: Rolling, t: Turn, k: nat)
    requires DoneFrom(s.pods, k + 1) && Lets(t.answers, |s.pods|)
    ensures DoneFrom(AfterTurn(s, t).pods, k) && AfterTurn(s, t).progress.partition == k
  {
    var v := Visit(s.pods, t.renewed, t.answers);
    assert IsNext(s.pods, k);
    if t.answers.spaces == Some(0) || |s.pods| < 3 || t.answers.forced {
      GivenUpAtOnce(s.progress, v, k);
    } else {
      CandidateIff(s.pods, t.answers, k);
      assert Annotated(BeganAt(Unmarked(s.progress.began, t.renewed), k), t.answers).Some?;
    }
  }

  /** So a rollout that nothing holds up takes as many turns as there are pods to update, from the highest down. */
  lemma {:induction false} RolloutEnds(s: Rolling, turns: seq<Turn>, k: nat)
    requires DoneFrom(s.pods, k) && |turns| <= k
    requires forall i :: 0 <= i < |turns| ==> Lets(turns[i].answers, |s.pods|)
    ensures
      var r := AfterTurns(s, turns);
      && |r.pods| == |s.pods| && DoneFrom(r.pods, k - |turns|)
      && (turns != [] ==> r.progress.partition == k - |turns|)
  {
    if turns != [] {
      var n := |turns| - 1;
      RolloutEnds(s, turns[..n], k);
      TurnReplacesOne(AfterTurns(s, turns[..n]), turns[n], k - |turns|);
    }
  }

  // ------------------------------------------------------------------ operator and StatefulSet controller

  /** The pods are looked at one by one from the highest down, `below` being left to look at. */
  datatype Scan = Idle | Looking(below: nat) | Chosen(ordinal: nat)

  /** `settled` marks the pods that have been updated and running since the rollout began. */
  datatype Rollout = Rollout(pods: seq<Pod>, partition: nat, settled: seq<bool>, scan: Scan)

  /**
   Begin, Look, Write and GiveUp are the operator's, Replace, Recreate and Launch the StatefulSet
   controller's and the kubelet's; Fail and Vanish happen to any pod at any time.
   */
  datatype Step = Begin | Look | Write | GiveUp | Replace(i: nat) | Recreate(i: nat) | Launch(i: nat) | Fail(i: nat) | Vanish(i: nat)

  function Next(s: Rollout, step: Step): (r: Rollout)
    requires |s.pods| == |s.settled|
    ensures |r.pods| == |r.settled| == |s.pods|
  {
    match step
    case Begin => if s.scan.Idle? then s.(scan := Looking(|s.pods|)) else s
    case Look =>
      if s.scan.Looking? && 0 < s.scan.below <= |s.pods| then s.(scan := Looked(s.pods[s.scan.below - 1], s.scan.below)) else s
    case Write => if s.scan.Chosen? then s.(partition := s.scan.ordinal, scan := Idle) else s
    case GiveUp => s.(scan := Idle)
    case Replace(i) =>
      if s.partition <= i < |s.pods| && Outdated(s.pods[i]) then s.(pods := s.pods[i := Missing]) else s
    case Recreate(i) =>
      if i < |s.pods| && s.pods[i].Missing? then
        s.(pods := s.pods[i := Pod(if i >= s.partition then New else Old, false)])
      else s
    case Launch(i) =>
      if i < |s.pods| && s.pods[i].Pod? then
        s.(pods := s.pods[i := s.pods[i].(running := true)], settled := s.settled[i := s.settled[i] || s.pods[i].revision == New])
      else s
    case Fail(i) =>
      if i < |s.pods| && s.pods[i].Pod? then s.(pods := s.pods[i := s.pods[i].(running := false)]) else s
    case Vanish(i) =>
      if i < |s.pods| then s.(pods := s.pods[i := Missing]) else s
  }

  function Looked(p: Pod, below: nat): Scan
    requires below > 0
  {
    if Updated(p) then Looking(below - 1) else if Outdated(p) then Chosen(below - 1) else Idle
  }

  function After(s: Rollout, run: seq<Step>): (r: Rollout)
    requires |s.pods| == |s.settled|
    ensures |r.pods| == |r.settled| == |s.pods|
    decreases |run|
  {
    if run == [] then s else After(Next(s, run[0]), run[1..])
  }

  /** A rollout begins with every pod on an older revision and the partition at the replica count. */
  ghost predicate Begins(s: Rollout) {
    && |s.settled| == |s.pods| == s.partition && s.scan == Idle
    && (forall i :: 0 <= i < |s.pods| ==> Outdated(s.pods[i]) || s.pods[i].Missing?)
    && (forall i :: 0 <= i < |s.settled| ==> !s.settled[i])
  }

  /** Above the partition everything has been updated, below it nothing. */
  ghost predicate Split(s: Rollout) {
    && |s.settled| == |s.pods| && s.partition <= |s.pods|
    && (forall i :: s.partition < i < |s.pods| ==> s.settled[i])
    && (forall i :: s.partition <= i < |s.pods| && s.settled[i] ==> s.pods[i].Missing? || s.pods[i].revision == New)
    && (forall i :: 0 <= i < s.partition ==> !s.settled[i] && (Outdated(s.pods[i]) || s.pods[i].Missing?))
    && (forall i :: 0 <= i < |s.pods| && s.pods[i] == Pod(New, true) ==> s.settled[i])
    && (forall i :: 0 <= i < |s.pods| ==> s.pods[i].Missing? || s.pods[i].revision != Unlabelled)
  }

  /** Everything the scan has passed was updated and running when it was looked at. */
  ghost predicate ScanSound(s: Rollout)
    requires |s.settled| == |s.pods|
  {
    match s.scan
    case Idle => true
    case Looking(below) => s.partition <= below <= |s.pods| && forall i :: below <= i < |s.pods| ==> s.settled[i]
    case Chosen(k) => k < |s.pods| && k <= s.partition <= k + 1 && forall i :: k < i < |s.pods| ==> s.settled[i]
  }

  predicate OfOperator(step: Step) { step.Begin? || step.Look? || step.Write? || step.GiveUp? }

  lemma StepKeepsSplit(s: Rollout, step: Step)
    requires Split(s) && ScanSound(s)
    ensures Split(Next(s, step)) && ScanSound(Next(s, step))
    ensures Next(s, step).partition == s.partition || Next(s, step).partition == s.partition - 1
  {
    if OfOperator(step) {
      OperatorKeepsSplit(s, step);
    } else {
      OthersKeepSplit(s, step);
    }
  }

  lemma OperatorKeepsSplit(s: Rollout, step: Step)
    requires Split(s) && ScanSound(s) && OfOperator(step)
    ensures Split(Next(s, step)) && ScanSound(Next(s, step))
    ensures Next(s, step).partition == s.partition || Next(s, step).partition == s.partition - 1
  {
  }

  lemma OthersKeepSplit(s: Rollout, step: Step)
    requires Split(s) && ScanSound(s) && !OfOperator(step)
    ensures Split(Next(s, step)) && ScanSound(Next(s, step)) && Next(s, step).partition == s.partition
  {
    var i := step.i;
    var t := Next(s, step);
    if i < |s.pods| && t != s {
      assert t == s.(pods := s.pods[i := t.pods[i]], settled := s.settled[i := t.settled[i]]);
      OnePodChanges(s, i, t.pods[i], t.settled[i]);
    }
  }

  lemma OnePodChanges(s: Rollout, i: nat, p: Pod, mark: bool)
    requires Split(s) && ScanSound(s) && i < |s.pods|
    requires s.settled[i] ==> mark
    requires p == Pod(New, true) ==> mark
    requires p.Missing? || p.revision == Old || (p.revision == New && i >= s.partition)
    requires mark ==> i >= s.partition && !Outdated(p)
    ensures
      var t := s.(pods := s.pods[i := p], settled := s.settled[i := mark]);
      Split(t) && ScanSound(t)
  {
  }

  /** In every interleaving the split holds. */
  lemma {:induction false} RunsStaySplit(s: Rollout, run: seq<Step>)
    requires Split(s) && ScanSound(s)
    ensures Split(After(s, run)) && ScanSound(After(s, run))
    decreases |run|
  {
    if run != [] {
      StepKeepsSplit(s, run[0]);
      RunsStaySplit(Next(s, run[0]), run[1..]);
    }
  }

  /**
   In every interleaving of a rollout: above the partition every existing pod is on the update revision, at most
   the pod at the partition is still being replaced, and a step that lowers the partition lowers it by one,
   with every pod at or above the old partition updated.
   */
  lemma RolloutIsOrderly(start: Rollout, run: seq<Step>, step: Step)
    requires Begins(start)
    ensures
      var s := After(start, run);
      var s' := Next(s, step);
      && |s.settled| == |s.pods| && s.partition <= |s.pods|
      && (forall i :: s.partition < i < |s.pods| && s.pods[i].Pod? ==> s.pods[i].revision == New)
      && (forall i :: s.partition <= i < |s.pods| && !s.settled[i] ==> i == s.partition)
      && (s'.partition != s.partition ==>
            s'.partition == s.partition - 1 && forall i :: s.partition <= i < |s.pods| ==> s.settled[i])
      && (step.Replace? && s' != s ==> step.i == s.partition && !s.settled[step.i])
  {
    RunsStaySplit(start, run);
    StepKeepsSplit(After(start, run), step);
  }

  /**
   A reconcile keeps the partition or lowers it by one exactly if it does not write the replica count back
   in the middle of a rollout, as it does while another component is updated or scaled.
   */
  lemma DesiredStepIff(s: Rollout, began: map<nat, int>, a: Answers)
    requires Split(s) && Desired(s.partition, began, s.pods, a).Some?
    ensures s.partition - 1 <= Desired(s.partition, began, s.pods, a).value <= s.partition
      <==> s.partition == |s.pods| || !(a.blocked || a.templateChanged || a.rolledOut)
  {
    if 0 < s.partition {
      assert !Updated(s.pods[s.partition - 1]);
    }
    match NextBelow(s.pods, |s.pods|)
    case Ordinal(i) =>
      NextBelowIff(s.pods, |s.pods|, i);
      forall k | s.partition < k < |s.pods| ensures !Outdated(s.pods[k]) {
        assert s.settled[k];
      }
    case _ =>
  }

  // ------------------------------------------------------------------ a rollout can always be finished

  lemma {:induction false} Appended(s: Rollout, a: seq<Step>, b: seq<Step>)
    requires |s.pods| == |s.settled|
    ensures After(s, a + b) == After(After(s, a), b)
    decreases |a|
  {
    if a == [] {
      assert a + b == b;
    } else {
      assert (a + b)[0] == a[0] && (a + b)[1..] == a[1..] + b;
      Appended(Next(s, a[0]), a[1..], b);
    }
  }

  function Looks(n: nat): seq<Step> {
    if n == 0 then [] else [Look] + Looks(n - 1)
  }

  function Outcome(f: Found): Scan {
    match f
    case Ordinal(i) => Chosen(i)
    case AllUpdated => Looking(0)
    case Wait => Idle
  }

  /** A scan that nothing interrupts finds what the loop finds. */
  lemma {:induction false} UninterruptedScan(s: Rollout, n: nat, looks: nat)
    requires |s.settled| == |s.pods| && s.scan == Looking(n) && n <= |s.pods| && n <= looks
    ensures After(s, Looks(looks)) == s.(scan := Outcome(NextBelow(s.pods, n)))
    decreases looks
  {
    if looks > 0 {
      var t := Next(s, Look);
      assert Looks(looks)[0] == Look && Looks(looks)[1..] == Looks(looks - 1);
      if n > 0 && Updated(s.pods[n - 1]) {
        UninterruptedScan(t, n - 1, looks - 1);
      } else {
        NoMoreLooks(t, looks - 1);
      }
    }
  }

  lemma {:induction false} NoMoreLooks(s: Rollout, looks: nat)
    requires |s.settled| == |s.pods| && s.scan.Looking? ==> s.scan.below == 0
    requires |s.settled| == |s.pods|
    ensures After(s, Looks(looks)) == s
  {
    if looks > 0 {
      assert Looks(looks)[0] == Look && Looks(looks)[1..] == Looks(looks - 1);
      NoMoreLooks(s, looks - 1);
    }
  }

  function Renewal(i: nat): seq<Step> { [Replace(i), Recreate(i), Launch(i)] }

  /** The StatefulSet controller brings any pod at or above the partition to the update revision. */
  lemma Renewed(s: Rollout, i: nat)
    requires Split(s) && s.partition <= i < |s.pods|
    ensures
      var t := After(s, Renewal(i));
      t.partition == s.partition && t.scan == s.scan && t.pods == s.pods[i := Pod(New, true)]
  {
    ThreeSteps(s, Replace(i), Recreate(i), Launch(i));
    var a := Next(s, Replace(i));
    assert a.pods[i].Missing? || a.pods[i].revision == New;
    var b := Next(a, Recreate(i));
    assert b.pods[i].Pod? && b.pods[i].revision == New && b.pods == s.pods[i := b.pods[i]];
  }

  lemma ThreeSteps(s: Rollout, a: Step, b: Step, c: Step)
    requires |s.pods| == |s.settled|
    ensures After(s, [a, b, c]) == Next(Next(Next(s, a), b), c)
  {
    var t := Next(Next(s, a), b);
    assert [a, b, c][1..] == [b, c] && [b, c][1..] == [c];
    assert After(t, [c]) == After(Next(t, c), []);
    assert After(Next(s, a), [b, c]) == After(t, [c]);
  }

  function Renewals(from: nat, n: nat): seq<Step>
    decreases n - from
  {
    if from >= n then [] else Renewal(from) + Renewals(from + 1, n)
  }

  lemma {:induction false} AllRenewed(s: Rollout, from: nat)
    requires Split(s) && s.scan.Idle? && s.partition <= from <= |s.pods|
    ensures
      var t := After(s, Renewals(from, |s.pods|));
      && Split(t) && t.scan.Idle? && t.partition == s.partition
      && (forall j :: 0 <= j < from ==> t.pods[j] == s.pods[j])
      && (forall j :: from <= j < |s.pods| ==> Updated(t.pods[j]))
    decreases |s.pods| - from
  {
    if from < |s.pods| {
      var t := After(s, Renewal(from));
      Renewed(s, from);
      RunsStaySplit(s, Renewal(from));
      Appended(s, Renewal(from), Renewals(from + 1, |s.pods|));
      AllRenewed(t, from + 1);
      RenewedOnTop(s.pods, t.pods, After(t, Renewals(from + 1, |s.pods|)).pods, from);
    }
  }

  lemma RenewedOnTop(pods: seq<Pod>, one: seq<Pod>, all: seq<Pod>, from: nat)
    requires |pods| == |one| == |all| && from < |pods| && one == pods[from := Pod(New, true)]
    requires forall j :: 0 <= j < from + 1 ==> all[j] == one[j]
    requires forall j :: from + 1 <= j < |pods| ==> Updated(all[j])
    ensures forall j :: 0 <= j < from ==> all[j] == pods[j]
    ensures forall j :: from <= j < |pods| ==> Updated(all[j])
  {
  }

  function Round(s: Rollout): seq<Step>
    requires s.partition > 0
  {
    [Recreate(s.partition - 1), Begin] + Looks(|s.pods|) + [Write]
  }

  /** Where a round leads. */
  function Lowering(s: Rollout): Rollout
    requires |s.pods| == |s.settled| && s.partition > 0
  {
    Next(Next(Next(s, Recreate(s.partition - 1)), Begin).(scan := Chosen(s.partition - 1)), Write)
  }

  lemma RoundIsLowering(s: Rollout)
    requires Split(s) && s.scan.Idle? && s.partition > 0
    requires forall j :: s.partition <= j < |s.pods| ==> Updated(s.pods[j])
    ensures After(s, Round(s)) == Lowering(s)
  {
    Prepared(s);
    RoundEnds(s, Next(Next(s, Recreate(s.partition - 1)), Begin), s.partition - 1);
  }

  lemma LoweringLowers(s: Rollout)
    requires Split(s) && s.scan.Idle? && s.partition > 0
    requires forall j :: s.partition <= j < |s.pods| ==> Updated(s.pods[j])
    ensures Split(Lowering(s)) && Lowering(s).scan.Idle? && Lowering(s).partition == s.partition - 1
  {
    Prepared(s);
    WriteLowers(Next(Next(s, Recreate(s.partition - 1)), Begin), s.partition - 1);
  }

  lemma RoundEnds(s: Rollout, b: Rollout, i: nat)
    requires |s.pods| == |s.settled| && s.partition == i + 1
    requires b == Next(Next(s, Recreate(i)), Begin)
    requires b.scan == Looking(|b.pods|) && NextBelow(b.pods, |b.pods|) == Ordinal(i)
    ensures After(s, Round(s)) == Next(b.(scan := Chosen(i)), Write)
  {
    Bracketed(s, Recreate(i), Begin, Looks(|s.pods|), Write);
    UninterruptedScan(b, |b.pods|, |b.pods|);
  }

  /** With everything from the partition on updated, the scan that begins will choose the pod below. */
  lemma Prepared(s: Rollout)
    requires Split(s) && s.scan.Idle? && s.partition > 0
    requires forall j :: s.partition <= j < |s.pods| ==> Updated(s.pods[j])
    ensures
      var b := Next(Next(s, Recreate(s.partition - 1)), Begin);
      && Split(b) && b.partition == s.partition && b.scan == Looking(|b.pods|)
      && NextBelow(b.pods, |b.pods|) == Ordinal(s.partition - 1)
      && forall j :: s.partition - 1 < j < |b.pods| ==> b.settled[j]
  {
    var i := s.partition - 1;
    var a := Next(s, Recreate(i));
    StepKeepsSplit(s, Recreate(i));
    StepKeepsSplit(a, Begin);
    ChosenBelow(s.pods, a.pods, i);
  }

  lemma ChosenBelow(pods: seq<Pod>, after: seq<Pod>, i: nat)
    requires i < |pods| == |after| && Outdated(after[i])
    requires forall j :: i < j < |pods| ==> Updated(pods[j]) && after[j] == pods[j]
    ensures NextBelow(after, |after|) == Ordinal(i)
  {
    NextBelowIff(after, |after|, i);
  }

  lemma WriteLowers(b: Rollout, i: nat)
    requires Split(b) && i + 1 == b.partition && forall j :: i < j < |b.pods| ==> b.settled[j]
    ensures
      var t := Next(b.(scan := Chosen(i)), Write);
      Split(t) && t.scan.Idle? && t.partition == i
  {
    StepKeepsSplit(b.(scan := Chosen(i)), Write);
  }

  lemma Bracketed(s: Rollout, x: Step, y: Step, middle: seq<Step>, z: Step)
    requires |s.pods| == |s.settled|
    ensures After(s, [x, y] + middle + [z]) == Next(After(Next(Next(s, x), y), middle), z)
  {
    Appended(s, [x, y] + middle, [z]);
    Appended(s, [x, y], middle);
    OneStep(After(s, [x, y] + middle), z);
    assert [x, y][1..] == [y];
    OneStep(Next(s, x), y);
  }

  lemma OneStep(s: Rollout, x: Step)
    requires |s.pods| == |s.settled|
    ensures After(s, [x]) == Next(s, x)
  {
    assert After(Next(s, x), [x][1..]) == Next(s, x);
  }

  /** The run that finishes a rollout in which nothing more fails. */
  function Finish(s: Rollout): seq<Step>
    requires |s.pods| == |s.settled|
    decreases s.partition
  {
    var up := [GiveUp] + Renewals(s.partition, |s.pods|);
    var t := After(s, up);
    if t.partition == 0 || t.partition > s.partition then up
    else
      var down := Round(t);
      if After(t, down).partition < s.partition then up + down + Finish(After(t, down)) else up
  }

  /** From every reachable state the rollout can be finished: partition zero and every pod updated and running. */
  lemma {:induction false} CanFinish(s: Rollout)
    requires Split(s) && ScanSound(s)
    ensures
      var t := After(s, Finish(s));
      t.partition == 0 && |t.pods| == |s.pods| && forall j :: 0 <= j < |t.pods| ==> Updated(t.pods[j])
    decreases s.partition
  {
    var idle := Next(s, GiveUp);
    var renewals := Renewals(s.partition, |s.pods|);
    StepKeepsSplit(s, GiveUp);
    AllRenewed(idle, s.partition);
    assert ([GiveUp] + renewals)[1..] == renewals;
    var up := [GiveUp] + renewals;
    var t := After(s, up);
    assert t == After(idle, renewals);
    if s.partition > 0 {
      RoundIsLowering(t);
      LoweringLowers(t);
      var u := After(t, Round(t));
      assert ScanSound(u);
      CanFinish(u);
      Appended(s, up, Round(t));
      Appended(s, up + Round(t), Finish(u));
    }
  }
}
