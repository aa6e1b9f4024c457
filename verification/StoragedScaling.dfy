/**
 Scaling the storage service in and out. A reconcile reads the persisted status, asks the meta
 service to start or poll one data-moving job after the other, and records its progress in the
 status; any failure ends the reconcile, and the next one resumes from what was persisted.

 Everything outside the operator is a stream of answers, one per request: a request's outcome, the
 id of a started job, the state of a polled one, and the fate of a status write. The trace lists the
 requests that matter, in order.
 */
module StoragedScaling {

  datatype Option<+T> = None | Some(value: T)

  datatype Phase = Running | Updating | ScalingIn | ScalingOut

  datatype Job = Job(space: int, id: int)

  datatype Status = Status(phase: Phase, balanced: seq<int>, removed: seq<int>, lastJob: Option<Job>)

  /** Removal moves data off hosts that go away; Balance spreads data onto new hosts. */
  datatype Kind = Removal | Balance

  datatype JobState = InProgress | Failed | Finished

  /** A write is stored and acknowledged, lost, or stored although it is reported as failed. */
  datatype Write = Stored | Lost | StoredUnseen

  datatype Answer = Answer(ok: bool, jobId: int, state: JobState, write: Write)

  type Answers = nat -> Answer

  datatype Event =
    | JobStarted(kind: Kind, job: Job, hosts: seq<int>)
    | JobReported(job: Job, state: JobState)
    | JobRecovered(job: Job)
    | LeadersBalanced(space: int)
    | DropAsked(hosts: seq<int>)
    | HostsDropped(hosts: seq<int>)
    | VolumesMarked
    | VolumesGone
    | BookkeepingCleared
    | WorkloadResized(replicas: int)

  /** `persisted` is the stored status, `status` the reconcile's copy, `next` the next answer. */
  datatype World = World(persisted: Status, status: Status, replicas: int, trace: seq<Event>, next: nat) {
    function Logged(event: Event): World { this.(trace := trace + [event]) }

    function Asked(): World { this.(next := next + 1) }

    /** The spaces a job of this kind has been completed for. */
    function Done(kind: Kind): seq<int> { DoneOf(status, kind) }
  }

  function DoneOf(status: Status, kind: Kind): seq<int> {
    match kind
    case Removal => status.removed
    case Balance => status.balanced
  }

  /** What stays fixed during one scale operation. */
  datatype Config = Config(spaces: seq<int>, target: int)

  /**
   What one reconcile sees of the pods: the hosts to remove (None if a lookup fails), whether all
   created pods are ready, and whether automatic balancing is enabled.
   */
  datatype Sight = Sight(hosts: Option<seq<int>>, ready: bool, autoBalance: bool)

  type Result = (World, bool)

  // ------------------------------------------------------------------ requests

  function WriteStatus(w: World, env: Answers): Result {
    var a := env(w.next).write;
    (if a == Lost then w.Asked() else w.Asked().(persisted := w.status), a == Stored)
  }

  /** A request of which only the outcome matters. */
  function Request(w: World, env: Answers): Result {
    (w.Asked(), env(w.next).ok)
  }

  function MarkDone(w: World, kind: Kind, space: int): World {
    match kind
    case Removal => w.(status := w.status.(removed := w.status.removed + [space]))
    case Balance => w.(status := w.status.(balanced := w.status.balanced + [space]))
  }

  /** Balance the leaders of one space and record it. */
  function BalanceLeader(w: World, env: Answers, space: int): Result {
    var (asked, ok) := Request(w, env);
    if !ok then (asked, false)
    else WriteStatus(MarkDone(asked.Logged(LeadersBalanced(space)), Balance, space), env)
  }

  /** Ask for the recorded job; only a finished one lets the reconcile go on. */
  function PollJob(kind: Kind, w: World, env: Answers, job: Job): Result {
    var a := env(w.next);
    if !a.ok then (w.Asked(), false)
    else
      var polled := w.Asked().Logged(JobReported(job, a.state));
      match a.state
      case InProgress => (polled, false)
      case Failed => (polled.Asked().Logged(JobRecovered(job)), false)
      case Finished => FinishJob(kind, polled, env, job)
  }

  function FinishJob(kind: Kind, w: World, env: Answers, job: Job): Result {
    match kind
    case Removal => WriteStatus(MarkDone(w, kind, job.space), env)
    case Balance => BalanceLeader(w, env, job.space)
  }

  /** Start a job and record it; the reconcile always ends here, to come back for the outcome. */
  function StartJob(kind: Kind, w: World, env: Answers, space: int, hosts: seq<int>): Result {
    var a := env(w.next);
    if a.ok && a.jobId > 0 then
      var job := Job(space, a.jobId);
      var started := w.Asked().Logged(JobStarted(kind, job, hosts));
      (WriteStatus(started.(status := started.status.(lastJob := Some(job))), env).0, false)
    else (w.Asked(), false)
  }

  /** One space: poll the recorded job if it is this space's, start one otherwise. */
  function ProcessSpace(kind: Kind, w: World, env: Answers, space: int, hosts: seq<int>): Result {
    if w.status.lastJob.Some? && w.status.lastJob.value.space == space then
      PollJob(kind, w, env, w.status.lastJob.value)
    else
      StartJob(kind, w, env, space, hosts)
  }

  function ProcessSpaces(kind: Kind, w: World, env: Answers, spaces: seq<int>, hosts: seq<int>): Result
    decreases |spaces|
  {
    if spaces == [] then (w, true)
    else if spaces[0] in w.Done(kind) then ProcessSpaces(kind, w, env, spaces[1..], hosts)
    else
      var (w', ok) := ProcessSpace(kind, w, env, spaces[0], hosts);
      if ok then ProcessSpaces(kind, w', env, spaces[1..], hosts) else (w', false)
  }

  /** After the removal of hosts: balance the leaders of every space not yet balanced. */
  function BalanceLeaders(w: World, env: Answers, spaces: seq<int>): Result
    decreases |spaces|
  {
    if spaces == [] then (w, true)
    else if spaces[0] in w.status.balanced then BalanceLeaders(w, env, spaces[1..])
    else
      var (w', ok) := BalanceLeader(w, env, spaces[0]);
      if ok then BalanceLeaders(w', env, spaces[1..]) else (w', false)
  }

  // ------------------------------------------------------------------ scaling

  const CLEARED := Status(Running, [], [], None)

  function EnterPhase(w: World, env: Answers, phase: Phase): Result {
    WriteStatus(w.(status := w.status.(phase := phase)), env)
  }

  /** Connect to the meta service and list the spaces. */
  function ReachMeta(w: World, env: Answers): Result {
    var (connected, ok) := Request(w, env);
    if ok then Request(connected, env) else (connected, false)
  }

  /** Drop the hosts; the request may take effect whatever the answer, but only a good answer says that it has. */
  function DropHosts(w: World, env: Answers, hosts: seq<int>): Result {
    var (asked, ok) := Request(w.Logged(DropAsked(hosts)), env);
    (if ok then asked.Logged(HostsDropped(hosts)) else asked, ok)
  }

  /** Move the data away from the hosts, then drop them. */
  function RemoveHosts(w: World, env: Answers, c: Config, sight: Sight): Result {
    if w.replicas - c.target <= 0 then (w, true)
    else if sight.hosts.None? then (w, false)
    else
      var (moved, ok) := ProcessSpaces(Removal, w, env, c.spaces, sight.hosts.value);
      if ok then DropHosts(moved, env, sight.hosts.value) else (moved, false)
  }

  /** Mark the volumes for reclaiming and check that they are gone; then the bookkeeping is cleared. */
  function FinishScaleIn(w: World, env: Answers): Result {
    var (marked, ok) := Request(w, env);
    if !ok then (marked, false)
    else
      var (reclaimed, gone) := Request(marked.Logged(VolumesMarked), env);
      if gone then WriteStatus(reclaimed.Logged(VolumesGone).Logged(BookkeepingCleared).(status := CLEARED), env)
      else (reclaimed, false)
  }

  /** With the spaces listed: empty and drop the hosts, balance the leaders, clear the bookkeeping. */
  function RemoveAndFinish(w: World, env: Answers, c: Config, sight: Sight): Result {
    var (removed, dropped) := RemoveHosts(w, env, c, sight);
    if !dropped then (removed, false)
    else
      var (balanced, ok) := BalanceLeaders(removed, env, c.spaces);
      if ok then FinishScaleIn(balanced, env) else (balanced, false)
  }

  function ScaleIn(w: World, env: Answers, c: Config, sight: Sight): Result {
    var (entered, stored) := EnterPhase(w, env, ScalingIn);
    if !stored then (entered, false)
    else
      var (reached, listed) := ReachMeta(entered, env);
      if listed then RemoveAndFinish(reached, env, c, sight) else (reached, false)
  }

  function ScaleOut(w: World, env: Answers, c: Config, sight: Sight): Result {
    var (entered, stored) := EnterPhase(w, env, ScalingOut);
    if !stored then (entered, false)
    else if !sight.ready then (entered, true)
    else if !sight.autoBalance then (entered.(status := entered.status.(phase := Running)), true)
    else
      var (reached, listed) := ReachMeta(entered, env);
      if !listed then (reached, false)
      else
        var (balanced, ok) := ProcessSpaces(Balance, reached, env, c.spaces, []);
        if ok then WriteStatus(balanced.(status := balanced.status.(balanced := [], lastJob := None, phase := Running)), env)
        else (balanced, false)
  }

  function Scale(w: World, env: Answers, c: Config, sight: Sight): Result {
    if c.target < w.replicas || w.status.phase == ScalingIn then ScaleIn(w, env, c, sight)
    else if c.target > w.replicas || w.status.phase == ScalingOut then ScaleOut(w, env, c, sight)
    else (w, true)
  }

  /** The workload is written only after the scaling step has succeeded; it may be stored although an error is reported. */
  function UpdateWorkload(w: World, env: Answers, c: Config): World {
    if w.replicas == c.target then w
    else
      var (asked, ok) := Request(w, env);
      if ok || env(w.next).write == StoredUnseen then asked.Logged(WorkloadResized(c.target)).(replicas := c.target) else asked
  }

  /** One reconcile: start from the persisted status, scale, update the workload, write the status. */
  function Reconcile(w: World, env: Answers, c: Config, sight: Sight): World {
    var (scaled, ok) := Scale(w.(status := w.persisted), env, c, sight);
    WriteStatus(if ok then UpdateWorkload(scaled, env, c) else scaled, env).0
  }

  // ------------------------------------------------------------------ the operator

  class StorageScaler {
    const answers: Answers
    var world: World

    constructor (answers: Answers, world: World)
      ensures this.answers == answers && this.world == world
    {
      this.answers, this.world := answers, world;
    }

    method UpdateNebulaClusterStatus() returns (stored: bool)
      modifies this
      ensures (world, stored) == WriteStatus(old(world), answers)
    {
      var a := answers(world.next).write;
      if a != Lost {
        world := world.(persisted := world.status);
      }
      world := world.Asked();
      stored := a == Stored;
    }

    method Ask() returns (ok: bool)
      modifies this
      ensures (world, ok) == Request(old(world), answers)
    {
      ok := answers(world.next).ok;
      world := world.Asked();
    }

    /** `removeHost` (Removal) and `balanceSpace` (Balance), which differ in the list they append to
        and in the leader balancing that ends the latter. */
    method AdvanceSpace(kind: Kind, space: int, hosts: seq<int>) returns (done: bool)
      modifies this
      ensures (world, done) == ProcessSpace(kind, old(world), answers, space, hosts)
    {
      if world.status.lastJob.Some? && world.status.lastJob.value.space == space {
        var job := world.status.lastJob.value;
        var a := answers(world.next);
        world := world.Asked();
        if !a.ok {
          return false;
        }
        world := world.Logged(JobReported(job, a.state));
        if a.state == Failed {
          world := world.Asked().Logged(JobRecovered(job));
          return false;
        }
        if a.state == InProgress {
          return false;
        }
        if kind == Balance {
          var ok := Ask();
          if !ok {
            return false;
          }
          world := world.Logged(LeadersBalanced(job.space));
          world := world.(status := world.status.(balanced := world.status.balanced + [job.space]));
        } else {
          world := world.(status := world.status.(removed := world.status.removed + [job.space]));
        }
        done := UpdateNebulaClusterStatus();
      } else {
        var a := answers(world.next);
        world := world.Asked();
        if a.ok && a.jobId > 0 {
          var job := Job(space, a.jobId);
          world := world.Logged(JobStarted(kind, job, hosts));
          world := world.(status := world.status.(lastJob := Some(job)));
          var stored := UpdateNebulaClusterStatus();
        }
        done := false;
      }
    }

    method AdvanceSpaces(kind: Kind, spaces: seq<int>, hosts: seq<int>) returns (done: bool)
      modifies this
      ensures (world, done) == ProcessSpaces(kind, old(world), answers, spaces, hosts)
    {
      ghost var whole := ProcessSpaces(kind, world, answers, spaces, hosts);
      for i := 0 to |spaces|
        invariant ProcessSpaces(kind, world, answers, spaces[i..], hosts) == whole
      {
        assert spaces[i..][1..] == spaces[i + 1..];
        if spaces[i] in world.Done(kind) {
          continue;
        }
        var ok := AdvanceSpace(kind, spaces[i], hosts);
        if !ok {
          return false;
        }
      }
      done := true;
    }

    method BalanceAllLeaders(spaces: seq<int>) returns (done: bool)
      modifies this
      ensures (world, done) == BalanceLeaders(old(world), answers, spaces)
    {
      ghost var whole := BalanceLeaders(world, answers, spaces);
      for i := 0 to |spaces|
        invariant BalanceLeaders(world, answers, spaces[i..]) == whole
      {
        assert spaces[i..][1..] == spaces[i + 1..];
        if spaces[i] in world.status.balanced {
          continue;
        }
        var ok := Ask();
        if !ok {
          return false;
        }
        world := world.Logged(LeadersBalanced(spaces[i]));
        world := world.(status := world.status.(balanced := world.status.balanced + [spaces[i]]));
        var stored := UpdateNebulaClusterStatus();
        if !stored {
          return false;
        }
      }
      done := true;
    }

    method DoScaleIn(c: Config, sight: Sight) returns (done: bool)
      modifies this
      ensures (world, done) == ScaleIn(old(world), answers, c, sight)
    {
      world := world.(status := world.status.(phase := ScalingIn));
      done := UpdateNebulaClusterStatus();
      if !done { return; }
      done := Ask();  // connect
      if !done { return; }
      done := Ask();  // list spaces
      if !done { return; }
      if world.replicas - c.target > 0 {
        if sight.hosts.None? { return false; }
        done := AdvanceSpaces(Removal, c.spaces, sight.hosts.value);
        if !done { return; }
        world := world.Logged(DropAsked(sight.hosts.value));
        done := Ask();
        if !done { return; }
        world := world.Logged(HostsDropped(sight.hosts.value));
      }
      done := BalanceAllLeaders(c.spaces);
      if !done { return; }
      done := Ask();  // mark the volumes
      if !done { return; }
      world := world.Logged(VolumesMarked);
      done := Ask();  // are they gone?
      if !done { return; }
      world := world.Logged(VolumesGone).Logged(BookkeepingCleared);
      world := world.(status := Status(Running, [], [], None));
      done := UpdateNebulaClusterStatus();
    }

    method DoScaleOut(c: Config, sight: Sight) returns (done: bool)
      modifies this
      ensures (world, done) == ScaleOut(old(world), answers, c, sight)
    {
      world := world.(status := world.status.(phase := ScalingOut));
      done := UpdateNebulaClusterStatus();
      if !done { return; }
      if !sight.ready { return true; }
      if !sight.autoBalance {
        world := world.(status := world.status.(phase := Running));
        return true;
      }
      done := Ask();  // connect
      if !done { return; }
      done := Ask();  // list spaces
      if !done { return; }
      done := AdvanceSpaces(Balance, c.spaces, []);
      if !done { return; }
      world := world.(status := world.status.(balanced := [], lastJob := None, phase := Running));
      done := UpdateNebulaClusterStatus();
    }

    /** One reconcile of the storage workload, as far as scaling is concerned. */
    method SyncStoragedWorkload(c: Config, sight: Sight)
      modifies this
      ensures world == Reconcile(old(world), answers, c, sight)
    {
      world := world.(status := world.persisted);
      var ok := true;
      if c.target < world.replicas || world.status.phase == ScalingIn {
        ok := DoScaleIn(c, sight);
      } else if c.target > world.replicas || world.status.phase == ScalingOut {
        ok := DoScaleOut(c, sight);
      }
      if ok && world.replicas != c.target {
        var unseen := answers(world.next).write == StoredUnseen;
        var updated := Ask();
        if updated || unseen {
          world := world.Logged(WorkloadResized(c.target)).(replicas := c.target);
        }
      }
      var stored := UpdateNebulaClusterStatus();
    }
  }
}
