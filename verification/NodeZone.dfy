/**
 The NodeZone scheduler plugin. The pods of one StatefulSet are taken in triples 3q, 3q+1, 3q+2, and
 each triple is to be spread over three zones. Filter and Permit only look at pods that are already
 bound, while binding happens asynchronously; zones that pods got are remembered in a zone map.
 */
module NodeZone {

  datatype Option<+T> = None | Some(value: T)

  type Zone = string

  const AVAILABLE_ZONES: nat := 3

  /**
   A pod of the set: `Waiting` in the permit stage, `Binding` once permitted (its node is not yet
   visible in the pod), `Bound`, and `Terminating` while it is being deleted.
   */
  datatype Pod =
    | Absent
    | Pending
    | Waiting(node: string)
    | Binding(node: string)
    | Bound(node: string)
    | Terminating(node: string)
  {
    /** `isPodScheduled`: the pod has a node and is not being deleted. */
    predicate Scheduled() { Bound? }

    /** The pod occupies its node. */
    predicate Placed() { Binding? || Bound? || Terminating? }
  }

  type Pods = map<nat, Pod>

  /** The nodes and their topology zone labels. */
  type Nodes = map<string, Option<Zone>>

  function PodAt(pods: Pods, o: nat): Pod {
    if o in pods then pods[o] else Absent
  }

  function Anchor(o: nat): nat { o - o % AVAILABLE_ZONES }

  datatype Verdict = Success | Wait | Unschedulable | Error

  /** A scheduled neighbour rules out the zone: it is in it, or its own zone cannot be told. */
  predicate RuledOut(pods: Pods, nodes: Nodes, neighbour: nat, zone: Zone) {
    var pod := PodAt(pods, neighbour);
    pod.Scheduled() && (pod.node in nodes && nodes[pod.node].Some? ==> nodes[pod.node].value == zone)
  }

  /** Filter, with the zone map that PreFilter put into the cycle state. */
  function Filter(state: Option<map<nat, Zone>>, pods: Pods, nodes: Nodes, o: nat, node: string): Verdict {
    if state.None? then Error
    else if node !in nodes || nodes[node].None? then Unschedulable
    else
      var nodeZone := nodes[node].value;
      var mapped := if o in state.value then state.value[o] else "";
      if mapped != "" then
        if mapped != nodeZone then Unschedulable else Success
      else if o % AVAILABLE_ZONES == 0 then Success
      else if RuledOut(pods, nodes, Anchor(o), nodeZone) then Unschedulable
      else if RuledOut(pods, nodes, if o % AVAILABLE_ZONES == 1 then o + 1 else o - 1, nodeZone) then Unschedulable
      else Success
  }

  function Label(nodes: Nodes, node: string): Zone {
    if node in nodes && nodes[node].Some? then nodes[node].value else ""
  }

  /** Permit, for a pod that the scheduler has put on `node`. */
  function Permit(pods: Pods, nodes: Nodes, o: nat, node: string): Verdict {
    if o % AVAILABLE_ZONES == 0 then Success
    else
      var anchor := PodAt(pods, Anchor(o));
      if !anchor.Scheduled() then Wait
      else if node !in nodes || anchor.node !in nodes then Unschedulable
      else if Label(nodes, anchor.node) == Label(nodes, node) then Unschedulable
      else if o % AVAILABLE_ZONES == 2 then
        var sibling := PodAt(pods, o - 1);
        if !sibling.Scheduled() then Wait
        else if sibling.node !in nodes || nodes[sibling.node].None? then Unschedulable
        else if nodes[sibling.node].value == Label(nodes, node) then Unschedulable
        else Success
      else Success
  }

  /** A released pod takes the waiting pods of its triple with it, unless it is the triple's anchor. */
  function Unreserve(pods: Pods, o: nat): Pods {
    if o % AVAILABLE_ZONES == 0 then pods
    else map p | p in pods :: if pods[p].Waiting? && p / AVAILABLE_ZONES == o / AVAILABLE_ZONES then Pending else pods[p]
  }

  // ------------------------------------------------------------------ the transition system

  /** A scheduling cycle: its pod, the zone map as PreFilter read it, and the node that passed Filter. */
  datatype Cycle = Cycle(pod: nat, state: Option<map<nat, Zone>>, node: Option<string>)

  datatype World = World(pods: Pods, zoneMap: map<nat, Zone>, cycle: Option<Cycle>)

  datatype Step =
    | Create(o: nat)                 // the StatefulSet controller creates the pod
    | StartCycle(o: nat, read: bool) // PreFilter reads the zone map, or finds nothing
    | FilterNode(node: string)
    | PermitNode
    | Expire(o: nat)                 // a waiting pod runs into its time limit
    | BindDone(o: nat)
    | BindFail(o: nat)
    | MapZone(o: nat)                // the operator writes the pod's zone into the zone map
    | Trim(n: nat)                   // the operator rewrites the map for the first `n` pods, the others being gone
    | Delete(o: nat)
    | Gone(o: nat)

  function SetPod(w: World, o: nat, pod: Pod): World { w.(pods := w.pods[o := pod]) }

  /** One step; a step that is not enabled changes nothing. */
  function Next(w: World, nodes: Nodes, step: Step): World {
    match step
    case Create(o) =>
      if PodAt(w.pods, o).Absent? then SetPod(w, o, Pending) else w
    case StartCycle(o, read) =>
      if PodAt(w.pods, o).Pending? && w.cycle.None? then
        w.(cycle := Some(Cycle(o, if read then Some(w.zoneMap) else None, None)))
      else w
    case FilterNode(node) =>
      if w.cycle.Some? && Filter(w.cycle.value.state, w.pods, nodes, w.cycle.value.pod, node).Success? then
        w.(cycle := Some(w.cycle.value.(node := Some(node))))
      else w
    case PermitNode =>
      if w.cycle.Some? && w.cycle.value.node.Some? then
        var c := w.cycle.value;
        var done := w.(cycle := None);
        match Permit(w.pods, nodes, c.pod, c.node.value)
        case Success => SetPod(done, c.pod, Binding(c.node.value))
        case Wait => SetPod(done, c.pod, Waiting(c.node.value))
        case _ => done.(pods := Unreserve(done.pods, c.pod))
      else w
    case Expire(o) =>
      if PodAt(w.pods, o).Waiting? then
        var expired := SetPod(w, o, Pending);
        expired.(pods := Unreserve(expired.pods, o))
      else w
    case BindDone(o) =>
      if PodAt(w.pods, o).Binding? then SetPod(w, o, Bound(w.pods[o].node)) else w
    case BindFail(o) =>
      if PodAt(w.pods, o).Binding? then
        var failed := SetPod(w, o, Pending);
        failed.(pods := Unreserve(failed.pods, o))
      else w
    case MapZone(o) =>
      if (PodAt(w.pods, o).Bound? || PodAt(w.pods, o).Terminating?) && o !in w.zoneMap && Label(nodes, w.pods[o].node) != "" then
        w.(zoneMap := w.zoneMap[o := Label(nodes, w.pods[o].node)])
      else w
    case Trim(n) =>
      if forall o :: o in w.pods && o >= n ==> w.pods[o].Absent? then
        w.(zoneMap := map o | o in w.zoneMap && o < n :: w.zoneMap[o])
      else w
    case Delete(o) =>
      var pod := PodAt(w.pods, o);
      var cycle := if w.cycle.Some? && w.cycle.value.pod == o then None else w.cycle;
      SetPod(w, o, if pod.Bound? then Terminating(pod.node) else if pod.Terminating? then pod else Absent).(cycle := cycle)
    case Gone(o) =>
      if PodAt(w.pods, o).Terminating? then SetPod(w, o, Absent) else w
  }

  /** Pods that hold or are getting a node are deleted only once their zone is in the zone map. */
  predicate Tame(w: World, step: Step) {
    step.Delete? && PodAt(w.pods, step.o).Placed() ==> step.o in w.zoneMap
  }

  const START := World(map[], map[], None)

  function After(nodes: Nodes, steps: seq<Step>): World {
    if steps == [] then START else Next(After(nodes, steps[..|steps| - 1]), nodes, steps[|steps| - 1])
  }

  ghost predicate TameRun(nodes: Nodes, steps: seq<Step>) {
    steps != [] ==>
      var earlier := steps[..|steps| - 1];
      TameRun(nodes, earlier) && Tame(After(nodes, earlier), steps[|steps| - 1])
  }
}
