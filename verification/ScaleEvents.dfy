/**
 Scale events: the slices `scaleUpEvents` and `scaleDownEvents`. An event that is older than the
 longest policy period of its direction is flagged, and a flagged slot is the next to be reused.
 */
module ScaleEvents {
  import opened SlotBuffers

  datatype ScaleEvent = ScaleEvent(replicaChange: int, timestamp: int, outdated: bool)

  /** The events without their flags. */
  function Strip(events: seq<ScaleEvent>): seq<Stamped<int>> {
    seq(|events|, i requires 0 <= i < |events| => Stamped(events[i].replicaChange, events[i].timestamp))
  }

  function Marked(events: seq<ScaleEvent>, cutoff: int): seq<ScaleEvent> {
    seq(|events|, i requires 0 <= i < |events| =>
      if events[i].timestamp < cutoff then events[i].(outdated := true) else events[i])
  }

  function LastOutdated(events: seq<ScaleEvent>): (i: int)
    ensures -1 <= i < |events|
  {
    if events == [] then -1
    else if events[|events| - 1].outdated then |events| - 1
    else LastOutdated(events[..|events| - 1])
  }

  lemma {:induction false} LastOutdatedIsLast(events: seq<ScaleEvent>)
    ensures var i := LastOutdated(events);
      && (i >= 0 ==> events[i].outdated)
      && forall j :: i < j < |events| ==> !events[j].outdated
  {
    if events != [] {
      LastOutdatedIsLast(events[..|events| - 1]);
    }
  }

  /** Flag what is older than the cutoff, then write into the last flagged slot or a new one. */
  function Stored(events: seq<ScaleEvent>, cutoff: int, change: int, now: int): seq<ScaleEvent> {
    var marked := Marked(events, cutoff);
    var event := ScaleEvent(change, now, false);
    var i := LastOutdated(marked);
    if i >= 0 then marked[i := event] else marked + [event]
  }

  /** Only events from before `bound` are flagged. */
  ghost predicate FlagsBefore(events: seq<ScaleEvent>, bound: int) {
    forall i :: 0 <= i < |events| && events[i].outdated ==> events[i].timestamp < bound
  }

  /** The index found through the flags is the one the timestamps give. */
  lemma LastOutdatedIsLastOlder(events: seq<ScaleEvent>, bound: int, cutoff: int)
    requires FlagsBefore(events, bound) && bound <= cutoff
    ensures LastOutdated(Marked(events, cutoff)) == LastOlder(Strip(events), cutoff)
  {
    LastOutdatedIsLast(Marked(events, cutoff));
    LastOlderIsLast(Strip(events), cutoff);
    var i := LastOutdated(Marked(events, cutoff));
    var j := LastOlder(Strip(events), cutoff);
    assert i >= 0 ==> Strip(events)[i].timestamp < cutoff;
    assert j >= 0 ==> Marked(events, cutoff)[j].outdated;
  }

  /** Storing an event is one write into a slot buffer; the sticky flags make no difference. */
  lemma StoredIsRecorded(events: seq<ScaleEvent>, bound: int, cutoff: int, change: int, now: int)
    requires FlagsBefore(events, bound) && bound <= cutoff
    ensures Strip(Stored(events, cutoff, change, now)) == Recorded(Strip(events), cutoff, Stamped(change, now))
    ensures FlagsBefore(Stored(events, cutoff, change, now), cutoff)
  {
    LastOutdatedIsLastOlder(events, bound, cutoff);
  }
}
