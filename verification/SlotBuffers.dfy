/**
 The autoscaler keeps its recommendations and scale events in slices whose stale slots are
 overwritten in place. This module holds the theory of such a buffer: which questions it answers
 exactly as the complete, never forgetting log would.
 */
module SlotBuffers {

  /** A value recorded at an instant (nanoseconds). */
  datatype Stamped<T> = Stamped(value: T, timestamp: int)

  /** The index of the last entry older than `cutoff`, or -1 when there is none. */
  function LastOlder<T>(entries: seq<Stamped<T>>, cutoff: int): (i: int)
    ensures -1 <= i < |entries|
  {
    if entries == [] then -1
    else if entries[|entries| - 1].timestamp < cutoff then |entries| - 1
    else LastOlder(entries[..|entries| - 1], cutoff)
  }

  lemma {:induction false} LastOlderIsLast<T>(entries: seq<Stamped<T>>, cutoff: int)
    ensures var i := LastOlder(entries, cutoff);
      && (i >= 0 ==> entries[i].timestamp < cutoff)
      && forall j :: i < j < |entries| ==> entries[j].timestamp >= cutoff
  {
    if entries != [] {
      LastOlderIsLast(entries[..|entries| - 1], cutoff);
    }
  }

  /** One write: reuse the last stale slot if there is one, grow otherwise. */
  function Recorded<T>(buffer: seq<Stamped<T>>, cutoff: int, entry: Stamped<T>): seq<Stamped<T>> {
    var i := LastOlder(buffer, cutoff);
    if i >= 0 then buffer[i := entry] else buffer + [entry]
  }

  /** The buffer after a whole log of writes, each made with a cutoff `window` before its own time. */
  function BufferOf<T>(log: seq<Stamped<T>>, window: int): seq<Stamped<T>> {
    if log == [] then []
    else
      var last := log[|log| - 1];
      Recorded(BufferOf(log[..|log| - 1], window), last.timestamp - window, last)
  }

  /** The log is in chronological order and nothing in it is from after `now`. */
  ghost predicate Chronicle<T>(log: seq<Stamped<T>>, now: int) {
    log != [] ==>
      var last := log[|log| - 1];
      last.timestamp <= now && Chronicle(log[..|log| - 1], last.timestamp)
  }

  /** One more entry is one more write. */
  lemma LogGrows<T>(log: seq<Stamped<T>>, entry: Stamped<T>, window: int)
    ensures BufferOf(log + [entry], window) == Recorded(BufferOf(log, window), entry.timestamp - window, entry)
    ensures Chronicle(log, entry.timestamp) ==> Chronicle(log + [entry], entry.timestamp)
  {
    assert (log + [entry])[..|log|] == log;
  }

  // ------------------------------------------------------------------ what a buffer can be asked

  ghost function Total<T>(entries: seq<Stamped<T>>, weight: Stamped<T> -> int): int {
    if entries == [] then 0
    else Total(entries[..|entries| - 1], weight) + weight(entries[|entries| - 1])
  }

  /** The measurement does not look at entries before `bound`. */
  ghost predicate Ignores<T(!new)>(weight: Stamped<T> -> int, bound: int) {
    forall e: Stamped<T> :: e.timestamp < bound ==> weight(e) == 0
  }

  /** No additive measurement of the entries from `bound` on can tell the two apart. */
  ghost predicate Agree<T(!new)>(buffer: seq<Stamped<T>>, log: seq<Stamped<T>>, bound: int) {
    forall weight: Stamped<T> -> int | Ignores(weight, bound) :: Total(buffer, weight) == Total(log, weight)
  }

  lemma {:induction false} TotalOverwrite<T>(s: seq<Stamped<T>>, i: nat, entry: Stamped<T>, weight: Stamped<T> -> int)
    requires i < |s|
    ensures Total(s[i := entry], weight) == Total(s, weight) - weight(s[i]) + weight(entry)
  {
    var n := |s| - 1;
    if i == n {
      assert s[i := entry][..n] == s[..n];
    } else {
      assert s[i := entry][..n] == s[..n][i := entry];
      TotalOverwrite(s[..n], i, entry, weight);
    }
  }

  lemma TotalAppend<T>(s: seq<Stamped<T>>, entry: Stamped<T>, weight: Stamped<T> -> int)
    ensures Total(s + [entry], weight) == Total(s, weight) + weight(entry)
  {
    assert (s + [entry])[..|s|] == s;
  }

  /** One write keeps buffer and log indistinguishable, from the cutoff of that write on. */
  lemma RecordedAgrees<T(!new)>(buffer: seq<Stamped<T>>, log: seq<Stamped<T>>, bound: int, cutoff: int, entry: Stamped<T>)
    requires Agree(buffer, log, bound) && bound <= cutoff
    ensures Agree(Recorded(buffer, cutoff, entry), log + [entry], cutoff)
  {
    var i := LastOlder(buffer, cutoff);
    LastOlderIsLast(buffer, cutoff);
    forall weight: Stamped<T> -> int | Ignores(weight, cutoff)
      ensures Total(Recorded(buffer, cutoff, entry), weight) == Total(log + [entry], weight)
    {
      assert Ignores(weight, bound);
      TotalAppend(log, entry, weight);
      if i >= 0 {
        TotalOverwrite(buffer, i, entry, weight);
      } else {
        TotalAppend(buffer, entry, weight);
      }
    }
  }

  /** Slot reuse is invisible: after any chronological log the buffer agrees with it on the whole window. */
  lemma {:induction false} BufferAgrees<T(!new)>(log: seq<Stamped<T>>, window: int, now: int)
    requires Chronicle(log, now)
    ensures Agree(BufferOf(log, window), log, now - window)
  {
    if log != [] {
      var n := |log| - 1;
      var last := log[n];
      BufferAgrees(log[..n], window, last.timestamp);
      RecordedAgrees(BufferOf(log[..n], window), log[..n], last.timestamp - window, last.timestamp - window, last);
      assert log[..n] + [last] == log;
      AgreeLater(BufferOf(log, window), log, last.timestamp - window, now - window);
    }
  }

  lemma AgreeLater<T(!new)>(buffer: seq<Stamped<T>>, log: seq<Stamped<T>>, bound: int, later: int)
    requires Agree(buffer, log, bound) && bound <= later
    ensures Agree(buffer, log, later)
  {
    forall weight: Stamped<T> -> int | Ignores(weight, later)
      ensures Total(buffer, weight) == Total(log, weight)
    {
      assert Ignores(weight, bound);
    }
  }

  // ------------------------------------------------------------------ membership and counting

  ghost function Is<T>(entry: Stamped<T>): Stamped<T> -> int {
    e => if e == entry then 1 else 0
  }

  lemma {:induction false} TotalIs<T>(s: seq<Stamped<T>>, entry: Stamped<T>)
    ensures Total(s, Is(entry)) >= 0
    ensures Total(s, Is(entry)) > 0 <==> entry in s
  {
    if s != [] {
      var n := |s| - 1;
      assert s == s[..n] + [s[n]];
      TotalIs(s[..n], entry);
    }
  }

  lemma AgreeMember<T(!new)>(buffer: seq<Stamped<T>>, log: seq<Stamped<T>>, bound: int, entry: Stamped<T>)
    requires Agree(buffer, log, bound) && bound <= entry.timestamp
    ensures entry in buffer <==> entry in log
  {
    assert Ignores(Is(entry), bound);
    TotalIs(buffer, entry);
    TotalIs(log, entry);
  }

  ghost function Since<T>(bound: int): Stamped<T> -> int {
    (e: Stamped<T>) => if e.timestamp >= bound then 1 else 0
  }

  /** How many entries are no older than `bound`. */
  ghost function CountSince<T>(s: seq<Stamped<T>>, bound: int): int {
    Total(s, Since(bound))
  }

  lemma {:induction false} CountAll<T>(s: seq<Stamped<T>>, bound: int)
    requires forall i :: 0 <= i < |s| ==> s[i].timestamp >= bound
    ensures CountSince(s, bound) == |s|
  {
    if s != [] { CountAll(s[..|s| - 1], bound); }
  }

  /** The largest number of earlier log entries that some write found inside its window. */
  ghost function PeakInWindow<T>(log: seq<Stamped<T>>, window: int): int {
    if log == [] then 0
    else
      var n := |log| - 1;
      var here := CountSince(log[..n], log[n].timestamp - window);
      var before := PeakInWindow(log[..n], window);
      if here > before then here else before
  }

  /** The buffer never holds more than one entry beyond the busiest window. */
  lemma {:induction false} BufferLength<T(!new)>(log: seq<Stamped<T>>, window: int, now: int)
    requires Chronicle(log, now)
    ensures |BufferOf(log, window)| <= 1 + PeakInWindow(log, window)
  {
    if log != [] {
      var earlier, last := log[..|log| - 1], log[|log| - 1];
      BufferLength(earlier, window, last.timestamp);
      LengthGrows(earlier, last, window);
      assert log == earlier + [last];
    }
  }

  lemma LengthGrows<T(!new)>(log: seq<Stamped<T>>, entry: Stamped<T>, window: int)
    requires Chronicle(log, entry.timestamp) && |BufferOf(log, window)| <= 1 + PeakInWindow(log, window)
    ensures |BufferOf(log + [entry], window)| <= 1 + PeakInWindow(log + [entry], window)
  {
    WrittenLength(log, entry, window);
    PeakGrows(log, entry, window);
  }

  lemma PeakGrows<T>(log: seq<Stamped<T>>, entry: Stamped<T>, window: int)
    ensures PeakInWindow(log + [entry], window) >= PeakInWindow(log, window)
    ensures PeakInWindow(log + [entry], window) >= CountSince(log, entry.timestamp - window)
  {
    assert (log + [entry])[..|log|] == log;
  }

  /** A write makes the buffer longer only if nothing in it is stale. */
  lemma WrittenLength<T(!new)>(log: seq<Stamped<T>>, entry: Stamped<T>, window: int)
    requires Chronicle(log, entry.timestamp)
    ensures |BufferOf(log + [entry], window)| <= |BufferOf(log, window)|
         || |BufferOf(log + [entry], window)| == 1 + CountSince(log, entry.timestamp - window)
  {
    LogGrows(log, entry, window);
    RecordedLength(BufferOf(log, window), entry.timestamp - window, entry);
    if LastOlder(BufferOf(log, window), entry.timestamp - window) < 0 {
      FullBuffer(log, window, entry.timestamp);
    }
  }

  lemma RecordedLength<T>(buffer: seq<Stamped<T>>, cutoff: int, entry: Stamped<T>)
    ensures |Recorded(buffer, cutoff, entry)| == |buffer| + if LastOlder(buffer, cutoff) < 0 then 1 else 0
  {
  }

  /** A buffer without stale entries is as long as the log's own window. */
  lemma FullBuffer<T(!new)>(log: seq<Stamped<T>>, window: int, now: int)
    requires Chronicle(log, now)
    requires LastOlder(BufferOf(log, window), now - window) < 0
    ensures |BufferOf(log, window)| == CountSince(log, now - window)
  {
    CountAgrees(log, window, now);
    FreshCount(BufferOf(log, window), now - window);
  }

  lemma CountAgrees<T(!new)>(log: seq<Stamped<T>>, window: int, now: int)
    requires Chronicle(log, now)
    ensures CountSince(BufferOf(log, window), now - window) == CountSince(log, now - window)
  {
    BufferAgrees(log, window, now);
    AgreeCount(BufferOf(log, window), log, now - window);
  }

  lemma AgreeCount<T(!new)>(buffer: seq<Stamped<T>>, log: seq<Stamped<T>>, bound: int)
    requires Agree(buffer, log, bound)
    ensures CountSince(buffer, bound) == CountSince(log, bound)
  {
    assert Ignores(Since<T>(bound), bound);
  }

  lemma FreshCount<T>(buffer: seq<Stamped<T>>, bound: int)
    requires LastOlder(buffer, bound) < 0
    ensures CountSince(buffer, bound) == |buffer|
  {
    LastOlderIsLast(buffer, bound);
    CountAll(buffer, bound);
  }

  // ------------------------------------------------------------------ extremes

  function MaxFrom(s: seq<Stamped<int>>, from: int, seed: int): int {
    if s == [] then seed
    else
      var rest := MaxFrom(s[..|s| - 1], from, seed);
      var last := s[|s| - 1];
      if last.timestamp >= from && last.value > rest then last.value else rest
  }

  function MinFrom(s: seq<Stamped<int>>, from: int, seed: int): int {
    if s == [] then seed
    else
      var rest := MinFrom(s[..|s| - 1], from, seed);
      var last := s[|s| - 1];
      if last.timestamp >= from && last.value < rest then last.value else rest
  }

  ghost predicate Witnessed(s: seq<Stamped<int>>, from: int, value: int) {
    exists e :: e in s && e.timestamp >= from && e.value == value
  }

  lemma {:induction false} MaxFromIsMax(s: seq<Stamped<int>>, from: int, seed: int)
    ensures forall e :: e in s && e.timestamp >= from ==> e.value <= MaxFrom(s, from, seed)
    ensures seed <= MaxFrom(s, from, seed)
    ensures MaxFrom(s, from, seed) == seed || Witnessed(s, from, MaxFrom(s, from, seed))
  {
    if s != [] {
      var n := |s| - 1;
      MaxFromIsMax(s[..n], from, seed);
      assert s == s[..n] + [s[n]];
      assert s[n] in s;
      assert forall e :: e in s[..n] ==> e in s;
    }
  }

  lemma {:induction false} MinFromIsMin(s: seq<Stamped<int>>, from: int, seed: int)
    ensures forall e :: e in s && e.timestamp >= from ==> e.value >= MinFrom(s, from, seed)
    ensures seed >= MinFrom(s, from, seed)
    ensures MinFrom(s, from, seed) == seed || Witnessed(s, from, MinFrom(s, from, seed))
  {
    if s != [] {
      var n := |s| - 1;
      MinFromIsMin(s[..n], from, seed);
      assert s == s[..n] + [s[n]];
      assert s[n] in s;
      assert forall e :: e in s[..n] ==> e in s;
    }
  }

  /** Extremes over the window can be read off the buffer. */
  lemma AgreeExtremes(buffer: seq<Stamped<int>>, log: seq<Stamped<int>>, bound: int, from: int, seed: int)
    requires Agree(buffer, log, bound) && bound <= from
    ensures MaxFrom(buffer, from, seed) == MaxFrom(log, from, seed)
    ensures MinFrom(buffer, from, seed) == MinFrom(log, from, seed)
  {
    forall e: Stamped<int> | e.timestamp >= from
      ensures e in buffer <==> e in log
    {
      AgreeMember(buffer, log, bound, e);
    }
    MaxFromIsMax(buffer, from, seed);
    MaxFromIsMax(log, from, seed);
    MinFromIsMin(buffer, from, seed);
    MinFromIsMin(log, from, seed);
  }

  // ------------------------------------------------------------------ sums

  /** The values recorded at or after `from`, added up. */
  function SumFrom(s: seq<Stamped<int>>, from: int): int {
    if s == [] then 0
    else
      var last := s[|s| - 1];
      SumFrom(s[..|s| - 1], from) + if last.timestamp >= from then last.value else 0
  }

  ghost function ValueSince(from: int): Stamped<int> -> int {
    (e: Stamped<int>) => if e.timestamp >= from then e.value else 0
  }

  lemma {:induction false} SumIsTotal(s: seq<Stamped<int>>, from: int)
    ensures SumFrom(s, from) == Total(s, ValueSince(from))
  {
    if s != [] { SumIsTotal(s[..|s| - 1], from); }
  }

  lemma AgreeSum(buffer: seq<Stamped<int>>, log: seq<Stamped<int>>, bound: int, from: int)
    requires Agree(buffer, log, bound) && bound <= from
    ensures SumFrom(buffer, from) == SumFrom(log, from)
  {
    assert Ignores(ValueSince(from), bound);
    SumIsTotal(buffer, from);
    SumIsTotal(log, from);
  }

  /** The sum over the last `period` is the same in the buffer and in the log. */
  ghost predicate SumExact(log: seq<Stamped<int>>, window: int, period: int, now: int) {
    SumFrom(BufferOf(log, window), now - period + 1) == SumFrom(log, now - period + 1)
  }

  lemma SumIsExact(log: seq<Stamped<int>>, window: nat, period: int, now: int)
    requires Chronicle(log, now) && period <= window + 1
    ensures SumExact(log, window, period, now)
  {
    BufferAgrees(log, window, now);
    AgreeSum(BufferOf(log, window), log, now - window, now - period + 1);
  }

  /** A buffer holds only entries of the log. */
  lemma {:induction false} BufferFromLog<T>(log: seq<Stamped<T>>, window: int, e: Stamped<T>)
    requires e in BufferOf(log, window)
    ensures e in log
  {
    if log != [] {
      var n := |log| - 1;
      assert log == log[..n] + [log[n]];
      if e != log[n] {
        BufferFromLog(log[..n], window, e);
      }
    }
  }

  ghost predicate NowhereNegative<T>(s: seq<Stamped<T>>, weight: Stamped<T> -> int) {
    forall i :: 0 <= i < |s| ==> weight(s[i]) >= 0
  }

  /** Whatever is lost, a measurement that is nowhere negative is never larger on the buffer. */
  lemma {:induction false} BufferAtMost<T>(log: seq<Stamped<T>>, window: int, weight: Stamped<T> -> int)
    requires NowhereNegative(log, weight)
    ensures Total(BufferOf(log, window), weight) <= Total(log, weight)
  {
    if log != [] {
      var earlier, last := log[..|log| - 1], log[|log| - 1];
      assert log == earlier + [last];
      BufferAtMost(earlier, window, weight);
      StillAtMost(earlier, last, window, weight);
    }
  }

  lemma StillAtMost<T>(log: seq<Stamped<T>>, entry: Stamped<T>, window: int, weight: Stamped<T> -> int)
    requires NowhereNegative(log, weight) && Total(BufferOf(log, window), weight) <= Total(log, weight)
    ensures Total(BufferOf(log + [entry], window), weight) <= Total(log + [entry], weight)
  {
    LogGrows(log, entry, window);
    BufferNotNegative(log, window, weight);
    WriteAtMost(BufferOf(log, window), entry.timestamp - window, entry, weight);
    TotalAppend(log, entry, weight);
  }

  lemma BufferNotNegative<T>(log: seq<Stamped<T>>, window: int, weight: Stamped<T> -> int)
    requires NowhereNegative(log, weight)
    ensures NowhereNegative(BufferOf(log, window), weight)
  {
    var buffer := BufferOf(log, window);
    forall i | 0 <= i < |buffer| ensures weight(buffer[i]) >= 0 {
      BufferFromLog(log, window, buffer[i]);
    }
  }

  lemma WriteAtMost<T>(buffer: seq<Stamped<T>>, cutoff: int, entry: Stamped<T>, weight: Stamped<T> -> int)
    requires NowhereNegative(buffer, weight)
    ensures Total(Recorded(buffer, cutoff, entry), weight) <= Total(buffer, weight) + weight(entry)
  {
    var i := LastOlder(buffer, cutoff);
    if i >= 0 {
      TotalOverwrite(buffer, i, entry, weight);
    } else {
      TotalAppend(buffer, entry, weight);
    }
  }

  /** Over any period, however long, the sum over the buffer is at most the true one if nothing in the log is negative. */
  lemma SumAtMost(log: seq<Stamped<int>>, window: int, from: int)
    requires forall e :: e in log ==> e.value >= 0
    ensures SumFrom(BufferOf(log, window), from) <= SumFrom(log, from)
  {
    BufferAtMost(log, window, ValueSince(from));
    SumIsTotal(BufferOf(log, window), from);
    SumIsTotal(log, from);
  }

  /**
   Exactly which periods may be asked of a buffer that retires entries after `window`: all those
   up to the window (plus the one tick that separates "older than" from "not newer than").
   */
  lemma SumExactIff(window: nat, period: int)
    ensures period <= window + 1
      <==> forall log: seq<Stamped<int>>, now: int :: Chronicle(log, now) ==> SumExact(log, window, period, now)
  {
    if period <= window + 1 {
      forall log: seq<Stamped<int>>, now: int | Chronicle(log, now)
        ensures SumExact(log, window, period, now)
      {
        SumIsExact(log, window, period, now);
      }
    } else {
      var log := [Stamped(1, 0), Stamped(1, window + 1)];
      assert log[..1] == [Stamped(1, 0)];
      assert log[..1][..0] == [];
      assert Chronicle(log[..1], 0);
      assert Chronicle(log, window + 1);
      assert BufferOf(log[..1], window) == [Stamped(1, 0)];
      assert BufferOf(log, window) == [Stamped(1, window + 1)];
      assert SumFrom(log[..1], window + 2 - period) == 1;
      assert SumFrom(log, window + 2 - period) == 2;
      assert BufferOf(log, window)[..0] == [];
      assert SumFrom(BufferOf(log, window), window + 2 - period) == 1;
      assert !SumExact(log, window, period, window + 1);
    }
  }
}
