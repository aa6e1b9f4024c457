/**
 Cron backup scheduling: which scheduled instant, if any, is due, and how long to wait for the next.
 The schedule is any function `next` from an instant to a later one; times are in nanoseconds.
 */
module CronSchedule {

  datatype Option<+T> = None | Some(value: T)

  type Time = int

  type Schedule = Time -> Time

  const SECOND: nat := 1_000_000_000
  const NEXT_SCHEDULE_DELTA: nat := 100_000_000

  /** The next instant is always later. */
  ghost predicate Advances(next: Schedule) {
    forall t :: next(t) > t
  }

  /** A schedule given by a set of whole-second instants: `next` is the least one later. */
  ghost predicate PicksFrom(next: Schedule, instants: iset<Time>) {
    && (forall t :: t < next(t) && next(t) in instants)
    && (forall t, u :: u in instants && t < u ==> next(t) <= u)
    && (forall u :: u in instants ==> u % SECOND == 0)
  }

  /** A schedule of constant interval, whatever instant it is first asked about. */
  ghost predicate Steady(next: Schedule, interval: nat) {
    && Advances(next)
    && interval >= SECOND && interval % SECOND == 0
    && forall t :: next(next(t)) == next(t) + interval
  }

  /** `time` is the instant due, if any; Invalid when two consecutive instants are less than a second apart. */
  datatype Recent = Recent(time: Option<Time>, tooManyMissed: bool) | Invalid

  /** A positive duration rounded to whole seconds. */
  function RoundToSeconds(d: int): int { (d + SECOND / 2) / SECOND }

  /** The last instant reached from `t` by `next` without passing `now`. */
  function LastUpTo(next: Schedule, t: Time, now: Time): Option<Time>
    requires Advances(next)
    decreases now - t
  {
    if next(t) > now then None
    else
      var later := LastUpTo(next, next(t), now);
      if later.Some? then later else Some(next(t))
  }

  /** Where the search jumps to: one interval before the estimate of the last missed instant. */
  function JumpTo(t1: Time, t2: Time, now: Time): Time
    requires RoundToSeconds(t2 - t1) >= 1
  {
    var between := RoundToSeconds(t2 - t1);
    t1 + ((now - t1) / SECOND / between - 1) * between * SECOND
  }

  function MostRecent(next: Schedule, earliest: Time, now: Time): Recent
    requires Advances(next)
  {
    var t1 := next(earliest);
    var t2 := next(t1);
    if now < t1 then Recent(None, false)
    else if now < t2 then Recent(Some(t1), false)
    else if RoundToSeconds(t2 - t1) < 1 then Invalid
    else
      Recent(LastUpTo(next, JumpTo(t1, t2, now), now), (now - t1) / SECOND / RoundToSeconds(t2 - t1) + 1 > 100)
  }

  method MostRecentScheduleTime(next: Schedule, earliest: Time, now: Time) returns (r: Recent)
    requires Advances(next)
    ensures r == MostRecent(next, earliest, now)
  {
    var t1 := next(earliest);
    var t2 := next(t1);
    if now < t1 {
      return Recent(None, false);
    }
    if now < t2 {
      return Recent(Some(t1), false);
    }
    var timeBetweenTwoSchedules := RoundToSeconds(t2 - t1);
    if timeBetweenTwoSchedules < 1 {
      return Invalid;
    }
    var timeElapsed := (now - t1) / SECOND;
    var numberOfMissedSchedules := timeElapsed / timeBetweenTwoSchedules + 1;
    var potentialEarliest := t1 + (numberOfMissedSchedules - 1 - 1) * timeBetweenTwoSchedules * SECOND;
    assert potentialEarliest == JumpTo(t1, t2, now);
    var mostRecent := LastReached(next, potentialEarliest, now);
    r := Recent(mostRecent, numberOfMissedSchedules > 100);
  }

  /** The loop that ends the search. */
  method LastReached(next: Schedule, from: Time, now: Time) returns (mostRecent: Option<Time>)
    requires Advances(next)
    ensures mostRecent == LastUpTo(next, from, now)
  {
    mostRecent := None;
    var t := next(from);
    ghost var previous := from;
    while t <= now
      invariant t == next(previous)
      invariant LastUpTo(next, from, now)
             == if LastUpTo(next, previous, now).Some? then LastUpTo(next, previous, now) else mostRecent
      decreases now - t
    {
      mostRecent := Some(t);
      previous := t;
      t := next(t);
    }
  }

  /** The delay until the next reconcile. */
  function NextDelay(next: Schedule, earliest: Time, now: Time): int
    requires Advances(next)
  {
    var from := match MostRecent(next, earliest, now)
                case Invalid => now
                case Recent(None, _) => earliest
                case Recent(Some(t), _) => t;
    next(from) + NEXT_SCHEDULE_DELTA - now
  }

  // ------------------------------------------------------------------ exactness

  /** The greatest instant after `earliest` and not after `now`. */
  ghost predicate IsLatest(instants: iset<Time>, earliest: Time, now: Time, t: Time) {
    && t in instants && earliest < t <= now
    && forall u :: u in instants && u <= now ==> u <= t
  }

  ghost predicate Due(instants: iset<Time>, earliest: Time, now: Time) {
    exists u :: u in instants && earliest < u <= now
  }

  lemma {:induction false} LastUpToIsLatest(next: Schedule, instants: iset<Time>, t: Time, now: Time)
    requires PicksFrom(next, instants) && Advances(next)
    ensures match LastUpTo(next, t, now)
            case None => forall u :: u in instants && u > t ==> u > now
            case Some(r) => IsLatest(instants, t, now, r)
    decreases now - t
  {
    if next(t) <= now {
      LastUpToIsLatest(next, instants, next(t), now);
    }
  }

  lemma DivisionBounds(a: nat, b: nat)
    requires b > 0
    ensures (a / b) * b <= a < (a / b + 1) * b
    ensures a >= b ==> a / b >= 1
  {
  }

  lemma QuotientIs(a: nat, b: nat, q: nat)
    requires b > 0 && q * b <= a < (q + 1) * b
    ensures a / b == q
  {
    var d := a / b;
    DivisionBounds(a, b);
    Scale(d + 1, q, b);
    Scale(q + 1, d, b);
  }

  lemma Scale(m: nat, n: nat, b: nat)
    ensures m <= n ==> m * b <= n * b
  {
  }

  /** The jump lands between the first missed instant and one interval before now. */
  lemma JumpLands(t1: Time, t2: Time, now: Time)
    requires t1 < t2 <= now && (t2 - t1) % SECOND == 0
    ensures RoundToSeconds(t2 - t1) * SECOND == t2 - t1 && RoundToSeconds(t2 - t1) >= 1
    ensures t1 <= JumpTo(t1, t2, now) <= now - (t2 - t1)
    ensures now < JumpTo(t1, t2, now) + 2 * (t2 - t1)
  {
    var between := (t2 - t1) / SECOND;
    assert RoundToSeconds(t2 - t1) == between;
    var elapsed := (now - t1) / SECOND;
    assert elapsed >= between;
    var q := elapsed / between;
    DivisionBounds(elapsed, between);
    assert (q - 1) * between >= 0;
    assert JumpTo(t1, t2, now) == t1 + (q - 1) * between * SECOND;
  }

  /** Whatever is returned is exactly the instant due: the greatest one not after now, and a new one. */
  lemma ReturnedIsLatest(next: Schedule, instants: iset<Time>, earliest: Time, now: Time)
    requires PicksFrom(next, instants) && Advances(next)
    ensures MostRecent(next, earliest, now).Recent?
    ensures
      var r := MostRecent(next, earliest, now).time;
      r.Some? ==> IsLatest(instants, earliest, now, r.value)
  {
    var t1 := next(earliest);
    var t2 := next(t1);
    if now >= t2 {
      JumpLands(t1, t2, now);
      LastUpToIsLatest(next, instants, JumpTo(t1, t2, now), now);
    }
  }

  /** The search considers the instants after this time: after the jump, once a second instant is over. */
  function SearchFrom(next: Schedule, earliest: Time, now: Time): Time
    requires Advances(next)
  {
    if next(next(earliest)) <= now && RoundToSeconds(next(next(earliest)) - next(earliest)) >= 1 then JumpTo(next(earliest), next(next(earliest)), now) else earliest
  }

  lemma SearchStarts(next: Schedule, instants: iset<Time>, earliest: Time, now: Time)
    requires PicksFrom(next, instants) && Advances(next)
    ensures next(next(earliest)) <= now ==> RoundToSeconds(next(next(earliest)) - next(earliest)) >= 1
    ensures SearchFrom(next, earliest, now) >= earliest
  {
    if next(next(earliest)) <= now {
      JumpLands(next(earliest), next(next(earliest)), now);
    }
  }

  /** Some instant is found exactly if one lies between the place searched from and now. */
  lemma FoundIff(next: Schedule, instants: iset<Time>, earliest: Time, now: Time)
    requires PicksFrom(next, instants) && Advances(next)
    ensures MostRecent(next, earliest, now).Recent?
    ensures MostRecent(next, earliest, now).time.Some? <==> Due(instants, SearchFrom(next, earliest, now), now)
  {
    SearchStarts(next, instants, earliest, now);
    var from := SearchFrom(next, earliest, now);
    if next(next(earliest)) <= now {
      LastUpToIsLatest(next, instants, from, now);
    } else {
      assert next(earliest) <= now ==> next(earliest) in instants && earliest < next(earliest) <= now;
    }
  }

  /** A due instant is overlooked exactly if one is due, but none of them after the jump. */
  lemma OverlookedIff(next: Schedule, instants: iset<Time>, earliest: Time, now: Time, latest: Time)
    requires PicksFrom(next, instants) && Advances(next) && IsLatest(instants, earliest, now, latest)
    ensures MostRecent(next, earliest, now).Recent?
    ensures MostRecent(next, earliest, now).time == if latest > SearchFrom(next, earliest, now) then Some(latest) else None
  {
    SearchStarts(next, instants, earliest, now);
    FoundIff(next, instants, earliest, now);
    ReturnedIsLatest(next, instants, earliest, now);
  }

  /**
   In terms of the schedule: with the first two instants over, the latest one is found if it is younger than
   the interval between those two, and overlooked if it is at least twice that old.
   */
  lemma FoundByAge(next: Schedule, instants: iset<Time>, earliest: Time, now: Time, latest: Time)
    requires PicksFrom(next, instants) && Advances(next)
    requires next(next(earliest)) <= now && IsLatest(instants, earliest, now, latest)
    ensures
      var interval := next(next(earliest)) - next(earliest);
      var r := MostRecent(next, earliest, now);
      && r.Recent?
      && (now - latest < interval ==> r.time == Some(latest))
      && (now - latest >= 2 * interval ==> r.time == None)
  {
    var t1 := next(earliest);
    var t2 := next(t1);
    JumpLands(t1, t2, now);
    OverlookedIff(next, instants, earliest, now, latest);
  }

  /** The requeue delay is positive exactly if nothing is due, or something is due after the jump. */
  lemma DelayPositiveIff(next: Schedule, instants: iset<Time>, earliest: Time, now: Time)
    requires PicksFrom(next, instants) && Advances(next)
    ensures NextDelay(next, earliest, now) > 0
      <==> Due(instants, earliest, now) ==> Due(instants, SearchFrom(next, earliest, now), now)
  {
    FoundIff(next, instants, earliest, now);
    ReturnedIsLatest(next, instants, earliest, now);
    DueIff(next, instants, earliest, now);
    if MostRecent(next, earliest, now).time.None? && next(earliest) <= now {
      OverlookedIsLate(next, instants, earliest, now);
    }
  }

  lemma DueIff(next: Schedule, instants: iset<Time>, earliest: Time, now: Time)
    requires PicksFrom(next, instants)
    ensures Due(instants, earliest, now) <==> next(earliest) <= now
  {
    assert next(earliest) in instants && earliest < next(earliest);
  }

  /** When an instant is overlooked, the first one was over for longer than the padding of the delay. */
  lemma OverlookedIsLate(next: Schedule, instants: iset<Time>, earliest: Time, now: Time)
    requires PicksFrom(next, instants) && Advances(next)
    requires next(earliest) <= now && MostRecent(next, earliest, now).Recent? && MostRecent(next, earliest, now).time.None?
    ensures next(earliest) + SECOND <= now
  {
    SecondsApart(next(earliest), next(next(earliest)));
  }

  lemma SecondsApart(t: Time, u: Time)
    requires t < u && t % SECOND == 0 && u % SECOND == 0
    ensures t + SECOND <= u
  {
  }

  const HOUR: nat := 3_600_000_000_000
  const DAY: nat := 86_400_000_000_000

  /** Backups at one and at two o'clock of every day: the cron expression "0 1,2 * * *" in UTC. */
  function OneAndTwo(): Schedule {
    t =>
      if t % DAY < HOUR then t - t % DAY + HOUR
      else if t % DAY < 2 * HOUR then t - t % DAY + 2 * HOUR
      else t - t % DAY + DAY + HOUR
  }

  ghost function OneAndTwoInstants(): iset<Time> {
    iset t | t % DAY == HOUR || t % DAY == 2 * HOUR
  }

  /** When the controller comes back at eight in the evening, both are overlooked, and the requeue delay is negative. */
  lemma OneAndTwoOverlooked()
    ensures PicksFrom(OneAndTwo(), OneAndTwoInstants()) && Advances(OneAndTwo())
    ensures Due(OneAndTwoInstants(), 0, 20 * HOUR)
    ensures MostRecent(OneAndTwo(), 0, 20 * HOUR).Recent? && MostRecent(OneAndTwo(), 0, 20 * HOUR).time == None
    ensures NextDelay(OneAndTwo(), 0, 20 * HOUR) < 0
  {
    OneAndTwoLater();
    OneAndTwoLeast();
    assert HOUR in OneAndTwoInstants();
    OverlookedFrom(OneAndTwo());
  }

  lemma OneAndTwoLater()
    ensures forall t :: t < OneAndTwo()(t) && OneAndTwo()(t) in OneAndTwoInstants()
  {
  }

  lemma OneAndTwoLeast()
    ensures forall t, u :: u in OneAndTwoInstants() && t < u ==> OneAndTwo()(t) <= u
    ensures forall u :: u in OneAndTwoInstants() ==> u % SECOND == 0
  {
  }

  lemma OverlookedFrom(next: Schedule)
    requires Advances(next)
    requires next(0) == HOUR && next(HOUR) == 2 * HOUR && next(19 * HOUR) == DAY + HOUR
    ensures MostRecent(next, 0, 20 * HOUR).Recent? && MostRecent(next, 0, 20 * HOUR).time == None
    ensures NextDelay(next, 0, 20 * HOUR) < 0
  {
    JumpByHours();
    assert LastUpTo(next, 19 * HOUR, 20 * HOUR) == None;
  }

  lemma JumpByHours()
    ensures RoundToSeconds(2 * HOUR - HOUR) == 3600
    ensures JumpTo(HOUR, 2 * HOUR, 20 * HOUR) == 19 * HOUR
  {
    assert (20 * HOUR - HOUR) / SECOND == 68_400;
  }

  // ------------------------------------------------------------------ constant intervals

  lemma {:induction false} SteadyOrbit(next: Schedule, interval: nat, t: Time, k: nat)
    requires Steady(next, interval)
    ensures next(next(t) + k * interval) == next(t) + (k + 1) * interval
  {
    if k > 0 {
      SteadyOrbit(next, interval, t, k - 1);
      assert next(next(t) + (k - 1) * interval) == next(t) + k * interval;
    }
  }

  lemma {:induction false} SteadyLastUpTo(next: Schedule, interval: nat, start: Time, k: nat, n: nat, now: Time)
    requires Steady(next, interval)
    requires next(start) + n * interval <= now < next(start) + (n + 1) * interval && k <= n
    ensures k < n ==> LastUpTo(next, next(start) + k * interval, now) == Some(next(start) + n * interval)
    ensures k == n ==> LastUpTo(next, next(start) + k * interval, now) == None
    decreases n - k
  {
    SteadyOrbit(next, interval, start, k);
    if k < n {
      assert (k + 1) * interval <= n * interval;
      SteadyLastUpTo(next, interval, start, k + 1, n, now);
    }
  }

  /** With a constant interval the latest due instant is always found, however many were missed. */
  lemma SteadyAlwaysFound(next: Schedule, interval: nat, earliest: Time, now: Time)
    requires Steady(next, interval) && next(earliest) <= now
    ensures
      var t1 := next(earliest);
      var n := (now - t1) / interval;
      && MostRecent(next, earliest, now).Recent?
      && MostRecent(next, earliest, now).time == Some(t1 + n * interval)
      && next(t1 + n * interval) > now
  {
    var t1 := next(earliest);
    var n := (now - t1) / interval;
    DivisionBounds(now - t1, interval);
    SteadyOrbit(next, interval, earliest, n);
    if t1 + interval <= now {
      SteadyJump(interval, t1, now);
      SteadyLastUpTo(next, interval, earliest, n - 1, n, now);
      SteadySearch(next, interval, earliest, now, n);
    } else {
      SteadyFirst(next, interval, earliest, now);
    }
  }

  lemma SteadyFirst(next: Schedule, interval: nat, earliest: Time, now: Time)
    requires Steady(next, interval) && next(earliest) <= now < next(earliest) + interval
    ensures (now - next(earliest)) / interval == 0
    ensures MostRecent(next, earliest, now) == Recent(Some(next(earliest)), false)
  {
    QuotientIs(now - next(earliest), interval, 0);
  }

  lemma SteadySearch(next: Schedule, interval: nat, earliest: Time, now: Time, n: int)
    requires Steady(next, interval) && next(earliest) + interval <= now
    requires RoundToSeconds(interval) >= 1
    requires JumpTo(next(earliest), next(earliest) + interval, now) == next(earliest) + (n - 1) * interval
    requires LastUpTo(next, next(earliest) + (n - 1) * interval, now) == Some(next(earliest) + n * interval)
    ensures MostRecent(next, earliest, now).Recent?
    ensures MostRecent(next, earliest, now).time == Some(next(earliest) + n * interval)
  {
    assert next(next(earliest)) == next(earliest) + interval;
  }

  lemma SteadyJump(interval: nat, t1: Time, now: Time)
    requires interval >= SECOND && interval % SECOND == 0 && t1 + interval <= now
    ensures RoundToSeconds(interval) >= 1 && (now - t1) / interval >= 1
    ensures JumpTo(t1, t1 + interval, now) == t1 + ((now - t1) / interval - 1) * interval
  {
    var between := RoundToSeconds(interval);
    assert interval == between * SECOND;
    JumpQuotient(now - t1, between);
    Reassociated((now - t1) / interval - 1, between, SECOND, interval);
  }

  lemma Reassociated(k: int, m: int, s: int, product: int)
    requires product == m * s
    ensures k * m * s == k * product
  {
  }

  /** Counting in whole seconds first makes no difference. */
  lemma JumpQuotient(elapsed: nat, between: nat)
    requires between > 0 && elapsed >= between * SECOND
    ensures elapsed / SECOND / between == elapsed / (between * SECOND) >= 1
  {
    var seconds := elapsed / SECOND;
    var q := seconds / between;
    DivisionBounds(elapsed, SECOND);
    DivisionBounds(seconds, between);
    assert q * (between * SECOND) == (q * between) * SECOND;
    assert (q + 1) * (between * SECOND) == ((q + 1) * between) * SECOND;
    assert seconds + 1 <= (q + 1) * between;
    QuotientIs(elapsed, between * SECOND, q);
    DivisionBounds(elapsed, between * SECOND);
  }

  /** With a constant interval the requeue delay is positive. */
  lemma SteadyDelayPositive(next: Schedule, interval: nat, earliest: Time, now: Time)
    requires Steady(next, interval)
    ensures NextDelay(next, earliest, now) > 0
  {
    if next(earliest) <= now {
      SteadyAlwaysFound(next, interval, earliest, now);
    }
  }
}
