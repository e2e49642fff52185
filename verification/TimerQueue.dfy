/**
  The timer queue (include/net/TimerQueue.h, src/net/TimerQueue.cpp, src/net/Timer.cpp): an ordered
  set of timers whose callbacks may add and cancel timers while they run.

  HandleRead sets CallingExpiredTimers_ to false before it runs the callbacks, so the branch of
  CancelTimerInLoop for timers that are just being run is never taken. `Flag` selects between that
  and true. What a round does is proved for both; CancelIsFinalIff says when the code's own choice
  loses a cancellation, and CancelledNeverRuns is about the intended one.

  The comparison of the set is no order when a later timer has a smaller id. A second choice, `order`,
  selects between it and the intended one; OrderMakesNoDifference says how long they are the same.

  Time is what the environment says it is: any integer for any reading, because Timestamp::now adds
  microseconds to a thousandfold of seconds (src/base/Timestamp.cpp:10) and so falls at each full
  second. What needs a clock that does not go back says so by `Forward`. The descriptor is taken to be
  set when ResetTimerfd has just read the clock for the second time. A settime that is refused ends
  the process (src/base/Logger.cpp:67-70), and with it the run.
 */
module TimerQueues {
  import Sequences

  /** The key of a timer in the set, with what the shared Timer holds besides its callback. */
  datatype Entry = Entry(time: int, id: nat, interval: int) {
    predicate Repeats() {
      interval > 0
    }

    /** Timer::restart on a repeating timer. */
    function Restarted(now: int): Entry {
      Entry(now + interval, id, interval)
    }
  }

  // ---------------------------------------------------------------------------------------------
  // The order of the set
  // ---------------------------------------------------------------------------------------------

  predicate Less(a: Entry, b: Entry) {
    a.time < b.time || (a.time == b.time && a.id < b.id)
  }

  /** operator< as the code has it. */
  predicate LessAsWritten(a: Entry, b: Entry) {
    if a.time < b.time then true else a.id < b.id
  }

  ghost predicate StrictTotalOn(less: (Entry, Entry) -> bool, s: set<Entry>) {
    && (forall a :: a in s ==> !less(a, a))
    && (forall a, b :: a in s && b in s && less(a, b) ==> !less(b, a))
    && (forall a, b, c :: a in s && b in s && c in s && less(a, b) && less(b, c) ==> less(a, c))
    && (forall a, b :: a in s && b in s && a != b ==> less(a, b) || less(b, a))
  }

  /** Later timers have later ids. */
  ghost predicate IdsFollowTime(s: set<Entry>) {
    forall a, b :: a in s && b in s && a.time < b.time ==> a.id <= b.id
  }

  ghost predicate OneEntryAnId(s: set<Entry>) {
    forall a, b :: a in s && b in s && a.id == b.id ==> a == b
  }

  /** The code's comparison orders a set of timers exactly when ids follow times, and then as intended. */
  lemma OrderIff(s: set<Entry>)
    requires OneEntryAnId(s)
    ensures StrictTotalOn(LessAsWritten, s) <==> IdsFollowTime(s)
    ensures IdsFollowTime(s) ==> forall a, b :: a in s && b in s ==> LessAsWritten(a, b) == Less(a, b)
    ensures StrictTotalOn(Less, s)
  {
  }

  /** A timer due at 1 with id 5 and one due at 2 with id 3 are each below the other. */
  lemma OrderGap()
    ensures var a, b := Entry(1, 5, 0), Entry(2, 3, 0); LessAsWritten(a, b) && LessAsWritten(b, a)
  {
  }

  // ---------------------------------------------------------------------------------------------
  // std::set as a sorted sequence
  // ---------------------------------------------------------------------------------------------

  ghost predicate Sorted(s: seq<Entry>) {
    forall i, j :: 0 <= i < j < |s| ==> Less(s[i], s[j])
  }

  ghost predicate DistinctIds(s: seq<Entry>) {
    forall i, j :: 0 <= i < j < |s| ==> s[i].id != s[j].id
  }

  ghost predicate WellFormed(s: seq<Entry>) {
    Sorted(s) && DistinctIds(s)
  }

  predicate HasId(s: seq<Entry>, id: nat) {
    exists i :: 0 <= i < |s| && s[i].id == id
  }

  function Insert(s: seq<Entry>, e: Entry): seq<Entry> {
    if s == [] || Less(e, s[0]) then [e] + s
    else if Less(s[0], e) then [s[0]] + Insert(s[1..], e)
    else s
  }

  function EraseId(s: seq<Entry>, id: nat): seq<Entry> {
    if s == [] then [] else if s[0].id == id then s[1..] else [s[0]] + EraseId(s[1..], id)
  }

  /** The number of entries before the first one that is later than now. */
  function DueCount(s: seq<Entry>, now: int): (n: nat)
    ensures n <= |s|
    ensures forall i :: 0 <= i < n ==> s[i].time <= now
    ensures n < |s| ==> s[n].time > now
  {
    if s == [] || s[0].time > now then 0 else 1 + DueCount(s[1..], now)
  }

  lemma {:induction false} InsertOk(s: seq<Entry>, e: Entry)
    requires WellFormed(s) && !HasId(s, e.id)
    ensures WellFormed(Insert(s, e))
    ensures forall x :: x in Insert(s, e) <==> x == e || x in s
    ensures |Insert(s, e)| == |s| + 1
    ensures Insert(s, e)[0] == if s == [] || Less(e, s[0]) then e else s[0]
    decreases |s|
  {
    var r := Insert(s, e);
    if s != [] && !Less(e, s[0]) {
      assert forall i :: 0 <= i < |s[1..]| ==> s[1..][i] == s[i + 1];
      InsertOk(s[1..], e);
      var rest := Insert(s[1..], e);
      assert r == [s[0]] + rest;
      forall j | 0 <= j < |rest| ensures Less(s[0], rest[j]) && s[0].id != rest[j].id {
        assert rest[j] in rest;
      }
    }
  }

  lemma {:induction false} EraseOk(s: seq<Entry>, id: nat)
    requires WellFormed(s)
    ensures WellFormed(EraseId(s, id)) && !HasId(EraseId(s, id), id)
    ensures forall x :: x in EraseId(s, id) <==> x in s && x.id != id
    decreases |s|
  {
    var r := EraseId(s, id);
    if s != [] {
      assert forall i :: 0 <= i < |s[1..]| ==> s[1..][i] == s[i + 1];
      if s[0].id != id {
        EraseOk(s[1..], id);
        var rest := EraseId(s[1..], id);
        assert r == [s[0]] + rest;
        forall j | 0 <= j < |rest| ensures Less(s[0], rest[j]) && s[0].id != rest[j].id && rest[j].id != id {
          assert rest[j] in rest;
        }
      }
    }
  }

  /** In a sorted set the entries before that point are all that are due. */
  lemma DueIsAllDue(s: seq<Entry>, now: int)
    requires WellFormed(s)
    ensures var n := DueCount(s, now);
            && (forall x :: x in s[..n] <==> x in s && x.time <= now)
            && (forall x :: x in s[n..] <==> x in s && x.time > now)
  {
  }

  lemma SplitOk(s: seq<Entry>, n: nat)
    requires WellFormed(s) && n <= |s|
    ensures WellFormed(s[..n]) && WellFormed(s[n..])
    ensures forall x, y :: x in s[..n] && y in s[n..] ==> x.id != y.id
  {
  }

  /** Insertion by the comparison as written, where the set puts what it says is below further to the front. */
  function InsertAsWritten(s: seq<Entry>, e: Entry): seq<Entry> {
    if s == [] || LessAsWritten(e, s[0]) then [e] + s
    else if LessAsWritten(s[0], e) then [s[0]] + InsertAsWritten(s[1..], e)
    else s
  }

  /** What belongs in front of the timer has a smaller id. */
  ghost predicate Fits(s: seq<Entry>, e: Entry) {
    forall x :: x in s && Less(x, e) ==> x.id < e.id
  }

  /** The two comparisons give the same set exactly when the timer fits. */
  lemma {:induction false} InsertSameIff(s: seq<Entry>, e: Entry)
    requires WellFormed(s) && !HasId(s, e.id)
    ensures InsertAsWritten(s, e) == Insert(s, e) <==> Fits(s, e)
    decreases |s|
  {
    if s == [] {
    } else if LessAsWritten(e, s[0]) {
      assert Less(s[0], e) ==> s[0] in s && InsertAsWritten(s, e)[0] == e && Insert(s, e)[0] == s[0];
    } else {
      var rest := s[1..];
      assert s == [s[0]] + rest;
      assert forall i :: 0 <= i < |rest| ==> rest[i] == s[i + 1];
      InsertSameIff(rest, e);
      assert InsertAsWritten(s, e)[1..] == InsertAsWritten(rest, e) && Insert(s, e)[1..] == Insert(rest, e);
      assert InsertAsWritten(s, e) == [s[0]] + InsertAsWritten(rest, e) && Insert(s, e) == [s[0]] + Insert(rest, e);
      assert Fits(s, e) <==> Fits(rest, e);
    }
  }

  datatype Choice = AsWritten | Intended

  function Put(order: Choice, s: seq<Entry>, e: Entry): seq<Entry> {
    if order == Intended then Insert(s, e) else InsertAsWritten(s, e)
  }

  // ---------------------------------------------------------------------------------------------
  // The timer descriptor
  // ---------------------------------------------------------------------------------------------

  const NS_PER_TICK: nat := 1_000_000

  /** When the descriptor becomes readable, in nanoseconds; settime may refuse a negative time. */
  datatype Timerfd = Disarmed | Armed(at: int) | Refused

  /** C++ division and remainder, which round towards zero. */
  function Quotient(a: int, b: nat): int
    requires b > 0
  {
    if a >= 0 then a / b else -(-a / b)
  }

  function Remainder(a: int, b: nat): int
    requires b > 0
  {
    a - Quotient(a, b) * b
  }

  /** The clock as ResetTimerfd reads it, once for the seconds and once for the rest. */
  datatype Readings = Readings(first: int, second: int)

  /** ResetTimerfd: seconds, then the rest a thousandfold as nanoseconds; zero disarms. */
  function Reset(expiration: int, clock: Readings): Timerfd {
    var sec := Quotient(expiration - clock.first, 1000);
    var nsec := Remainder(expiration - clock.second, 1000) * 1000;
    if sec < 0 || nsec < 0 then Refused
    else if sec == 0 && nsec == 0 then Disarmed
    else Armed(clock.second * NS_PER_TICK + sec * 1_000_000_000 + nsec)
  }

  predicate InTime(fd: Timerfd, expiration: int) {
    fd.Armed? && fd.at <= expiration * NS_PER_TICK
  }

  /** The second reading is early enough, the first leaves no more whole seconds than it, and together they leave some time. */
  predicate Agree(clock: Readings, expiration: int) {
    && clock.second < expiration
    && 0 <= Quotient(expiration - clock.first, 1000) <= Quotient(expiration - clock.second, 1000)
    && (Quotient(expiration - clock.first, 1000) > 0 || (expiration - clock.second) % 1000 != 0)
  }

  /** When the descriptor is armed in time, when it is disarmed, and when settime is given a negative time. */
  lemma ResetIff(expiration: int, clock: Readings)
    ensures InTime(Reset(expiration, clock), expiration) <==> Agree(clock, expiration)
    ensures Reset(expiration, clock) == Disarmed
            <==> -1000 < expiration - clock.first < 1000 && (expiration - clock.second) % 1000 == 0
    ensures Reset(expiration, clock) == Refused
            <==> expiration - clock.first <= -1000
                 || (expiration < clock.second && (expiration - clock.second) % 1000 != 0)
  {
  }

  /** Two readings on both sides of a full second arm it almost a second late, one at the expiration not at all. */
  lemma ResetGap()
    ensures Reset(2000, Readings(1000, 1001)) == Armed(2001 * NS_PER_TICK + 999_000)
    ensures Reset(2000, Readings(2000, 2000)) == Disarmed
    ensures Reset(2000, Readings(2001, 2001)) == Refused
  {
  }

  // ---------------------------------------------------------------------------------------------
  // The queue
  // ---------------------------------------------------------------------------------------------

  /**
    `reported` says that the poll has reported the descriptor and HandleRead has not been called yet.
    `last`, `seen`, `dead` and `fired` are history: the last reading of the clock, ids ever inserted,
    ids cancelled after that, ids run.
   */
  datatype Timers = Timers(
    order: Choice, flag: Choice, entries: seq<Entry>, calling: bool, cancelled: set<nat>, fd: Timerfd,
    reported: bool, last: int, seen: set<nat>, dead: set<nat>, fired: seq<nat>)

  function Start(flag: Choice): Timers {
    Timers(Intended, flag, [], false, {}, Disarmed, false, 0, {}, {}, [])
  }

  /** AddTimerInLoop and CancelTimerInLoop. */
  datatype Action = AddTimer(e: Entry, clock: Readings) | CancelTimer(id: nat)

  /**
    A new timer has a new id. Any id may be cancelled, also one whose AddTimerInLoop is still in the
    task queue of the loop.
   */
  predicate Legal(q: Timers, a: Action) {
    q.fd != Refused && (a.AddTimer? ==> a.e.id !in q.seen)
  }

  predicate BecomesFirst(q: Timers, e: Entry) {
    q.entries == [] || e.time < q.entries[0].time
  }

  function Act(q: Timers, a: Action): Timers {
    match a
    case AddTimer(e, clock) =>
      q.(entries := Put(q.order, q.entries, e), seen := q.seen + {e.id},
         fd := if BecomesFirst(q, e) then Reset(e.time, clock) else q.fd,
         last := if BecomesFirst(q, e) then clock.second else q.last)
    case CancelTimer(id) =>
      if HasId(q.entries, id) then q.(entries := EraseId(q.entries, id), dead := Died(q, id))
      else q.(cancelled := if q.calling then q.cancelled + {id} else q.cancelled, dead := Died(q, id))
  }

  function Died(q: Timers, id: nat): set<nat> {
    if id in q.seen then q.dead + {id} else q.dead
  }

  /** The queue after the first n actions. */
  function ActUpTo(q: Timers, acts: seq<Action>, n: nat): Timers
    requires n <= |acts|
  {
    if n == 0 then q else Act(ActUpTo(q, acts, n - 1), acts[n - 1])
  }

  function ActAll(q: Timers, acts: seq<Action>): Timers {
    ActUpTo(q, acts, |acts|)
  }

  predicate LegalUpTo(q: Timers, acts: seq<Action>, n: nat)
    requires n <= |acts|
  {
    n == 0 || (LegalUpTo(q, acts, n - 1) && Legal(ActUpTo(q, acts, n - 1), acts[n - 1]))
  }

  predicate AllLegal(q: Timers, acts: seq<Action>) {
    LegalUpTo(q, acts, |acts|)
  }

  /** The loop in reset(), n turns of it: repeating timers that were not cancelled go back in. */
  function RearmUpTo(q: Timers, expired: seq<Entry>, now: int, n: nat): Timers
    requires n <= |expired|
  {
    if n == 0 then q
    else
      var d := expired[n - 1];
      var r := RearmUpTo(q, expired, now, n - 1);
      if d.Repeats() && d.id !in q.cancelled then r.(entries := Put(r.order, r.entries, d.Restarted(now))) else r
  }

  function Rearm(q: Timers, expired: seq<Entry>, now: int): Timers {
    RearmUpTo(q, expired, now, |expired|)
  }

  function IdsOf(s: seq<Entry>): (ids: seq<nat>)
    ensures |ids| == |s| && forall i :: 0 <= i < |s| ==> ids[i] == s[i].id
  {
    if s == [] then [] else IdsOf(s[..|s| - 1]) + [s[|s| - 1].id]
  }

  function Expired(q: Timers, now: int): seq<Entry> {
    q.entries[..DueCount(q.entries, now)]
  }

  function NotDue(q: Timers, now: int): seq<Entry> {
    q.entries[DueCount(q.entries, now)..]
  }

  /** The descriptor read, the expired timers taken out, the flag set as the code or as intended. */
  function Taken(q: Timers, now: int): Timers {
    q.(entries := NotDue(q, now), calling := q.flag == Intended, fd := Disarmed, reported := false, last := now)
  }

  /** After the loop that runs the callbacks. */
  function Called(q: Timers, now: int, acts: seq<Action>): Timers {
    ActAll(Taken(q, now), acts).(calling := false, fired := q.fired + IdsOf(Expired(q, now)))
  }

  /** HandleRead as a whole: `acts` are the actions of all callbacks in order, `clock` the time when the descriptor is set again. */
  function RoundOf(q: Timers, now: int, acts: seq<Action>, clock: Readings): Timers {
    Rearmed(Rearm(Called(q, now, acts), Expired(q, now), now), clock)
  }

  /** The end of reset(): the descriptor is set for the first timer. */
  function Rearmed(r: Timers, clock: Readings): Timers {
    if r.entries == [] then r else r.(fd := Reset(r.entries[0].time, clock), last := clock.second)
  }

  ghost predicate AllSeen(s: seq<Entry>, seen: set<nat>) {
    forall x :: x in s ==> x.id in seen
  }

  ghost predicate Ok(q: Timers) {
    WellFormed(q.entries) && AllSeen(q.entries, q.seen) && q.order == Intended
  }

  // ---------------------------------------------------------------------------------------------
  // What a sequence of actions leaves
  // ---------------------------------------------------------------------------------------------

  /** Among the actions from k up to n is a cancellation of the timer. */
  ghost predicate CancelledIn(acts: seq<Action>, k: nat, n: nat, id: nat)
    requires n <= |acts|
  {
    exists j :: k <= j < n && acts[j] == CancelTimer(id)
  }

  ghost predicate Cancelled(acts: seq<Action>, id: nat) {
    CancelledIn(acts, 0, |acts|, id)
  }

  /** After n actions: there from the start or added, and not cancelled after that. */
  ghost predicate Survives(before: seq<Entry>, acts: seq<Action>, n: nat, x: Entry)
    requires n <= |acts|
  {
    || (x in before && !CancelledIn(acts, 0, n, x.id))
    || (exists k :: 0 <= k < n && acts[k].AddTimer? && acts[k].e == x && !CancelledIn(acts, k + 1, n, x.id))
  }

  lemma SurvivesNext(before: seq<Entry>, acts: seq<Action>, n: nat, x: Entry)
    requires n < |acts|
    ensures Survives(before, acts, n + 1, x) <==>
            (Survives(before, acts, n, x) && acts[n] != CancelTimer(x.id)) || (acts[n].AddTimer? && acts[n].e == x)
  {
  }

  lemma ActOk(q: Timers, a: Action)
    requires Ok(q) && Legal(q, a)
    ensures Ok(Act(q, a)) && q.seen <= Act(q, a).seen
    ensures forall x :: x in Act(q, a).entries <==> (x in q.entries && a != CancelTimer(x.id)) || (a.AddTimer? && a.e == x)
  {
    match a
    case AddTimer(e, _) =>
      assert !HasId(q.entries, e.id);
      InsertOk(q.entries, e);
    case CancelTimer(id) =>
      EraseOk(q.entries, id);
      assert forall x :: x in q.entries && x.id == id ==> HasId(q.entries, id);
  }

  /** The set after any sequence of legal actions, said without running them. */
  lemma {:induction false} ActUpToOk(q: Timers, acts: seq<Action>, n: nat)
    requires n <= |acts| && Ok(q) && LegalUpTo(q, acts, n)
    ensures Ok(ActUpTo(q, acts, n)) && q.seen <= ActUpTo(q, acts, n).seen
    ensures SetIs(ActUpTo(q, acts, n).entries, q.entries, acts, n)
  {
    if n > 0 {
      ActUpToOk(q, acts, n - 1);
      SetNext(ActUpTo(q, acts, n - 1), q.entries, acts, n - 1);
    }
  }

  ghost predicate SetIs(s: seq<Entry>, before: seq<Entry>, acts: seq<Action>, n: nat)
    requires n <= |acts|
  {
    forall x :: x in s <==> Survives(before, acts, n, x)
  }

  lemma SetNext(q: Timers, before: seq<Entry>, acts: seq<Action>, n: nat)
    requires n < |acts| && Ok(q) && Legal(q, acts[n]) && SetIs(q.entries, before, acts, n)
    ensures Ok(Act(q, acts[n])) && q.seen <= Act(q, acts[n]).seen
    ensures SetIs(Act(q, acts[n]).entries, before, acts, n + 1)
  {
    ActOk(q, acts[n]);
    forall x ensures x in Act(q, acts[n]).entries <==> Survives(before, acts, n + 1, x) {
      SurvivesNext(before, acts, n, x);
    }
  }

  /** Cancelling a timer that is out of the set is recorded exactly while the flag is up. */
  lemma {:induction false} ActUpToCancels(q: Timers, acts: seq<Action>, n: nat, id: nat)
    requires n <= |acts| && Ok(q) && LegalUpTo(q, acts, n) && id in q.seen && !HasId(q.entries, id)
    ensures var r := ActUpTo(q, acts, n);
            && Ok(r) && id in r.seen && !HasId(r.entries, id) && r.calling == q.calling && r.flag == q.flag
            && (id in r.cancelled <==> id in q.cancelled || (q.calling && CancelledIn(acts, 0, n, id)))
  {
    if n > 0 {
      ActUpToCancels(q, acts, n - 1, id);
      ActCancels(ActUpTo(q, acts, n - 1), acts[n - 1], id);
      CancelledNext(acts, n - 1, id);
    }
  }

  lemma ActCancels(q: Timers, a: Action, id: nat)
    requires Ok(q) && Legal(q, a) && id in q.seen && !HasId(q.entries, id)
    ensures var r := Act(q, a);
            && Ok(r) && id in r.seen && !HasId(r.entries, id) && r.calling == q.calling && r.flag == q.flag
            && (id in r.cancelled <==> id in q.cancelled || (q.calling && a == CancelTimer(id)))
  {
    ActOk(q, a);
    assert forall x :: x in q.entries ==> x.id != id;
  }

  lemma CancelledNext(acts: seq<Action>, n: nat, id: nat)
    requires n < |acts|
    ensures CancelledIn(acts, 0, n + 1, id) <==> CancelledIn(acts, 0, n, id) || acts[n] == CancelTimer(id)
  {
  }

  /** Among the first n actions is a cancellation of the timer, and it had been inserted by then. */
  ghost predicate TakesEffectBy(q: Timers, acts: seq<Action>, n: nat, id: nat)
    requires n <= |acts|
  {
    exists j :: 0 <= j < n && acts[j] == CancelTimer(id) && id in ActUpTo(q, acts, j).seen
  }

  ghost predicate TakesEffect(q: Timers, acts: seq<Action>, id: nat) {
    TakesEffectBy(q, acts, |acts|, id)
  }

  lemma {:induction false} ActUpToDead(q: Timers, acts: seq<Action>, n: nat, id: nat)
    requires n <= |acts|
    ensures id in ActUpTo(q, acts, n).dead <==> id in q.dead || TakesEffectBy(q, acts, n, id)
  {
    if n > 0 {
      ActUpToDead(q, acts, n - 1, id);
      ActDead(ActUpTo(q, acts, n - 1), acts[n - 1], id);
      EffectNext(q, acts, n - 1, id);
    }
  }

  lemma ActDead(q: Timers, a: Action, id: nat)
    ensures id in Act(q, a).dead <==> id in q.dead || (a == CancelTimer(id) && id in q.seen)
  {
  }

  lemma EffectNext(q: Timers, acts: seq<Action>, n: nat, id: nat)
    requires n < |acts|
    ensures TakesEffectBy(q, acts, n + 1, id)
            <==> TakesEffectBy(q, acts, n, id) || (acts[n] == CancelTimer(id) && id in ActUpTo(q, acts, n).seen)
  {
  }

  lemma {:induction false} ActUpToKeeps(q: Timers, acts: seq<Action>, n: nat)
    requires n <= |acts|
    ensures var r := ActUpTo(q, acts, n); r.fired == q.fired && r.flag == q.flag && r.calling == q.calling
  {
    if n > 0 {
      ActUpToKeeps(q, acts, n - 1);
    }
  }

  // ---------------------------------------------------------------------------------------------
  // A round
  // ---------------------------------------------------------------------------------------------

  /** x is timer d, to expire a whole interval after now, however late that is. */
  predicate ReKeyed(d: Entry, now: int, x: Entry) {
    x.id == d.id && x.interval == d.interval && x.time == now + d.interval
  }

  ghost predicate GoesBack(q: Timers, expired: seq<Entry>, now: int, x: Entry) {
    exists d :: d in expired && d.interval > 0 && d.id !in q.cancelled && ReKeyed(d, now, x)
  }

  lemma {:induction false} RearmOk(q: Timers, expired: seq<Entry>, now: int, n: nat)
    requires n <= |expired| && Ok(q) && DistinctIds(expired)
    requires forall d :: d in expired ==> !HasId(q.entries, d.id) && d.id in q.seen
    ensures var r := RearmUpTo(q, expired, now, n);
            && r == q.(entries := r.entries) && Ok(r)
            && (forall x :: x in r.entries <==> x in q.entries || GoesBack(q, expired[..n], now, x))
  {
    if n > 0 {
      RearmOk(q, expired, now, n - 1);
      OneMoreGoesBack(q, expired, now, n - 1);
      NotYetBack(q, expired, now, n - 1);
      InsertOk(RearmUpTo(q, expired, now, n - 1).entries, expired[n - 1].Restarted(now));
    }
  }

  lemma OneMoreGoesBack(q: Timers, expired: seq<Entry>, now: int, n: nat)
    requires n < |expired|
    ensures forall x :: GoesBack(q, expired[..n + 1], now, x) <==>
              || GoesBack(q, expired[..n], now, x)
              || (expired[n].Repeats() && expired[n].id !in q.cancelled && x == expired[n].Restarted(now))
  {
    var front, d := expired[..n], expired[n];
    assert expired[..n + 1] == front + [d];
    forall x | GoesBack(q, front, now, x) || (d.Repeats() && d.id !in q.cancelled && x == d.Restarted(now))
      ensures GoesBack(q, front + [d], now, x)
    {
      if GoesBack(q, front, now, x) {
        var y :| y in front && y.Repeats() && y.id !in q.cancelled && x == y.Restarted(now);
        assert y in front + [d];
      } else {
        assert d in front + [d];
      }
    }
  }

  lemma NotYetBack(q: Timers, expired: seq<Entry>, now: int, n: nat)
    requires n < |expired| && DistinctIds(expired)
    requires forall d :: d in expired ==> !HasId(q.entries, d.id) && d.id in q.seen
    requires forall x :: x in RearmUpTo(q, expired, now, n).entries <==> x in q.entries || GoesBack(q, expired[..n], now, x)
    ensures !HasId(RearmUpTo(q, expired, now, n).entries, expired[n].id) && expired[n].id in q.seen
  {
    assert expired[n] in expired;
    forall x | x in RearmUpTo(q, expired, now, n).entries ensures x.id != expired[n].id {
    }
  }

  lemma TakenOk(q: Timers, now: int)
    requires Ok(q)
    ensures Ok(Taken(q, now)) && WellFormed(Expired(q, now))
    ensures forall x :: x in Expired(q, now) <==> x in q.entries && x.time <= now
    ensures forall x :: x in NotDue(q, now) <==> x in q.entries && x.time > now
    ensures forall d :: d in Expired(q, now) ==> !HasId(NotDue(q, now), d.id) && d.id in q.seen
  {
  }

  /** After the callbacks the timers taken out are still out. */
  lemma CalledOk(q: Timers, now: int, acts: seq<Action>)
    requires Ok(q) && AllLegal(Taken(q, now), acts)
    ensures var called := Called(q, now, acts);
            && Ok(called)
            && forall d :: d in Expired(q, now) ==>
                 && !HasId(called.entries, d.id) && d.id in called.seen
                 && (d.id in called.cancelled <==> LosesTurn(q, acts, d.id))
  {
    TakenOk(q, now);
    ActUpToOk(Taken(q, now), acts, |acts|);
    forall d | d in Expired(q, now)
      ensures !HasId(Called(q, now, acts).entries, d.id) && d.id in Called(q, now, acts).seen
      ensures d.id in Called(q, now, acts).cancelled <==> LosesTurn(q, acts, d.id)
    {
      ActUpToCancels(Taken(q, now), acts, |acts|, d.id);
    }
  }

  /** Whether the round keeps d from going back into the set. */
  ghost predicate LosesTurn(q: Timers, acts: seq<Action>, id: nat) {
    id in q.cancelled || (q.flag == Intended && Cancelled(acts, id))
  }

  /**
    One call of HandleRead with callbacks that add and cancel as they like. It runs exactly the
    timers due, in (expiration, id) order. It leaves exactly: those not due and those added, unless
    cancelled afterwards, and the repeating ones among those run, to expire an interval after `now`,
    unless they lost their turn. Nothing is duplicated.
   */
  lemma RoundRunsDueAndLeavesRest(q: Timers, now: int, acts: seq<Action>, clock: Readings)
    requires Ok(q) && AllLegal(Taken(q, now), acts)
    ensures var r := RoundOf(q, now, acts, clock);
            && Ok(r) && !r.calling && r.flag == q.flag
            && r.fired == q.fired + IdsOf(Expired(q, now)) && Sorted(Expired(q, now))
            && (forall x :: x in Expired(q, now) <==> x in q.entries && x.time <= now)
            && (forall x :: x in r.entries <==>
                  || Survives(NotDue(q, now), acts, |acts|, x)
                  || exists d ::
                       && d in q.entries && d.time <= now < x.time && d.interval > 0 && !LosesTurn(q, acts, d.id)
                       && x.id == d.id && x.interval == d.interval && x.time == now + d.interval)
  {
    TakenOk(q, now);
    var expired := Expired(q, now);
    ActUpToOk(Taken(q, now), acts, |acts|);
    CalledOk(q, now, acts);
    ActUpToKeeps(Taken(q, now), acts, |acts|);
    RearmOk(Called(q, now, acts), expired, now, |expired|);
    assert expired[..|expired|] == expired;
  }

  /**
    What a round does to the descriptor: the report is used up, and it is set for the first timer left,
    at the last reading of the clock. With none left, and nothing added, it is disarmed.
   */
  lemma RoundSetsDescriptor(q: Timers, now: int, acts: seq<Action>, clock: Readings)
    ensures var r := RoundOf(q, now, acts, clock);
            && !r.reported && !r.calling
            && (r.entries != [] ==> r.fd == Reset(r.entries[0].time, clock) && r.last == clock.second)
            && (r.entries == [] && acts == [] ==> r.fd == Disarmed && r.last == now)
  {
    RearmChangesEntriesOnly(Called(q, now, acts), Expired(q, now), now, |Expired(q, now)|);
    ActsLeaveReport(Taken(q, now), acts, |acts|);
  }

  lemma {:induction false} ActsLeaveReport(q: Timers, acts: seq<Action>, n: nat)
    requires n <= |acts|
    ensures ActUpTo(q, acts, n).reported == q.reported
  {
    if n > 0 {
      ActsLeaveReport(q, acts, n - 1);
    }
  }

  // ---------------------------------------------------------------------------------------------
  // Cancellation is final
  // ---------------------------------------------------------------------------------------------

  /** The timer is one of those this round runs, and repeats. */
  ghost predicate RunsAndRepeats(q: Timers, now: int, id: nat) {
    exists d :: d in q.entries && d.time <= now && d.Repeats() && d.id == id
  }

  /**
    A timer cancelled by a callback, once it has been inserted, is out of the set after the round
    exactly when the flag is up while callbacks run, or the timer is not itself a repeating one that
    this round runs (or an earlier cancellation was recorded). As written, a repeating timer cannot
    cancel itself.
   */
  lemma CancelFinalIff(q: Timers, now: int, acts: seq<Action>, clock: Readings, id: nat)
    requires Ok(q) && AllLegal(Taken(q, now), acts) && TakesEffect(Taken(q, now), acts, id)
    ensures id in RoundOf(q, now, acts, clock).seen
    ensures !HasId(RoundOf(q, now, acts, clock).entries, id)
            <==> q.flag == Intended || !RunsAndRepeats(q, now, id) || id in q.cancelled
  {
    RoundRunsDueAndLeavesRest(q, now, acts, clock);
    var r := RoundOf(q, now, acts, clock);
    if RunsAndRepeats(q, now, id) && !LosesTurn(q, acts, id) {
      var d :| d in q.entries && d.time <= now && d.Repeats() && d.id == id;
      assert d.Restarted(now) in r.entries;
    }
    forall x | Survives(NotDue(q, now), acts, |acts|, x) ensures x.id != id {
      CancelsComeLater(Taken(q, now), acts, x, id);
    }
    if HasId(r.entries, id) {
      var i :| 0 <= i < |r.entries| && r.entries[i].id == id;
      assert r.entries[i] in r.entries;
    }
    CancelledIsSeen(q, now, acts, clock, id);
  }

  /** A timer of interval 10 that was due at 5 and is handled at 12 is due again at 22. */
  lemma LateRound()
    ensures var q := Start(AsWritten).(entries := [Entry(5, 1, 10)], seen := {1});
            RoundOf(q, 12, [], Readings(12, 12)).entries == [Entry(22, 1, 10)]
  {
    var e := Entry(5, 1, 10);
    var q := Start(AsWritten).(entries := [e], seen := {1});
    DueCountIs([e], 12, 1);
    assert Expired(q, 12) == [e] && NotDue(q, 12) == [];
    var called := Called(q, 12, []);
    assert RearmUpTo(called, [e], 12, 0) == called;
    assert Rearm(called, [e], 12).entries == Insert([], Entry(22, 1, 10));
  }

  lemma {:induction false} SeenGrows(q: Timers, acts: seq<Action>, k: nat, n: nat)
    requires k <= n <= |acts|
    ensures ActUpTo(q, acts, k).seen <= ActUpTo(q, acts, n).seen
    decreases n
  {
    if k < n {
      SeenGrows(q, acts, k, n - 1);
    }
  }

  /** Ids are not reused: what is added is cancelled later or not at all, and then it does not survive. */
  lemma CancelsComeLater(q: Timers, acts: seq<Action>, x: Entry, id: nat)
    requires AllLegal(q, acts) && TakesEffect(q, acts, id) && Survives(q.entries, acts, |acts|, x)
    ensures x.id != id
  {
    var j :| 0 <= j < |acts| && acts[j] == CancelTimer(id) && id in ActUpTo(q, acts, j).seen;
    LegalEarlier(q, acts, j, |acts|);
    forall k | 0 <= k <= j && acts[k].AddTimer? && acts[k].e == x
      ensures x.id == id ==> CancelledIn(acts, k + 1, |acts|, id)
    {
    }
    forall k | j < k < |acts| && acts[k].AddTimer? && acts[k].e == x ensures x.id != id {
      LegalEarlier(q, acts, k, |acts|);
      SeenGrows(q, acts, j, k);
    }
  }

  lemma CancelledIsSeen(q: Timers, now: int, acts: seq<Action>, clock: Readings, id: nat)
    requires TakesEffect(Taken(q, now), acts, id)
    ensures id in RoundOf(q, now, acts, clock).seen
  {
    var j :| 0 <= j < |acts| && acts[j] == CancelTimer(id) && id in ActUpTo(Taken(q, now), acts, j).seen;
    SeenGrows(Taken(q, now), acts, j, |acts|);
    RearmChangesEntriesOnly(Called(q, now, acts), Expired(q, now), now, |Expired(q, now)|);
  }

  lemma {:induction false} AddsAreNew(q: Timers, acts: seq<Action>, n: nat, x: Entry)
    requires n <= |acts| && LegalUpTo(q, acts, n)
    ensures q.seen <= ActUpTo(q, acts, n).seen
    ensures forall k :: 0 <= k < n && acts[k].AddTimer? && acts[k].e == x ==> x.id !in q.seen
  {
    if n > 0 {
      AddsAreNew(q, acts, n - 1, x);
    }
  }

  /** A timer of interval 10 that cancels itself when it runs at 5 is back in the set for 15. */
  lemma SelfCancelGap()
    ensures var q := Act(Start(AsWritten), AddTimer(Entry(5, 1, 10), Readings(0, 0)));
            RoundOf(q, 5, [CancelTimer(1)], Readings(5, 5)).entries == [Entry(15, 1, 10)]
  {
    SelfCancelRound(Readings(5, 5));
  }

  lemma SelfCancelRound(clock: Readings)
    ensures var q := Act(Start(AsWritten), AddTimer(Entry(5, 1, 10), Readings(0, 0)));
            var r := RoundOf(q, 5, [CancelTimer(1)], clock);
            Ok(r) && r.entries == [Entry(15, 1, 10)] && r.fd == Reset(15, clock) && r.last == clock.second && !r.reported
  {
    var e := Entry(5, 1, 10);
    var q := Act(Start(AsWritten), AddTimer(e, Readings(0, 0)));
    assert q.entries == [e];
    assert Expired(q, 5) == [e] && NotDue(q, 5) == [];
    var acts := [CancelTimer(1)];
    assert ActUpTo(Taken(q, 5), acts, 1) == Act(ActUpTo(Taken(q, 5), acts, 0), acts[0]);
    var called := Called(q, 5, acts);
    assert called.entries == [] && called.cancelled == {};
    assert RearmUpTo(called, [e], 5, 0) == called;
    assert Rearm(called, [e], 5).entries == Insert([], e.Restarted(5));
  }

  datatype Step =
    | Outside(a: Action)                                     // from the task queue of the loop, or another handler
    | Report(now: int)                                       // the poll reports the descriptor
    | Expire(now: int, acts: seq<Action>, clock: Readings)   // its handler, HandleRead

  predicate Enabled(q: Timers, step: Step) {
    match step
    case Outside(a) => Legal(q, a)
    case Report(_) => q.fd.Armed? && !q.reported
    // a handler before it may have set the descriptor again since
    case Expire(now, acts, _) =>
      q.reported && q.fd != Refused && AllLegal(Taken(q, now), acts) && ActAll(Taken(q, now), acts).fd != Refused
  }

  function Apply(q: Timers, step: Step): Timers {
    match step
    case Outside(a) => Act(q, a)
    case Report(now) => q.(reported := true, last := now)
    case Expire(now, acts, clock) => RoundOf(q, now, acts, clock)
  }

  predicate Runs(q: Timers, steps: seq<Step>)
    decreases |steps|
  {
    steps == [] || (Enabled(q, steps[0]) && Runs(Apply(q, steps[0]), steps[1..]))
  }

  function After(q: Timers, steps: seq<Step>): Timers
    decreases |steps|
  {
    if steps == [] then q else After(Apply(q, steps[0]), steps[1..])
  }

  /** No cancelled timer is in the set. */
  ghost predicate Alive(q: Timers) {
    q.dead <= q.seen && forall x :: x in q.entries ==> x.id !in q.dead
  }

  ghost predicate Inv(q: Timers) {
    Ok(q) && Alive(q) && !q.calling
  }

  lemma {:induction false} ActUpToAlive(q: Timers, acts: seq<Action>, n: nat)
    requires n <= |acts| && Ok(q) && Alive(q) && LegalUpTo(q, acts, n)
    ensures Ok(ActUpTo(q, acts, n)) && Alive(ActUpTo(q, acts, n))
  {
    if n > 0 {
      ActUpToAlive(q, acts, n - 1);
      ActOk(ActUpTo(q, acts, n - 1), acts[n - 1]);
    }
  }

  lemma OutsideKeepsInv(q: Timers, a: Action)
    requires Inv(q) && Legal(q, a)
    ensures Inv(Act(q, a)) && q.dead <= Act(q, a).dead && Act(q, a).fired == q.fired && Act(q, a).flag == q.flag
  {
    ActOk(q, a);
  }

  lemma ExpireKeepsInv(q: Timers, now: int, acts: seq<Action>, clock: Readings)
    requires Inv(q) && q.flag == Intended && AllLegal(Taken(q, now), acts)
    ensures var r := RoundOf(q, now, acts, clock);
            && Inv(r) && q.dead <= r.dead && r.flag == q.flag
            && r.fired == q.fired + IdsOf(Expired(q, now))
            && forall id :: id in IdsOf(Expired(q, now)) ==> id !in q.dead
  {
    RoundRunsDueAndLeavesRest(q, now, acts, clock);
    TakenOk(q, now);
    ActUpToAlive(Taken(q, now), acts, |acts|);
    ActUpToOk(Taken(q, now), acts, |acts|);
    var called, r := ActAll(Taken(q, now), acts), RoundOf(q, now, acts, clock);
    RearmChangesEntriesOnly(called.(calling := false, fired := r.fired), Expired(q, now), now, |Expired(q, now)|);
    forall id ensures (id in q.dead ==> id in called.dead) && (id in called.dead ==> id in q.dead || Cancelled(acts, id)) {
      ActUpToDead(Taken(q, now), acts, |acts|, id);
    }
    forall x | x in r.entries ensures x.id !in r.dead {
      if Survives(NotDue(q, now), acts, |acts|, x) {
        assert x in called.entries;
      }
    }
    forall i | 0 <= i < |Expired(q, now)| ensures Expired(q, now)[i].id !in q.dead {
      assert Expired(q, now)[i] in q.entries;
    }
  }

  lemma {:induction false} RearmChangesEntriesOnly(q: Timers, expired: seq<Entry>, now: int, n: nat)
    requires n <= |expired|
    ensures var r := RearmUpTo(q, expired, now, n); r == q.(entries := r.entries)
  {
    if n > 0 {
      RearmChangesEntriesOnly(q, expired, now, n - 1);
    }
  }

  /**
    With the flag as intended: once a cancel has run on the loop, from outside or from a callback,
    no later round runs the timer, however long the run and although CancelTimers_ is never emptied.
   */
  lemma {:induction false} CancelledNeverRuns(q: Timers, steps: seq<Step>, id: nat)
    requires Inv(q) && q.flag == Intended && id in q.dead && Runs(q, steps)
    ensures q.fired <= After(q, steps).fired && id !in After(q, steps).fired[|q.fired|..]
    decreases |steps|
  {
    if steps != [] {
      var n := Apply(q, steps[0]);
      match steps[0]
      case Outside(a) =>
        OutsideKeepsInv(q, a);
        CancelledNeverRuns(n, steps[1..], id);
      case Report(_) =>
        CancelledNeverRuns(n, steps[1..], id);
      case Expire(now, acts, clock) =>
        ExpireKeepsInv(q, now, acts, clock);
        CancelledNeverRuns(n, steps[1..], id);
        NotInEither(q.fired, IdsOf(Expired(q, now)), After(n, steps[1..]).fired, id);
    }
  }

  lemma NotInEither(front: seq<nat>, more: seq<nat>, all: seq<nat>, id: nat)
    requires front + more <= all && id !in more && id !in all[|front + more|..]
    ensures front <= all && id !in all[|front|..]
  {
  }

  /** The ids of the timers that a step runs, and a run. */
  function RanBy(q: Timers, step: Step): seq<nat> {
    if step.Expire? then IdsOf(Expired(q, step.now)) else []
  }

  function RanIn(q: Timers, steps: seq<Step>): seq<nat>
    decreases |steps|
  {
    if steps == [] then [] else RanBy(q, steps[0]) + RanIn(Apply(q, steps[0]), steps[1..])
  }

  /** `fired` is the history of that. */
  lemma {:induction false} RanIsFired(q: Timers, steps: seq<Step>)
    requires Runs(q, steps)
    ensures After(q, steps).fired == q.fired + RanIn(q, steps)
    decreases |steps|
  {
    if steps != [] {
      StepFires(q, steps[0]);
      RanIsFired(Apply(q, steps[0]), steps[1..]);
      Sequences.Reassociate(q.fired, RanBy(q, steps[0]), RanIn(Apply(q, steps[0]), steps[1..]));
    }
  }

  lemma StepFires(q: Timers, step: Step)
    requires Enabled(q, step)
    ensures Apply(q, step).fired == q.fired + RanBy(q, step)
  {
    match step
    case Outside(_) =>
    case Report(_) =>
    case Expire(now, acts, clock) =>
      RearmChangesEntriesOnly(Called(q, now, acts), Expired(q, now), now, |Expired(q, now)|);
  }

  /** For either flag: a timer that is out of the set, and not in hand, is never run again. */
  lemma {:induction false} AbsentNeverRuns(q: Timers, steps: seq<Step>, id: nat)
    requires Ok(q) && Runs(q, steps) && id in q.seen && !HasId(q.entries, id)
    ensures id !in RanIn(q, steps)
    decreases |steps|
  {
    if steps != [] {
      AbsentStays(q, steps[0], id);
      AbsentNeverRuns(Apply(q, steps[0]), steps[1..], id);
    }
  }

  lemma AbsentStays(q: Timers, step: Step, id: nat)
    requires Ok(q) && Enabled(q, step) && id in q.seen && !HasId(q.entries, id)
    ensures var n := Apply(q, step);
            Ok(n) && id in n.seen && !HasId(n.entries, id) && id !in RanBy(q, step)
  {
    match step
    case Outside(a) => ActCancels(q, a, id);
    case Report(_) =>
    case Expire(now, acts, clock) => RoundKeepsAbsent(q, now, acts, clock, id);
  }

  lemma RoundKeepsAbsent(q: Timers, now: int, acts: seq<Action>, clock: Readings, id: nat)
    requires Ok(q) && AllLegal(Taken(q, now), acts) && id in q.seen && !HasId(q.entries, id)
    ensures var r := RoundOf(q, now, acts, clock);
            Ok(r) && id in r.seen && !HasId(r.entries, id) && id !in IdsOf(Expired(q, now))
  {
    var r := RoundOf(q, now, acts, clock);
    RoundRunsDueAndLeavesRest(q, now, acts, clock);
    assert forall d :: d in q.entries ==> d.id != id;
    forall x | Survives(NotDue(q, now), acts, |acts|, x) ensures x.id != id {
      AddsAreNew(Taken(q, now), acts, |acts|, x);
      assert x in NotDue(q, now) ==> x in q.entries;
    }
    assert forall x :: x in r.entries ==> x.id != id;
    SeenGrows(Taken(q, now), acts, 0, |acts|);
    var called := ActAll(Taken(q, now), acts).(calling := false, fired := r.fired);
    RearmChangesEntriesOnly(called, Expired(q, now), now, |Expired(q, now)|);
    forall i | 0 <= i < |Expired(q, now)| ensures Expired(q, now)[i].id != id {
      assert Expired(q, now)[i] in q.entries;
    }
  }

  // ---------------------------------------------------------------------------------------------
  // Which timers can still run
  // ---------------------------------------------------------------------------------------------

  /** In no continuation, whatever the clock says, is the timer run. */
  ghost predicate NeverRunsAgain(q: Timers, id: nat) {
    forall steps :: Runs(q, steps) ==> id !in RanIn(q, steps)
  }

  /** What the step reads from the clock comes in order, and the descriptor is readable when its time has come. */
  ghost predicate ForwardAct(q: Timers, a: Action) {
    a.AddTimer? && BecomesFirst(q, a.e) ==> q.last <= a.clock.first <= a.clock.second
  }

  ghost predicate ActsForward(q: Timers, acts: seq<Action>, n: nat)
    requires n <= |acts|
  {
    n == 0 || (ActsForward(q, acts, n - 1) && ForwardAct(ActUpTo(q, acts, n - 1), acts[n - 1]))
  }

  ghost predicate ForwardStep(q: Timers, step: Step) {
    match step
    case Outside(a) => ForwardAct(q, a)
    case Report(now) => q.last <= now && (q.fd.Armed? ==> q.fd.at <= now * NS_PER_TICK)
    case Expire(now, acts, clock) =>
      && q.last <= now
      && ActsForward(Taken(q, now), acts, |acts|)
      && ActAll(Taken(q, now), acts).last <= clock.first <= clock.second
  }

  ghost predicate Forward(q: Timers, steps: seq<Step>)
    decreases |steps|
  {
    steps != [] ==> ForwardStep(q, steps[0]) && Forward(Apply(q, steps[0]), steps[1..])
  }

  lemma ActGoesOn(q: Timers, a: Action)
    requires ForwardAct(q, a)
    ensures q.last <= Act(q, a).last
  {
  }

  lemma {:induction false} ActsGoOn(q: Timers, acts: seq<Action>, n: nat)
    requires n <= |acts| && ActsForward(q, acts, n)
    ensures q.last <= ActUpTo(q, acts, n).last
  {
    if n > 0 {
      ActsGoOn(q, acts, n - 1);
      ActGoesOn(ActUpTo(q, acts, n - 1), acts[n - 1]);
    }
  }

  /** `last` is what its name says: it never goes back, and is not behind any reading of the step. */
  lemma ClockGoesOn(q: Timers, step: Step)
    requires ForwardStep(q, step)
    ensures var n := Apply(q, step);
            && q.last <= n.last
            && match step
               case Outside(a) => a.AddTimer? && BecomesFirst(q, a.e) ==> n.last == a.clock.second
               case Report(now) => n.last == now
               case Expire(now, _, clock) => now <= n.last && (n.entries != [] ==> n.last == clock.second)
  {
    if step.Expire? {
      ActsGoOn(Taken(q, step.now), step.acts, |step.acts|);
      RearmChangesEntriesOnly(Called(q, step.now, step.acts), Expired(q, step.now), step.now, |Expired(q, step.now)|);
    }
  }

  /** In no continuation with a clock that does not go back is the timer run. */
  ghost predicate NeverRunsForward(q: Timers, id: nat) {
    forall steps :: Runs(q, steps) && Forward(q, steps) ==> id !in RanIn(q, steps)
  }

  /** The timer was inserted, and is not in the set any more. */
  ghost predicate Gone(q: Timers, id: nat) {
    id in q.seen && !HasId(q.entries, id)
  }

  /** The descriptor is disarmed, and not about to be handled, although the timer is in the set and due, or due with the next tick. */
  ghost predicate Stuck(q: Timers, id: nat) {
    q.fd == Disarmed && !q.reported && exists x :: x in q.entries && x.id == id && x.time <= q.last + 1
  }

  /** A timer is never run again exactly when it was inserted and is out of the set, or the process has ended. */
  lemma NeverRunsIff(q: Timers, id: nat)
    requires Ok(q)
    ensures NeverRunsAgain(q, id) <==> q.fd == Refused || Gone(q, id)
  {
    if q.fd == Refused {
      forall steps | Runs(q, steps) ensures RanIn(q, steps) == [] {
      }
    } else if Gone(q, id) {
      forall steps | Runs(q, steps) ensures id !in RanIn(q, steps) {
        AbsentNeverRuns(q, steps, id);
      }
    } else {
      var steps := WayToRun(q, id);
    }
  }

  /** With a clock that does not go back there is one more case: a timer that is due and has lost the descriptor. */
  lemma NeverRunsForwardIff(q: Timers, id: nat)
    requires Ok(q)
    ensures NeverRunsForward(q, id) <==> q.fd == Refused || Gone(q, id) || Stuck(q, id)
  {
    if Stuck(q, id) {
      forall steps | Runs(q, steps) && Forward(q, steps) ensures id !in RanIn(q, steps) {
        StuckNeverRuns(q, steps, id);
      }
    } else if q.fd == Refused || Gone(q, id) {
      NeverRunsIff(q, id);
    } else {
      var steps := ForwardWayToRun(q, id);
    }
  }

  /** An armed descriptor is set for later than the reading it was set at. */
  lemma ArmsAheadOnly(expiration: int, clock: Readings)
    requires clock.first <= clock.second && Reset(expiration, clock).Armed?
    ensures clock.first < expiration
  {
  }

  lemma StuckStays(q: Timers, a: Action, id: nat)
    requires Ok(q) && Legal(q, a) && ForwardAct(q, a) && Stuck(q, id) && a != CancelTimer(id)
    ensures Stuck(Act(q, a), id) || Act(q, a).fd == Refused
  {
    ActOk(q, a);
    var x :| x in q.entries && x.id == id && x.time <= q.last + 1;
    assert x in Act(q, a).entries;
    assert q.entries[0].time <= x.time;
    if a.AddTimer? && BecomesFirst(q, a.e) && Reset(a.e.time, a.clock).Armed? {
      ArmsAheadOnly(a.e.time, a.clock);
      assert false;
    }
  }

  lemma {:induction false} StuckNeverRuns(q: Timers, steps: seq<Step>, id: nat)
    requires Ok(q) && Stuck(q, id) && Runs(q, steps) && Forward(q, steps)
    ensures id !in RanIn(q, steps)
    decreases |steps|
  {
    if steps != [] {
      var a := steps[0].a;
      var n := Act(q, a);
      ActOk(q, a);
      if a == CancelTimer(id) {
        assert Gone(n, id) by { EraseOk(q.entries, id); assert HasId(q.entries, id); }
        AbsentNeverRuns(n, steps[1..], id);
      } else {
        StuckStays(q, a, id);
        if Stuck(n, id) {
          StuckNeverRuns(n, steps[1..], id);
        }
      }
    }
  }

  ghost predicate LeavesAlone(steps: seq<Step>, id: nat) {
    forall k :: 0 <= k < |steps| ==> steps[k] != Outside(CancelTimer(id))
  }

  /**
    A disarmed queue is dead: with a timer in the set that is due and the descriptor not set, nothing
    is run until that timer is cancelled. A timer added in front of it is in the past already.
   */
  lemma {:induction false} DisarmedIsDead(q: Timers, steps: seq<Step>, id: nat)
    requires Ok(q) && Stuck(q, id) && Runs(q, steps) && Forward(q, steps) && LeavesAlone(steps, id)
    ensures RanIn(q, steps) == []
    decreases |steps|
  {
    if steps != [] {
      var a := steps[0].a;
      ActOk(q, a);
      StuckStays(q, a, id);
      if Stuck(Act(q, a), id) {
        DisarmedIsDead(Act(q, a), steps[1..], id);
      }
    }
  }

  // The way to run the others: clear what is in front, put a timer there that sets the descriptor, let it expire.

  lemma Fresh(s: set<nat>) returns (id: nat)
    ensures id !in s
  {
    id := Above(s);
  }

  lemma Above(s: set<nat>) returns (bound: nat)
    ensures forall x :: x in s ==> x < bound
    decreases |s|
  {
    bound := 0;
    if s != {} {
      var x :| x in s;
      var rest := Above(s - {x});
      bound := if x < rest then rest else x + 1;
      assert forall y :: y in s ==> y == x || y in s - {x};
    }
  }

  function ReadableBy(q: Timers, time: int): (now: int)
    ensures time <= now && q.last <= now && (q.fd.Armed? ==> q.fd.at <= now * NS_PER_TICK)
  {
    var a := if time < q.last then q.last else time;
    if q.fd.Armed? && a < q.fd.at then (if q.fd.at < 0 then 0 else q.fd.at) else if a < 0 then 0 else a
  }

  lemma ExpireRuns(q: Timers, i: nat) returns (steps: seq<Step>)
    requires Ok(q) && q.fd != Refused && (q.fd.Armed? || q.reported) && i < |q.entries|
    ensures Runs(q, steps) && Forward(q, steps) && q.entries[i].id in RanIn(q, steps)
  {
    if q.reported {
      steps := HandleRuns(q, i);
    } else {
      var report := Report(ReadableBy(q, q.entries[i].time));
      var rest := HandleRuns(Apply(q, report), i);
      steps := [report] + rest;
      assert steps[0] == report && steps[1..] == rest;
    }
  }

  lemma HandleRuns(q: Timers, i: nat) returns (steps: seq<Step>)
    requires Ok(q) && q.reported && q.fd != Refused && i < |q.entries|
    ensures Runs(q, steps) && Forward(q, steps) && q.entries[i].id in RanIn(q, steps)
  {
    var now := ReadableBy(q, q.entries[i].time);
    var step := Expire(now, [], Readings(now, now));
    steps := [step];
    var n := Apply(q, step);
    assert steps[1..] == [] && Runs(n, []) && Forward(n, []) && RanIn(n, []) == [];
    assert ActAll(Taken(q, now), []) == Taken(q, now);
    DueTimerRuns(q, i, now);
  }

  lemma DueTimerRuns(q: Timers, i: nat, now: int)
    requires Ok(q) && i < |q.entries| && q.entries[i].time <= now
    ensures q.entries[i].id in IdsOf(Expired(q, now))
  {
    TakenOk(q, now);
    var k :| 0 <= k < |Expired(q, now)| && Expired(q, now)[k] == q.entries[i];
    assert IdsOf(Expired(q, now))[k] == q.entries[i].id;
  }

  /** One more step at the front of a way. */
  lemma StepFirst(q: Timers, a: Action, rest: seq<Step>, id: nat)
    requires Legal(q, a) && Runs(Act(q, a), rest) && id in RanIn(Act(q, a), rest)
    ensures var steps := [Outside(a)] + rest; Runs(q, steps) && id in RanIn(q, steps)
    ensures ForwardAct(q, a) && Forward(Act(q, a), rest) ==> Forward(q, [Outside(a)] + rest)
  {
    var steps := [Outside(a)] + rest;
    assert steps[0] == Outside(a) && steps[1..] == rest;
  }

  /** A timer put first that sets the descriptor: the one looked for, or another one in front of it. */
  lemma AddedRuns(q: Timers, id: nat, time: int, reading: int) returns (steps: seq<Step>)
    requires Ok(q) && q.fd != Refused && reading == time - 1
    requires BecomesFirst(q, Entry(time, 0, 0)) && (id in q.seen ==> HasId(q.entries, id))
    ensures Runs(q, steps) && id in RanIn(q, steps)
    ensures q.last <= reading ==> Forward(q, steps)
  {
    var added := id;
    if id in q.seen {
      added := Fresh(q.seen);
    }
    var a := AddTimer(Entry(time, added, 0), Readings(reading, reading));
    var n := Act(q, a);
    ActOk(q, a);
    assert Reset(time, a.clock).Armed?;
    assert HasId(n.entries, id) by {
      if id in q.seen {
        var i :| 0 <= i < |q.entries| && q.entries[i].id == id;
        assert q.entries[i] in n.entries;
      } else {
        assert a.e in n.entries;
      }
    }
    var i :| 0 <= i < |n.entries| && n.entries[i].id == id;
    var rest := ExpireRuns(n, i);
    StepFirst(q, a, rest, id);
    steps := [Outside(a)] + rest;
  }

  lemma WayToRun(q: Timers, id: nat) returns (steps: seq<Step>)
    requires Ok(q) && q.fd != Refused && !Gone(q, id)
    ensures Runs(q, steps) && id in RanIn(q, steps)
  {
    var time := if q.entries == [] then 0 else q.entries[0].time - 1;
    steps := AddedRuns(q, id, time, time - 1);
  }

  lemma {:induction false} ForwardWayToRun(q: Timers, id: nat) returns (steps: seq<Step>)
    requires Ok(q) && q.fd != Refused && !Gone(q, id) && !Stuck(q, id)
    ensures Runs(q, steps) && Forward(q, steps) && id in RanIn(q, steps)
    decreases |q.entries|
  {
    if (q.fd.Armed? || q.reported) && HasId(q.entries, id) {
      var i :| 0 <= i < |q.entries| && q.entries[i].id == id;
      steps := ExpireRuns(q, i);
    } else if q.entries == [] || q.entries[0].id == id {
      assert q.entries != [] ==> q.entries[0] in q.entries;
      steps := AddedRuns(q, id, q.last + 1, q.last);
    } else {
      var a := CancelTimer(q.entries[0].id);
      var n := Act(q, a);
      ActOk(q, a);
      EraseAt(q.entries, q.entries[0].id, 0);
      assert HasId(q.entries, q.entries[0].id);
      FrontGone(q, id);
      var rest := ForwardWayToRun(n, id);
      StepFirst(q, a, rest, id);
      steps := [Outside(a)] + rest;
    }
  }

  lemma FrontGone(q: Timers, id: nat)
    requires Ok(q) && q.fd != Refused && q.entries != [] && q.entries[0].id != id
    ensures var n := Act(q, CancelTimer(q.entries[0].id));
            && (Gone(n, id) ==> Gone(q, id)) && (Stuck(n, id) ==> Stuck(q, id))
  {
    var first := q.entries[0];
    ActOk(q, CancelTimer(first.id));
    assert HasId(q.entries, first.id);
    var n := Act(q, CancelTimer(first.id));
    if HasId(q.entries, id) {
      var i :| 0 <= i < |q.entries| && q.entries[i].id == id;
      assert q.entries[i] in n.entries;
    }
  }

  // ---------------------------------------------------------------------------------------------
  // Cancellation, over every continuation
  // ---------------------------------------------------------------------------------------------

  ghost predicate Cancels(step: Step, id: nat) {
    match step
    case Outside(a) => a == CancelTimer(id)
    case Report(_) => false
    case Expire(_, acts, _) => Cancelled(acts, id)
  }

  /** The timer had been inserted when it was cancelled. */
  ghost predicate InTimeToCancel(q: Timers, step: Step, id: nat) {
    match step
    case Outside(a) => id in q.seen
    case Report(_) => false
    case Expire(now, acts, _) => TakesEffect(Taken(q, now), acts, id)
  }

  /** The one way back: a callback cancels a repeating timer of its own round, and the flag is down. */
  ghost predicate PutsBack(q: Timers, step: Step, id: nat) {
    step.Expire? && q.flag == AsWritten && RunsAndRepeats(q, step.now, id) && id !in q.cancelled
  }

  /**
    A cancellation, from outside or from a callback, is final over every run exactly when it comes
    after the insertion and is not that case, or the process ends with the step.
   */
  lemma CancelIsFinalIff(q: Timers, step: Step, id: nat)
    requires Ok(q) && Enabled(q, step) && Cancels(step, id)
    ensures var n := Apply(q, step);
            NeverRunsAgain(n, id) <==> n.fd == Refused || (InTimeToCancel(q, step, id) && !PutsBack(q, step, id))
  {
    CancelledIsGoneIff(q, step, id);
    NeverRunsIff(Apply(q, step), id);
  }

  /** With a clock that does not go back also a timer put back never runs if it is due when the descriptor is set. */
  lemma CancelIsFinalForwardIff(q: Timers, step: Step, id: nat)
    requires Ok(q) && Enabled(q, step) && Cancels(step, id)
    ensures var n := Apply(q, step);
            NeverRunsForward(n, id) <==>
              n.fd == Refused || (InTimeToCancel(q, step, id) && !PutsBack(q, step, id)) || Stuck(n, id)
  {
    CancelledIsGoneIff(q, step, id);
    NeverRunsForwardIff(Apply(q, step), id);
  }

  lemma CancelledIsGoneIff(q: Timers, step: Step, id: nat)
    requires Ok(q) && Enabled(q, step) && Cancels(step, id)
    ensures Ok(Apply(q, step))
    ensures Gone(Apply(q, step), id) <==> InTimeToCancel(q, step, id) && !PutsBack(q, step, id)
  {
    match step
    case Outside(a) =>
      ActOk(q, a);
      EraseOk(q.entries, id);
    case Report(_) =>
    case Expire(now, acts, clock) =>
      RoundRunsDueAndLeavesRest(q, now, acts, clock);
      if TakesEffect(Taken(q, now), acts, id) {
        CancelFinalIff(q, now, acts, clock, id);
      } else {
        EarlyCancelIsLost(q, now, acts, clock, id);
      }
  }

  /** What a callback cancels before it has been inserted is in the set after the round, if it was inserted by then. */
  lemma EarlyCancelIsLost(q: Timers, now: int, acts: seq<Action>, clock: Readings, id: nat)
    requires Ok(q) && AllLegal(Taken(q, now), acts)
    requires Cancelled(acts, id) && !TakesEffect(Taken(q, now), acts, id)
    ensures !Gone(RoundOf(q, now, acts, clock), id)
  {
    RoundSees(q, now, acts, clock);
    if id in ActAll(Taken(q, now), acts).seen {
      var k := LostCancel(Taken(q, now), acts, id);
      RoundRunsDueAndLeavesRest(q, now, acts, clock);
      assert acts[k].e in RoundOf(q, now, acts, clock).entries;
    }
  }

  lemma LostCancel(q: Timers, acts: seq<Action>, id: nat) returns (k: nat)
    requires Cancelled(acts, id) && !TakesEffect(q, acts, id) && id in ActAll(q, acts).seen
    ensures k < |acts| && acts[k].AddTimer? && acts[k].e.id == id && Survives(q.entries, acts, |acts|, acts[k].e)
  {
    var j :| 0 <= j < |acts| && acts[j] == CancelTimer(id);
    SeenGrows(q, acts, 0, j);
    SeenCameIn(q, acts, |acts|, id);
    k :| 0 <= k < |acts| && acts[k].AddTimer? && acts[k].e.id == id;
    assert id in ActUpTo(q, acts, k + 1).seen;
    forall i | k < i < |acts| ensures acts[i] != CancelTimer(id) {
      SeenGrows(q, acts, k + 1, i);
    }
  }

  lemma RoundSees(q: Timers, now: int, acts: seq<Action>, clock: Readings)
    ensures RoundOf(q, now, acts, clock).seen == ActAll(Taken(q, now), acts).seen
  {
    RearmChangesEntriesOnly(Called(q, now, acts), Expired(q, now), now, |Expired(q, now)|);
  }

  lemma {:induction false} SeenCameIn(q: Timers, acts: seq<Action>, n: nat, id: nat)
    requires n <= |acts| && id in ActUpTo(q, acts, n).seen
    ensures id in q.seen || exists k :: 0 <= k < n && acts[k].AddTimer? && acts[k].e.id == id
  {
    if n > 0 && id in ActUpTo(q, acts, n - 1).seen {
      SeenCameIn(q, acts, n - 1, id);
    }
  }

  /**
    The timer of SelfCancelGap again, in a callback that takes as long as the interval: it is back in
    the set, but due when the descriptor is set, which disarms it.
   */
  lemma LongCallbackGap()
    ensures var q := Act(Start(AsWritten), AddTimer(Entry(5, 1, 10), Readings(0, 0)));
            var r := RoundOf(q, 5, [CancelTimer(1)], Readings(15, 15));
            r.entries == [Entry(15, 1, 10)] && r.fd == Disarmed && NeverRunsForward(r, 1) && !NeverRunsAgain(r, 1)
  {
    SelfCancelRound(Readings(15, 15));
    var q := Act(Start(AsWritten), AddTimer(Entry(5, 1, 10), Readings(0, 0)));
    DueButDisarmed(RoundOf(q, 5, [CancelTimer(1)], Readings(15, 15)), Entry(15, 1, 10));
  }

  lemma DueButDisarmed(r: Timers, e: Entry)
    requires Ok(r) && r.entries == [e] && r.fd == Disarmed && !r.reported && e.time <= r.last
    ensures NeverRunsForward(r, e.id) && !NeverRunsAgain(r, e.id)
  {
    assert r.entries[0] in r.entries;
    assert HasId(r.entries, e.id);
    NeverRunsIff(r, e.id);
    NeverRunsForwardIff(r, e.id);
  }

  // ---------------------------------------------------------------------------------------------
  // The comparison as written, over every run
  // ---------------------------------------------------------------------------------------------

  function Mis(q: Timers): Timers {
    q.(order := AsWritten)
  }

  ghost predicate ActFits(q: Timers, a: Action) {
    a.AddTimer? ==> Fits(q.entries, a.e)
  }

  /** Each timer fits when it is inserted, by a callback or by reset. */
  ghost predicate StepFits(q: Timers, step: Step) {
    match step
    case Outside(a) => ActFits(q, a)
    case Report(_) => true
    case Expire(now, acts, clock) =>
      && ActsFit(Taken(q, now), acts, |acts|)
      && RearmFits(Called(q, now, acts), Expired(q, now), now, |Expired(q, now)|)
  }

  ghost predicate ActsFit(q: Timers, acts: seq<Action>, n: nat)
    requires n <= |acts|
  {
    n == 0 || (ActsFit(q, acts, n - 1) && ActFits(ActUpTo(q, acts, n - 1), acts[n - 1]))
  }

  ghost predicate RearmFits(q: Timers, expired: seq<Entry>, now: int, n: nat)
    requires n <= |expired|
  {
    n == 0 || (RearmFits(q, expired, now, n - 1)
               && Fits(RearmUpTo(q, expired, now, n - 1).entries, expired[n - 1].Restarted(now)))
  }

  ghost predicate RunFits(q: Timers, steps: seq<Step>)
    decreases |steps|
  {
    steps != [] ==> StepFits(q, steps[0]) && RunFits(Apply(q, steps[0]), steps[1..])
  }

  lemma ActSame(q: Timers, a: Action)
    requires Ok(q) && Legal(q, a) && ActFits(q, a)
    ensures Act(Mis(q), a) == Mis(Act(q, a)) && Legal(Mis(q), a)
  {
    if a.AddTimer? {
      assert !HasId(q.entries, a.e.id);
      InsertSameIff(q.entries, a.e);
    }
  }

  lemma {:induction false} ActUpToSame(q: Timers, acts: seq<Action>, n: nat)
    requires n <= |acts| && Ok(q) && LegalUpTo(q, acts, n) && ActsFit(q, acts, n)
    ensures ActUpTo(Mis(q), acts, n) == Mis(ActUpTo(q, acts, n)) && LegalUpTo(Mis(q), acts, n)
  {
    if n > 0 {
      ActUpToSame(q, acts, n - 1);
      ActUpToOk(q, acts, n - 1);
      ActSame(ActUpTo(q, acts, n - 1), acts[n - 1]);
    }
  }

  lemma {:induction false} RearmSame(q: Timers, expired: seq<Entry>, now: int, n: nat)
    requires n <= |expired| && Ok(q) && DistinctIds(expired)
    requires forall d :: d in expired ==> !HasId(q.entries, d.id) && d.id in q.seen
    requires RearmFits(q, expired, now, n)
    ensures RearmUpTo(Mis(q), expired, now, n) == Mis(RearmUpTo(q, expired, now, n))
  {
    if n > 0 {
      RearmSame(q, expired, now, n - 1);
      RearmNextFits(q, expired, now, n - 1);
    }
  }

  lemma RearmNextFits(q: Timers, expired: seq<Entry>, now: int, n: nat)
    requires n < |expired| && Ok(q) && DistinctIds(expired)
    requires forall d :: d in expired ==> !HasId(q.entries, d.id) && d.id in q.seen
    requires Fits(RearmUpTo(q, expired, now, n).entries, expired[n].Restarted(now))
    ensures var r, e := RearmUpTo(q, expired, now, n), expired[n].Restarted(now);
            r.order == Intended && Put(AsWritten, r.entries, e) == Put(Intended, r.entries, e)
  {
    RearmOk(q, expired, now, n);
    NotYetBack(q, expired, now, n);
    InsertSameIff(RearmUpTo(q, expired, now, n).entries, expired[n].Restarted(now));
  }

  lemma StepSame(q: Timers, step: Step)
    requires Ok(q) && Enabled(q, step) && StepFits(q, step)
    ensures Enabled(Mis(q), step) && Apply(Mis(q), step) == Mis(Apply(q, step)) && RanBy(Mis(q), step) == RanBy(q, step)
  {
    match step
    case Outside(a) => ActSame(q, a);
    case Report(_) =>
    case Expire(now, acts, clock) =>
      assert Taken(Mis(q), now) == Mis(Taken(q, now));
      TakenOk(q, now);
      ActUpToSame(Taken(q, now), acts, |acts|);
      CalledOk(q, now, acts);
      RearmSame(Called(q, now, acts), Expired(q, now), now, |Expired(q, now)|);
  }

  /**
    Over every run: as long as each timer, when it is inserted, has a larger id than those that belong
    in front of it, the queue with the comparison as written goes through the same states.
   */
  lemma {:induction false} OrderMakesNoDifference(q: Timers, steps: seq<Step>)
    requires Ok(q) && Runs(q, steps) && RunFits(q, steps)
    ensures Runs(Mis(q), steps) && After(Mis(q), steps) == Mis(After(q, steps)) && RanIn(Mis(q), steps) == RanIn(q, steps)
    decreases |steps|
  {
    if steps != [] {
      StepSame(q, steps[0]);
      StepKeepsOk(q, steps[0]);
      OrderMakesNoDifference(Apply(q, steps[0]), steps[1..]);
    }
  }

  lemma StepKeepsOk(q: Timers, step: Step)
    requires Ok(q) && Enabled(q, step)
    ensures Ok(Apply(q, step))
  {
    match step
    case Outside(a) => ActOk(q, a);
    case Report(_) =>
    case Expire(now, acts, clock) => RoundRunsDueAndLeavesRest(q, now, acts, clock);
  }

  /** A repeating timer goes back in front of a younger one that is due earlier, which is then missed when it is due. */
  lemma MissedGap()
    ensures var q := Start(Intended).(entries := [Entry(1, 1, 2), Entry(2, 2, 0)], seen := {1, 2});
            var r := RoundOf(Mis(q), 1, [], Readings(1, 1));
            Ok(q) && r.entries == [Entry(3, 1, 2), Entry(2, 2, 0)] && Expired(r, 2) == []
  {
    var d, e := Entry(1, 1, 2), Entry(2, 2, 0);
    var q := Mis(Start(Intended).(entries := [d, e], seen := {1, 2}));
    DueCountIs([d, e], 1, 1);
    assert Expired(q, 1) == [d] && NotDue(q, 1) == [e];
    var called := Called(q, 1, []);
    assert ActUpTo(Taken(q, 1), [], 0) == Taken(q, 1);
    assert called.entries == [e] && called.cancelled == {} && called.order == AsWritten;
    assert InsertAsWritten([e], Entry(3, 1, 2)) == [Entry(3, 1, 2), e];
    assert RearmUpTo(called, [d], 1, 0) == called;
    assert Rearm(called, [d], 1).entries == [Entry(3, 1, 2), e];
  }

  // ---------------------------------------------------------------------------------------------
  // Arming
  // ---------------------------------------------------------------------------------------------

  /** The descriptor will wake the loop for the earliest timer. */
  predicate ArmedInTime(q: Timers) {
    q.entries != [] ==> InTime(q.fd, q.entries[0].time)
  }

  /** An action outside HandleRead keeps that exactly when the clock agrees with the timer it puts first, if any. */
  lemma OutsideArmsIff(q: Timers, a: Action)
    requires Ok(q) && ArmedInTime(q) && Legal(q, a)
    ensures ArmedInTime(Act(q, a)) <==> (a.AddTimer? && BecomesFirst(q, a.e) ==> Agree(a.clock, a.e.time))
  {
    match a
    case AddTimer(e, clock) =>
      assert !HasId(q.entries, e.id);
      InsertOk(q.entries, e);
      ResetIff(e.time, clock);
    case CancelTimer(id) =>
      EraseOk(q.entries, id);
      assert forall x :: x in q.entries ==> q.entries[0].time <= x.time;
      assert Act(q, a).entries != [] ==> Act(q, a).entries[0] in Act(q, a).entries;
  }

  /** HandleRead leaves it armed in time exactly when the clock read at the end agrees with the first timer left. */
  lemma RoundArmsIff(q: Timers, now: int, acts: seq<Action>, clock: Readings)
    ensures var r := RoundOf(q, now, acts, clock);
            ArmedInTime(r) <==> r.entries == [] || Agree(clock, r.entries[0].time)
  {
    var r := RoundOf(q, now, acts, clock);
    if r.entries != [] {
      ResetIff(r.entries[0].time, clock);
    }
  }

  /** The clock agrees with the timer that the step sets the descriptor for, if it does. */
  ghost predicate ClockAgrees(q: Timers, step: Step) {
    match step
    case Outside(a) => a.AddTimer? && BecomesFirst(q, a.e) ==> Agree(a.clock, a.e.time)
    case Report(_) => true
    case Expire(_, _, clock) => Apply(q, step).entries != [] ==> Agree(clock, Apply(q, step).entries[0].time)
  }

  ghost predicate ClocksAgree(q: Timers, steps: seq<Step>)
    decreases |steps|
  {
    steps != [] ==> ClockAgrees(q, steps[0]) && ClocksAgree(Apply(q, steps[0]), steps[1..])
  }

  /** In every state of the run, outside HandleRead. */
  ghost predicate AlwaysArmed(q: Timers, steps: seq<Step>)
    decreases |steps|
  {
    ArmedInTime(q) && (steps != [] ==> AlwaysArmed(Apply(q, steps[0]), steps[1..]))
  }

  lemma StepArmsIff(q: Timers, step: Step)
    requires Ok(q) && ArmedInTime(q) && Enabled(q, step)
    ensures Ok(Apply(q, step)) && (ArmedInTime(Apply(q, step)) <==> ClockAgrees(q, step))
  {
    match step
    case Outside(a) =>
      ActOk(q, a);
      OutsideArmsIff(q, a);
    case Report(_) =>
    case Expire(now, acts, clock) =>
      RoundRunsDueAndLeavesRest(q, now, acts, clock);
      RoundArmsIff(q, now, acts, clock);
  }

  lemma {:induction false} RunArmsIff(q: Timers, steps: seq<Step>)
    requires Ok(q) && ArmedInTime(q) && Runs(q, steps)
    ensures AlwaysArmed(q, steps) <==> ClocksAgree(q, steps)
    decreases |steps|
  {
    if steps != [] {
      var n := Apply(q, steps[0]);
      StepArmsIff(q, steps[0]);
      if ArmedInTime(n) {
        RunArmsIff(n, steps[1..]);
      } else {
        assert !AlwaysArmed(n, steps[1..]);
      }
    }
  }

  /**
    Over every run from the constructor on: the descriptor is armed for the first timer all the
    time exactly when, each time it is set, the readings of the clock agree with the timer it is set for.
   */
  lemma ArmedFromStartIff(flag: Choice, steps: seq<Step>)
    requires Runs(Start(flag), steps)
    ensures AlwaysArmed(Start(flag), steps) <==> ClocksAgree(Start(flag), steps)
  {
    RunArmsIff(Start(flag), steps);
  }

  // ---------------------------------------------------------------------------------------------
  // The code
  // ---------------------------------------------------------------------------------------------

  /** TotalNum_: the last id handed out. */
  class TimerIds {
    var total: nat

    constructor ()
      ensures total == 0
    {
      total := 0;
    }
  }

  /** Every id in use was handed out. */
  ghost predicate HandedOut(q: Timers, total: nat) {
    forall id :: id in q.seen ==> id <= total
  }

  /** So the next timer made may always be added, and that stays so. */
  lemma NextIdIsLegal(q: Timers, total: nat, e: Entry, clock: Readings)
    requires HandedOut(q, total) && e.id == total + 1
    ensures e.id !in q.seen && HandedOut(Act(q, AddTimer(e, clock)), e.id)
  {
  }

  /** A timer, shared by the set, the vector of expired timers and whoever else holds it. */
  class Timer {
    var expiration: int
    const interval: int
    const id: nat

    constructor (ids: TimerIds, countDown: int, interval: int)
      modifies ids
      ensures expiration == countDown && this.interval == interval
      ensures old(ids.total) < id == ids.total
    {
      ids.total := ids.total + 1;
      expiration, this.interval, id := countDown, interval, ids.total;
    }

    ghost function Value(): Entry
      reads this
    {
      Entry(expiration, id, interval)
    }

    method Restart(now: int)
      modifies this
      ensures interval > 0 ==> Value() == old(Value()).Restarted(now) && expiration == now + interval
      ensures interval <= 0 ==> expiration == 0
    {
      expiration := if interval > 0 then now + interval else 0;
    }
  }

  datatype ExpiredTimer = ExpiredTimer(timestamp: int, timer: Timer) {
    function Key(): Entry {
      Entry(timestamp, timer.id, timer.interval)
    }
  }

  /** What a callback calls on the queue. */
  datatype Call = CallAdd(timer: Timer, clock: Readings) | CallCancel(id: nat)

  lemma FirstAndRest(s: seq<Entry>, i: nat)
    requires 0 < i <= |s|
    ensures s == [s[0]] + s[1..] && s[..i] == [s[0]] + s[1..][..i - 1] && s[i..] == s[1..][i - 1..]
  {
  }

  lemma {:induction false} InsertAt(s: seq<Entry>, e: Entry, i: nat)
    requires i <= |s| && (forall j :: 0 <= j < i ==> Less(s[j], e)) && (i < |s| ==> !Less(s[i], e))
    ensures Insert(s, e) == if i == |s| || Less(e, s[i]) then s[..i] + [e] + s[i..] else s
    decreases i
  {
    if i == 0 {
      assert s[..i] + [e] + s[i..] == [e] + s;
    } else {
      var rest := s[1..];
      InsertAt(rest, e, i - 1);
      assert Less(s[0], e) && !Less(e, s[0]);
      assert Insert(s, e) == [s[0]] + Insert(rest, e);
      assert i < |s| ==> rest[i - 1] == s[i];
      FirstAndRest(s, i);
      assert [s[0]] + (rest[..i - 1] + [e] + rest[i - 1..]) == s[..i] + [e] + s[i..];
    }
  }

  lemma {:induction false} EraseAt(s: seq<Entry>, id: nat, i: nat)
    requires i < |s| && s[i].id == id && forall j :: 0 <= j < i ==> s[j].id != id
    ensures EraseId(s, id) == s[..i] + s[i + 1..]
    decreases i
  {
    if i > 0 {
      EraseAt(s[1..], id, i - 1);
      assert s[..i] == [s[0]] + s[1..][..i - 1] && s[i + 1..] == s[1..][i..];
    }
  }

  lemma {:induction false} DueCountIs(s: seq<Entry>, now: int, i: nat)
    requires i <= |s| && (forall j :: 0 <= j < i ==> s[j].time <= now) && (i < |s| ==> s[i].time > now)
    ensures DueCount(s, now) == i
    decreases i
  {
  }

  lemma {:induction false} LegalEarlier(q: Timers, acts: seq<Action>, k: nat, n: nat)
    requires k <= n <= |acts| && LegalUpTo(q, acts, n)
    ensures LegalUpTo(q, acts, k) && (k < n ==> Legal(ActUpTo(q, acts, k), acts[k]))
    decreases n
  {
    if k < n - 1 {
      LegalEarlier(q, acts, k, n - 1);
    }
  }

  /** Ok, entry by entry: the form in which the class carries it. */
  ghost predicate SoundUpTo(s: seq<Entry>, seen: set<nat>, n: nat)
    requires n <= |s|
  {
    n == 0 ||
    (SoundUpTo(s, seen, n - 1) && s[n - 1].id in seen
     && forall j :: 0 <= j < n - 1 ==> Less(s[j], s[n - 1]) && s[j].id != s[n - 1].id)
  }

  ghost predicate SoundSet(s: seq<Entry>, seen: set<nat>) {
    SoundUpTo(s, seen, |s|)
  }

  ghost predicate Sound(q: Timers) {
    SoundSet(q.entries, q.seen) && q.order == Intended
  }

  lemma {:induction false} SoundUpToIff(s: seq<Entry>, seen: set<nat>, n: nat)
    requires n <= |s|
    ensures SoundUpTo(s, seen, n) <==> WellFormed(s[..n]) && AllSeen(s[..n], seen)
  {
    if n > 0 {
      SoundUpToIff(s, seen, n - 1);
      assert s[..n] == s[..n - 1] + [s[n - 1]];
    }
  }

  lemma SoundSetIff(s: seq<Entry>, seen: set<nat>)
    ensures SoundSet(s, seen) <==> WellFormed(s) && AllSeen(s, seen)
  {
    SoundUpToIff(s, seen, |s|);
    assert s[..|s|] == s;
  }

  lemma InsertSound(s: seq<Entry>, seen: set<nat>, e: Entry, i: nat)
    requires SoundSet(s, seen) && !HasId(s, e.id)
    requires i <= |s| && (forall j :: 0 <= j < i ==> Less(s[j], e)) && (i < |s| ==> !Less(s[i], e))
    ensures Insert(s, e) == s[..i] + [e] + s[i..] && SoundSet(Insert(s, e), seen + {e.id})
  {
    SoundSetIff(s, seen);
    InsertAt(s, e, i);
    InsertOk(s, e);
    assert i < |s| ==> s[i].id != e.id;
    SoundSetIff(Insert(s, e), seen + {e.id});
  }

  lemma EraseSound(s: seq<Entry>, seen: set<nat>, id: nat, i: nat)
    requires SoundSet(s, seen)
    requires i < |s| && s[i].id == id && forall j :: 0 <= j < i ==> s[j].id != id
    ensures EraseId(s, id) == s[..i] + s[i + 1..] && SoundSet(EraseId(s, id), seen) && HasId(s, id)
  {
    SoundSetIff(s, seen);
    EraseAt(s, id, i);
    EraseOk(s, id);
    SoundSetIff(EraseId(s, id), seen);
  }

  lemma UnseenNotThere(s: seq<Entry>, seen: set<nat>, id: nat)
    requires SoundSet(s, seen) && id !in seen
    ensures !HasId(s, id)
  {
    SoundSetIff(s, seen);
    forall i | 0 <= i < |s| ensures s[i].id != id {
      assert s[i] in s;
    }
  }

  lemma SplitSound(s: seq<Entry>, seen: set<nat>, n: nat)
    requires SoundSet(s, seen) && n <= |s|
    ensures SoundSet(s[n..], seen) && DistinctIds(s[..n])
  {
    SoundSetIff(s, seen);
    SplitOk(s, n);
    SoundSetIff(s[n..], seen);
  }

  class TimerQueue {
    const flag: Choice
    var timers: seq<ExpiredTimer>
    var calling: bool
    var cancelled: set<nat>
    var fd: Timerfd
    /** The keys in the set, in order. */
    ghost var entries: seq<Entry>
    ghost var reported: bool
    ghost var last: int
    ghost var seen: set<nat>
    ghost var dead: set<nat>
    ghost var fired: seq<nat>

    static ghost function Keys(ts: seq<ExpiredTimer>): (ks: seq<Entry>)
      ensures |ks| == |ts| && forall i :: 0 <= i < |ks| ==> ks[i] == ts[i].Key()
    {
      seq(|ts|, i requires 0 <= i < |ts| => ts[i].Key())
    }

    ghost function State(): Timers
      reads this
    {
      Timers(Intended, flag, entries, calling, cancelled, fd, reported, last, seen, dead, fired)
    }

    /** Every key in the set is what its timer says now. */
    ghost predicate Valid()
      reads this, Held()
    {
      entries == Keys(timers) && Sound(State()) && forall t :: t in timers ==> t.timestamp == t.timer.expiration
    }

    static ghost function TimersOf(ts: seq<ExpiredTimer>): set<Timer> {
      set t | t in ts :: t.timer
    }

    /** The timers in the set. */
    ghost function Held(): set<Timer>
      reads this
    {
      TimersOf(timers)
    }

    constructor (flag: Choice)
      ensures Valid() && State() == Start(flag) && Held() == {}
      ensures entries == [] && !calling && cancelled == {} && fd == Disarmed && !reported
    {
      this.flag := flag;
      timers, calling, cancelled, fd := [], false, {}, Disarmed;
      entries, reported, last, seen, dead, fired := [], false, 0, {}, {}, [];
    }

    /** The place std::set::insert finds. */
    method FindPlace(e: Entry) returns (i: nat)
      ensures i <= |timers| && (forall j :: 0 <= j < i ==> Less(Keys(timers)[j], e))
      ensures i < |timers| ==> !Less(Keys(timers)[i], e)
    {
      i := 0;
      while i < |timers| && Less(timers[i].Key(), e)
        invariant i <= |timers| && forall j :: 0 <= j < i ==> Less(Keys(timers)[j], e)
      {
        i := i + 1;
      }
    }

    /** find_if by id. */
    method FindId(id: nat) returns (i: nat)
      ensures i <= |timers| && (forall j :: 0 <= j < i ==> Keys(timers)[j].id != id)
      ensures i < |timers| ==> Keys(timers)[i].id == id
    {
      i := 0;
      while i < |timers| && timers[i].timer.id != id
        invariant i <= |timers| && forall j :: 0 <= j < i ==> Keys(timers)[j].id != id
      {
        i := i + 1;
      }
    }

    /** find_if for the first timer that is not due. */
    method FindLater(now: int) returns (i: nat)
      ensures i == DueCount(Keys(timers), now)
    {
      i := 0;
      while i < |timers| && timers[i].timestamp <= now
        invariant i <= |timers| && forall j :: 0 <= j < i ==> Keys(timers)[j].time <= now
      {
        i := i + 1;
      }
      DueCountIs(Keys(timers), now, i);
    }

    static lemma KeysCut(ts: seq<ExpiredTimer>, i: nat)
      requires i <= |ts|
      ensures Keys(ts[..i]) == Keys(ts)[..i] && Keys(ts[i..]) == Keys(ts)[i..]
    {
    }

    static lemma KeysInsert(ts: seq<ExpiredTimer>, i: nat, item: ExpiredTimer)
      requires i <= |ts|
      ensures Keys(ts[..i] + [item] + ts[i..]) == Keys(ts)[..i] + [item.Key()] + Keys(ts)[i..]
    {
    }

    static lemma KeysErase(ts: seq<ExpiredTimer>, i: nat)
      requires i < |ts|
      ensures Keys(ts[..i] + ts[i + 1..]) == Keys(ts)[..i] + Keys(ts)[i + 1..]
    {
    }

    /** insert: true when the earliest expiration changed. */
    method InsertTimer(timer: Timer) returns (earliestChanged: bool)
      requires Valid() && !HasId(State().entries, timer.id)
      modifies this`timers, this`entries, this`seen
      ensures Valid()
      ensures State() == old(State()).(entries := Insert(old(State()).entries, timer.Value()), seen := old(seen) + {timer.id})
      ensures earliestChanged <==> BecomesFirst(old(State()), timer.Value())
      ensures Held() <= old(Held()) + {timer}
    {
      earliestChanged := timers == [] || timer.expiration < timers[0].timestamp;
      var item := ExpiredTimer(timer.expiration, timer);
      var i := FindPlace(item.Key());
      InsertSound(entries, seen, item.Key(), i);
      PlaceAt(i, item);
      seen := seen + {timer.id};
    }

    /** The insertion proper. */
    method PlaceAt(i: nat, item: ExpiredTimer)
      requires i <= |timers| && entries == Keys(timers)
      modifies this`timers, this`entries
      ensures entries == Keys(timers) == old(entries)[..i] + [item.Key()] + old(entries)[i..]
      ensures forall t :: t in timers ==> t in old(timers) || t == item
    {
      KeysInsert(timers, i, item);
      timers := timers[..i] + [item] + timers[i..];
      entries := Keys(timers);
    }

    method AddTimerInLoop(timer: Timer, clock: Readings)
      requires Valid() && Legal(State(), AddTimer(timer.Value(), clock))
      modifies this
      ensures Valid()
      ensures State() == Act(old(State()), AddTimer(timer.Value(), clock))
      ensures Held() <= old(Held()) + {timer}
    {
      UnseenNotThere(entries, seen, timer.id);
      var earliestChanged := InsertTimer(timer);
      if earliestChanged {
        fd := Reset(timer.expiration, clock);
        last := clock.second;
      }
    }

    method CancelTimerInLoop(id: nat)
      requires Valid()
      modifies this
      ensures Valid()
      ensures State() == Act(old(State()), CancelTimer(id))
      ensures Held() <= old(Held())
    {
      var i := FindId(id);
      if i < |timers| {
        EraseSound(entries, seen, id, i);
        DropAt(i);
      } else if calling {
        cancelled := cancelled + {id};
      }
      dead := Died(old(State()), id);
    }

    /** std::set::erase by iterator. */
    method DropAt(i: nat)
      requires i < |timers| && entries == Keys(timers)
      modifies this`timers, this`entries
      ensures entries == Keys(timers) == old(entries)[..i] + old(entries)[i + 1..]
      ensures forall t :: t in timers ==> t in old(timers)
    {
      KeysErase(timers, i);
      timers := timers[..i] + timers[i + 1..];
      entries := Keys(timers);
    }

    method GetExpiredTimer(now: int) returns (expired: seq<ExpiredTimer>)
      requires Valid()
      modifies this`timers, this`entries
      ensures Valid() && forall t :: t in expired ==> t in old(timers)
      ensures Keys(expired) == Expired(old(State()), now)
      ensures State() == old(State()).(entries := NotDue(old(State()), now))
      ensures Held() <= old(Held())
    {
      var end := FindLater(now);
      SplitSound(entries, seen, end);
      expired := CutAt(end);
    }

    /** The copy of the expired timers and their erasure. */
    method CutAt(end: nat) returns (expired: seq<ExpiredTimer>)
      requires Valid() && end <= |timers| && SoundSet(entries[end..], seen)
      modifies this`timers, this`entries
      ensures Valid() && Keys(expired) == old(entries)[..end] && entries == old(entries)[end..]
      ensures Held() <= old(Held())
      ensures forall t :: t in expired ==> t in old(timers)
    {
      KeysCut(timers, end);
      expired, timers := timers[..end], timers[end..];
      entries := Keys(timers);
    }

    lemma OutOfSet(timer: Timer)
      requires entries == Keys(timers) && !HasId(entries, timer.id)
      ensures forall t :: t in timers ==> t.timer != timer
    {
    }

    /** One turn of the loop in reset. */
    method Requeue(timer: Timer, now: int, ghost before: Timers, ghost after: Timers, ghost bound: set<Timer>)
      requires Held() <= bound && timer in bound && Valid() && State() == before && Requeues(before, timer.Value(), now, after)
      modifies this`timers, this`entries, this`seen, timer
      ensures Valid() && State() == after && Held() <= bound
    {
      OutOfSet(timer);
      if timer.interval > 0 && timer.id !in cancelled {
        timer.Restart(now);
        var changed := InsertTimer(timer);
        assert seen == before.seen;
      }
    }

    static ghost predicate Requeues(x: Timers, d: Entry, now: int, y: Timers) {
      && !HasId(x.entries, d.id) && d.id in x.seen
      && y == if d.Repeats() && d.id !in x.cancelled then x.(entries := Insert(x.entries, d.Restarted(now))) else x
    }

    /** The timers taken out: each with the key it had, none in the set, none twice. */
    ghost predicate InHand(expired: seq<ExpiredTimer>)
      reads this, TimersOf(expired)
    {
      && DistinctIds(Keys(expired))
      && forall i :: 0 <= i < |expired| ==>
           && expired[i].timestamp == expired[i].timer.expiration
           && expired[i].timer.id in seen
           && !HasId(State().entries, expired[i].timer.id)
    }

    /** The states between the turns of the loop in reset. */
    static ghost predicate RearmTrace(states: seq<Timers>, all: seq<Entry>, now: int) {
      |states| == |all| + 1 && forall i {:trigger all[i]} :: 0 <= i < |all| ==> Requeues(states[i], all[i], now, states[i + 1])
    }

    static lemma RearmTraceOf(q: Timers, all: seq<Entry>, now: int) returns (states: seq<Timers>)
      requires Sound(q) && DistinctIds(all)
      requires forall d :: d in all ==> !HasId(q.entries, d.id) && d.id in q.seen
      ensures RearmTrace(states, all, now) && states[0] == q && states[|all|] == Rearm(q, all, now)
    {
      SoundSetIff(q.entries, q.seen);
      states := seq(|all| + 1, i requires 0 <= i <= |all| => RearmUpTo(q, all, now, i));
      forall i | 0 <= i < |all| ensures Requeues(states[i], all[i], now, states[i + 1]) {
        RearmOk(q, all, now, i);
        assert all[i] in all;
        assert forall x :: x in states[i].entries ==> x.id != all[i].id;
      }
    }

    /** reset: the loop over the expired timers, and the descriptor. */
    method ResetTimers(expired: seq<ExpiredTimer>, now: int, clock: Readings)
      requires Valid() && InHand(expired)
      modifies this, TimersOf(expired)
      ensures Valid()
      ensures var r := Rearm(old(State()), Keys(expired), now);
              State() == Rearmed(r, clock)
      ensures Held() <= old(Held()) + TimersOf(expired)
    {
      RequeueAll(expired, now, Held() + TimersOf(expired));
      if timers != [] {
        fd := Reset(timers[0].timer.expiration, clock);
        last := clock.second;
      }
    }

    lemma NotLater(expired: seq<ExpiredTimer>, i: nat)
      requires i < |expired| && DistinctIds(Keys(expired))
      ensures forall j :: i < j < |expired| ==> expired[j].timer != expired[i].timer
    {
      assert forall j :: i < j < |expired| ==> Keys(expired)[i].id != Keys(expired)[j].id;
    }

    method RequeueAll(expired: seq<ExpiredTimer>, now: int, ghost bound: set<Timer>)
      requires Valid() && InHand(expired) && Held() <= bound && forall i :: 0 <= i < |expired| ==> expired[i].timer in bound
      modifies this`timers, this`entries, this`seen, TimersOf(expired)
      ensures Valid() && State() == Rearm(old(State()), Keys(expired), now) && Held() <= bound
    {
      ghost var all := Keys(expired);
      assert forall d :: d in all ==> !HasId(entries, d.id) && d.id in seen;
      ghost var states := RearmTraceOf(State(), all, now);
      for i := 0 to |expired|
        invariant Valid() && State() == states[i] && Held() <= bound
        invariant forall j :: i <= j < |expired| ==> expired[j].timestamp == expired[j].timer.expiration
      {
        assert all[i] == expired[i].Key() == expired[i].timer.Value();
        NotLater(expired, i);
        Requeue(expired[i].timer, now, states[i], states[i + 1], bound);
      }
    }

    /** The timers that the calls add. */
    static ghost function Given(calls: seq<Call>): set<Timer> {
      set c | c in calls && c.CallAdd? :: c.timer
    }

    /** The calls of the callbacks as actions on the abstract queue. */
    static ghost function ActionsOf(calls: seq<Call>): (acts: seq<Action>)
      reads set c | c in calls && c.CallAdd? :: c.timer
      ensures |acts| == |calls|
      ensures forall i :: 0 <= i < |calls| ==> acts[i] == ActionOf(calls[i])
    {
      if calls == [] then [] else ActionsOf(calls[..|calls| - 1]) + [ActionOf(calls[|calls| - 1])]
    }

    static ghost function ActionOf(c: Call): (a: Action)
      reads if c.CallAdd? then {c.timer} else {}
      ensures c.CallAdd? ==> a.AddTimer? && a.e == Entry(c.timer.expiration, c.timer.id, c.timer.interval) && a.clock == c.clock
      ensures c.CallCancel? ==> a == CancelTimer(c.id)
    {
      match c
      case CallAdd(timer, clock) => AddTimer(timer.Value(), clock)
      case CallCancel(id) => CancelTimer(id)
    }

    method Perform(c: Call)
      requires Valid() && Legal(State(), ActionOf(c))
      modifies this
      ensures Valid() && State() == Act(old(State()), ActionOf(c))
      ensures Held() <= old(Held()) + Given([c])
    {
      match c
      case CallAdd(timer, clock) => AddTimerInLoop(timer, clock);
      case CallCancel(id) => CancelTimerInLoop(id);
    }

    /** Callback i makes the calls from ends[i - 1] to ends[i]; together they make all of them. */
    static ghost predicate Shares(calls: seq<Call>, ends: seq<nat>, callbacks: nat) {
      && |ends| == callbacks + 1 && ends[0] == 0 && ends[callbacks] == |calls|
      && forall i, j :: 0 <= i <= j <= callbacks ==> ends[i] <= ends[j]
    }

    static ghost predicate Leads(x: Timers, a: Action, y: Timers) {
      Legal(x, a) && y == Act(x, a)
    }

    /** The states between the actions. */
    static ghost predicate Trace(states: seq<Timers>, acts: seq<Action>) {
      |states| == |acts| + 1 && forall k {:trigger acts[k]} :: 0 <= k < |acts| ==> Leads(states[k], acts[k], states[k + 1])
    }

    static lemma TraceOf(q: Timers, acts: seq<Action>) returns (states: seq<Timers>)
      requires AllLegal(q, acts)
      ensures Trace(states, acts) && states[0] == q && states[|acts|] == ActAll(q, acts)
    {
      states := seq(|acts| + 1, k requires 0 <= k <= |acts| => ActUpTo(q, acts, k));
      forall k | 0 <= k < |acts| ensures Leads(states[k], acts[k], states[k + 1]) {
        LegalEarlier(q, acts, k, |acts|);
      }
    }

    /** The loop that runs the expired timers, and the flag after it. */
    method RunCallbacks(expired: seq<ExpiredTimer>, calls: seq<Call>, ends: seq<nat>,
                        ghost acts: seq<Action>, ghost states: seq<Timers>, ghost all: set<Timer>)
      requires Valid() && acts == ActionsOf(calls) && Trace(states, acts) && State() == states[0]
      requires Shares(calls, ends, |expired|) && Held() <= all && Given(calls) <= all
      modifies this
      ensures Valid()
      ensures State() == states[|acts|].(calling := false, fired := states[0].fired + IdsOf(Keys(expired)))
      ensures Held() <= all
    {
      RunTimers(expired, calls, ends, acts, states, all);
      calling := false;
    }

    method RunTimers(expired: seq<ExpiredTimer>, calls: seq<Call>, ends: seq<nat>,
                     ghost acts: seq<Action>, ghost states: seq<Timers>, ghost all: set<Timer>)
      requires Valid() && acts == ActionsOf(calls) && Trace(states, acts) && State() == states[0]
      requires Shares(calls, ends, |expired|) && Held() <= all && Given(calls) <= all
      modifies this
      ensures Valid() && Held() <= all
      ensures State() == states[|acts|].(fired := states[0].fired + IdsOf(Keys(expired)))
    {
      ghost var xs := TurnsOf(states, ends, Keys(expired));
      for i := 0 to |expired|
        invariant ends[i] <= |calls| && Valid() && acts == ActionsOf(calls) && State() == xs[i] && Held() <= all
      {
        assert ends[i] <= ends[i + 1] <= ends[|expired|] && Keys(expired)[i].id == expired[i].timer.id;
        RunTimer(expired[i], calls, ends[i], ends[i + 1], acts, states, xs[i], xs[i + 1], all);
      }
    }

    /** One turn: the calls of one callback, and it has run. */
    static ghost predicate Turn(x: Timers, before: Timers, after: Timers, id: nat, y: Timers) {
      x == before.(fired := x.fired) && y == after.(fired := x.fired + [id])
    }

    static lemma TurnsOf(states: seq<Timers>, ends: seq<nat>, all: seq<Entry>) returns (xs: seq<Timers>)
      requires |ends| == |all| + 1 && forall i :: 0 <= i <= |all| ==> ends[i] < |states|
      requires |states| > 0 && states[ends[0]] == states[0]
      ensures |xs| == |all| + 1 && xs[0] == states[0]
      ensures xs[|all|] == states[ends[|all|]].(fired := states[0].fired + IdsOf(all))
      ensures forall i {:trigger all[i]} :: 0 <= i < |all| ==> Turn(xs[i], states[ends[i]], states[ends[i + 1]], all[i].id, xs[i + 1])
    {
      var ids, f := IdsOf(all), states[0].fired;
      xs := seq(|all| + 1, i requires 0 <= i <= |all| => states[ends[i]].(fired := f + ids[..i]));
      assert f + ids[..0] == f && ids[..|all|] == ids;
      forall i | 0 <= i < |all| ensures f + ids[..i + 1] == f + ids[..i] + [all[i].id] {
      }
    }

    /** What has run plays no part in what an action does. */
    static lemma ActApartFromFired(q: Timers, a: Action, f: seq<nat>)
      ensures Legal(q.(fired := f), a) == Legal(q, a) && Act(q.(fired := f), a) == Act(q, a).(fired := f)
    {
    }

    method RunTimer(t: ExpiredTimer, calls: seq<Call>, from: nat, to: nat,
                    ghost acts: seq<Action>, ghost states: seq<Timers>, ghost x: Timers, ghost y: Timers, ghost all: set<Timer>)
      requires Valid() && from <= to <= |calls| && acts == ActionsOf(calls) && Trace(states, acts)
      requires State() == x && Turn(x, states[from], states[to], t.timer.id, y) && Held() <= all && Given(calls) <= all
      modifies this
      ensures Valid() && State() == y && Held() <= all
    {
      MakeCalls(calls, from, to, acts, states, x.fired, all);
      fired := fired + [t.timer.id];
    }

    /** One callback: its calls one after the other. */
    method MakeCalls(calls: seq<Call>, from: nat, to: nat,
                     ghost acts: seq<Action>, ghost states: seq<Timers>, ghost f: seq<nat>, ghost all: set<Timer>)
      requires Valid() && from <= to <= |calls| && acts == ActionsOf(calls) && Trace(states, acts)
      requires State() == states[from].(fired := f) && Held() <= all && Given(calls) <= all
      modifies this
      ensures Valid() && State() == states[to].(fired := f) && Held() <= all
      decreases |calls| - from
    {
      if from < to {
        MakeCall(calls, from, states[from], acts[from], states[from + 1], f, all);
        MakeCalls(calls, from + 1, to, acts, states, f, all);
      }
    }

    static lemma OneGiven(calls: seq<Call>, k: nat)
      requires k < |calls|
      ensures Given([calls[k]]) <= Given(calls)
    {
    }

    method MakeCall(calls: seq<Call>, k: nat,
                    ghost before: Timers, ghost a: Action, ghost after: Timers, ghost f: seq<nat>, ghost all: set<Timer>)
      requires Valid() && k < |calls| && Held() <= all && Given(calls) <= all
      requires State() == before.(fired := f) && a == ActionOf(calls[k]) && Leads(before, a, after)
      modifies this
      ensures Valid() && State() == after.(fired := f) && Held() <= all
    {
      ActApartFromFired(before, a, f);
      OneGiven(calls, k);
      Perform(calls[k]);
    }

    /**
      HandleRead. The timers that callbacks add were made before. Timers already in hand keep their
      keys until reset, because nothing else restarts them.
     */
    method HandleRead(now: int, calls: seq<Call>, ends: seq<nat>, clock: Readings)
      requires Valid() && Shares(calls, ends, |Expired(State(), now)|)
      requires AllLegal(Taken(State(), now), ActionsOf(calls))
      modifies this, Held()
      ensures Valid()
      ensures State() == RoundOf(old(State()), now, old(ActionsOf(calls)), clock)
      ensures Held() <= old(Held()) + Given(calls)
    {
      ghost var q, acts := State(), ActionsOf(calls);
      ghost var states := TraceOf(Taken(q, now), acts);
      var expired := RunExpired(now, calls, ends, acts, states);
      ghost var called := State();
      StillInHand(q, now, acts, expired);
      ResetTimers(expired, now, clock);
      RoundInParts(q, now, acts, clock, called);
    }

    /** HandleRead up to reset. */
    method RunExpired(now: int, calls: seq<Call>, ends: seq<nat>, ghost acts: seq<Action>, ghost states: seq<Timers>)
      returns (expired: seq<ExpiredTimer>)
      requires Valid() && acts == ActionsOf(calls) && Trace(states, acts) && states[0] == Taken(State(), now)
      requires Shares(calls, ends, |Expired(State(), now)|)
      modifies this
      ensures Valid() && Keys(expired) == Expired(old(State()), now)
      ensures forall t :: t in expired ==> t in old(timers)
      ensures Held() <= old(Held()) + Given(calls)
      ensures State() == states[|acts|].(calling := false, fired := states[0].fired + IdsOf(Keys(expired)))
    {
      expired := TakeExpired(now);
      RunCallbacks(expired, calls, ends, acts, states, Held() + Given(calls));
    }

    static lemma RoundInParts(q: Timers, now: int, acts: seq<Action>, clock: Readings, called: Timers)
      requires called == Called(q, now, acts)
      ensures var r := Rearm(called, Expired(q, now), now);
              RoundOf(q, now, acts, clock) == Rearmed(r, clock)
    {
    }

    /** ReadFromTimerfd, at the time HandleRead starts with. */
    method ReadDescriptor(now: int)
      requires Valid()
      modifies this`fd, this`reported, this`last
      ensures Valid() && State() == old(State()).(fd := Disarmed, reported := false, last := now)
    {
      fd := Disarmed;
      reported, last := false, now;
    }

    /** That, GetExpiredTimer, and the flag as HandleRead then sets it. */
    method TakeExpired(now: int) returns (expired: seq<ExpiredTimer>)
      requires Valid()
      modifies this
      ensures Valid() && State() == Taken(old(State()), now) && Keys(expired) == Expired(old(State()), now)
      ensures (forall t :: t in expired ==> t in old(timers)) && Held() <= old(Held())
    {
      TakenInParts(State(), now);
      ReadDescriptor(now);
      expired := GetExpiredTimer(now);
      SetFlag();
    }

    static lemma TakenInParts(q: Timers, now: int)
      ensures var r := q.(fd := Disarmed, reported := false, last := now);
              && Expired(r, now) == Expired(q, now)
              && r.(entries := NotDue(r, now)).(calling := r.flag == Intended) == Taken(q, now)
    {
    }

    /** CallingExpiredTimers_ as HandleRead sets it before the callbacks. */
    method SetFlag()
      requires Valid()
      modifies this`calling
      ensures Valid() && State() == old(State()).(calling := flag == Intended)
    {
      calling := flag == Intended;
    }

    /** The poll reports the descriptor. */
    ghost method ReportDescriptor(now: int)
      requires Valid() && Enabled(State(), Report(now))
      modifies this`reported, this`last
      ensures Valid() && State() == Apply(old(State()), Report(now))
    {
      reported, last := true, now;
    }

    /** After the callbacks the timers taken out are still out, with their keys, and distinct. */
    lemma StillInHand(q: Timers, now: int, acts: seq<Action>, expired: seq<ExpiredTimer>)
      requires Sound(q) && AllLegal(Taken(q, now), acts)
      requires Keys(expired) == Expired(q, now) && forall t :: t in expired ==> t.timestamp == t.timer.expiration
      requires State().entries == ActAll(Taken(q, now), acts).entries && seen == ActAll(Taken(q, now), acts).seen
      ensures InHand(expired)
    {
      SoundSetIff(q.entries, q.seen);
      TakenOk(q, now);
      forall i | 0 <= i < |expired|
        ensures !HasId(State().entries, expired[i].timer.id) && expired[i].timer.id in seen
      {
        assert Keys(expired)[i] in Expired(q, now);
        ActUpToCancels(Taken(q, now), acts, |acts|, expired[i].timer.id);
      }
    }
  }
}
