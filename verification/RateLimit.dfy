/**
 The login rate limiter: a sliding window per address and a lockout per user. Instants and durations
 are in nanoseconds.
 */
module RateLimit {
  import opened Wrappers

  const SECOND: int := 1_000_000_000
  const IP_WINDOW: int := 60 * SECOND
  const IP_MAX: nat := 10
  const LOCK_WINDOW: int := 15 * 60 * SECOND
  const LOCK_MAX: int := 5

  /** `lockedUntil` is None for the zero time. */
  datatype LockState = LockState(failures: int, lockedUntil: Option<int>, lastSeen: int)

  datatype Limiter = Limiter(requests: map<string, seq<int>>, locks: map<string, LockState>)

  datatype Decision = Allowed | Denied(retryAfter: int)

  /** The timestamps still inside the window at now, in order. */
  function Recent(stamps: seq<int>, now: int): seq<int> {
    if stamps == [] then []
    else if stamps[0] > now - IP_WINDOW then [stamps[0]] + Recent(stamps[1..], now)
    else Recent(stamps[1..], now)
  }

  function Stamps(l: Limiter, ip: string): seq<int> {
    if ip in l.requests then l.requests[ip] else []
  }

  /** The fewest whole seconds, at least one, that cover a duration. */
  function RetrySeconds(remaining: int): (secs: int)
    ensures secs >= 1 && secs * SECOND >= remaining
    ensures secs > 1 ==> (secs - 1) * SECOND < remaining
  {
    var secs := (remaining + SECOND - 1) / SECOND;
    if secs < 1 then 1 else secs
  }

  function Decide(l: Limiter, ip: string, now: int): Decision {
    var recent := Recent(Stamps(l, ip), now);
    if |recent| >= IP_MAX then Denied(RetrySeconds(recent[0] + IP_WINDOW - now)) else Allowed
  }

  function AfterRequest(l: Limiter, ip: string, now: int): Limiter {
    var recent := Recent(Stamps(l, ip), now);
    l.(requests := l.requests[ip := if |recent| >= IP_MAX then recent else recent + [now]])
  }

  predicate Locked(state: LockState, now: int) {
    state.lockedUntil.Some? && now < state.lockedUntil.value
  }

  function AfterCleanup(l: Limiter, now: int): Limiter {
    Limiter(map ip | ip in l.requests && Recent(l.requests[ip], now) != [] :: Recent(l.requests[ip], now),
            map key | key in l.locks && (Locked(l.locks[key], now) || now - l.locks[key].lastSeen <= LOCK_WINDOW) :: l.locks[key])
  }

  /** A lock whose time is over starts counting afresh. */
  function Unlock(state: LockState): LockState {
    if state.lockedUntil.Some? then state.(failures := 0, lockedUntil := None) else state
  }

  function AfterFailure(l: Limiter, key: string, now: int): Limiter {
    var state := (if key in l.locks then l.locks[key] else LockState(0, None, now)).(lastSeen := now);
    if Locked(state, now) then l.(locks := l.locks[key := state])
    else
      var counted := Unlock(state).(failures := Unlock(state).failures + 1);
      l.(locks := l.locks[key := if counted.failures >= LOCK_MAX then counted.(lockedUntil := Some(now + LOCK_WINDOW)) else counted])
  }

  function AfterLockCheck(l: Limiter, key: string, now: int): Limiter {
    if key !in l.locks || Locked(l.locks[key], now) then l else l.(locks := l.locks[key := Unlock(l.locks[key])])
  }

  function AfterSuccess(l: Limiter, key: string): Limiter {
    l.(locks := l.locks - {key})
  }

  predicate LockedKey(l: Limiter, key: string, now: int) {
    key in l.locks && Locked(l.locks[key], now)
  }

  lemma {:induction false} RecentIsNotEmpty(stamps: seq<int>, now: int)
    ensures Recent(stamps, now) != [] <==> exists t :: t in stamps && t > now - IP_WINDOW
  {
    if stamps != [] {
      RecentIsNotEmpty(stamps[1..], now);
      assert stamps[0] in stamps && forall t :: t in stamps[1..] ==> t in stamps;
      if t :| t in stamps && t > now - IP_WINDOW {
        assert t == stamps[0] || t in stamps[1..];
      }
    }
  }

  class RateLimiter {
    var requests: map<string, seq<int>>
    var locks: map<string, LockState>

    constructor ()
      ensures State() == Limiter(map[], map[])
    {
      requests, locks := map[], map[];
    }

    ghost function State(): Limiter
      reads this
    {
      Limiter(requests, locks)
    }

    static method Prune(stamps: seq<int>, now: int) returns (recent: seq<int>)
      ensures recent == Recent(stamps, now)
    {
      recent := [];
      for i := 0 to |stamps|
        invariant Recent(stamps, now) == recent + Recent(stamps[i..], now)
      {
        if stamps[i] > now - IP_WINDOW {
          recent := recent + [stamps[i]];
        }
      }
    }

    method AllowIP(ip: string, now: int) returns (ok: bool, retryAfter: int)
      modifies this`requests
      ensures ok <==> Decide(old(State()), ip, now).Allowed?
      ensures retryAfter == if ok then 0 else Decide(old(State()), ip, now).retryAfter
      ensures State() == AfterRequest(old(State()), ip, now)
    {
      var recent := Prune(if ip in requests then requests[ip] else [], now);
      if |recent| >= IP_MAX {
        requests := requests[ip := recent];
        return false, RetrySeconds(recent[0] + IP_WINDOW - now);
      }
      requests := requests[ip := recent + [now]];
      return true, 0;
    }

    /** Forgets the requests of over a minute ago, and the failures of users who are not locked and have not
        been seen for a quarter of an hour. */
    method Cleanup(now: int)
      modifies this
      ensures State() == AfterCleanup(old(State()), now)
      ensures forall ip :: ip in requests <==> ip in old(requests) && exists t :: t in old(requests)[ip] && t > now - 60 * SECOND
      ensures forall key :: key in locks <==> key in old(locks) && (Locked(old(locks)[key], now) || now - old(locks)[key].lastSeen <= 900 * SECOND)
      ensures forall key :: key in locks ==> locks[key] == old(locks)[key]
    {
      var todo, kept := requests.Keys, map[];
      while todo != {}
        invariant todo <= requests.Keys && requests == old(requests) && locks == old(locks)
        invariant kept == map ip | ip in requests && ip !in todo && Recent(requests[ip], now) != [] :: Recent(requests[ip], now)
        decreases todo
      {
        var ip :| ip in todo;
        var recent := Prune(requests[ip], now);
        if recent != [] {
          kept := kept[ip := recent];
        }
        todo := todo - {ip};
      }
      requests := kept;
      forall ip | ip in old(requests)
        ensures Recent(old(requests)[ip], now) != [] <==> exists t :: t in old(requests)[ip] && t > now - 60 * SECOND
      {
        RecentIsNotEmpty(old(requests)[ip], now);
      }
      locks := map key | key in locks && (Locked(locks[key], now) || now - locks[key].lastSeen <= LOCK_WINDOW) :: locks[key];
    }

    method IsUserLocked(key: string, now: int) returns (locked: bool, retryAfter: int)
      modifies this`locks
      ensures locked == LockedKey(old(State()), key, now)
      ensures retryAfter == if locked then RetrySeconds(old(locks)[key].lockedUntil.value - now) else 0
      ensures State() == AfterLockCheck(old(State()), key, now)
      ensures !locked && key in locks ==> locks[key].lockedUntil.None? && (old(locks)[key].lockedUntil.Some? ==> locks[key].failures == 0)
    {
      if key !in locks {
        return false, 0;
      }
      if Locked(locks[key], now) {
        return true, RetrySeconds(locks[key].lockedUntil.value - now);
      }
      locks := locks[key := Unlock(locks[key])];
      return false, 0;
    }

    method RecordUserFailure(key: string, now: int) returns (locked: bool, retryAfter: int)
      modifies this`locks
      ensures locked == LockedKey(State(), key, now)
      ensures retryAfter == if locked then RetrySeconds(locks[key].lockedUntil.value - now) else 0
      ensures State() == AfterFailure(old(State()), key, now)
      ensures key in locks && locks[key].lastSeen == now
      ensures locked && !LockedKey(old(State()), key, now) ==> locks[key].lockedUntil == Some(now + 900 * SECOND)
    {
      var state := if key in locks then locks[key] else LockState(0, None, now);
      state := state.(lastSeen := now);
      if Locked(state, now) {
        locks := locks[key := state];
        return true, RetrySeconds(state.lockedUntil.value - now);
      }
      state := Unlock(state);
      state := state.(failures := state.failures + 1);
      locked, retryAfter := state.failures >= LOCK_MAX, 0;
      if locked {
        state := state.(lockedUntil := Some(now + LOCK_WINDOW));
        retryAfter := LOCK_WINDOW / SECOND;
      }
      locks := locks[key := state];
    }

    method RecordUserSuccess(key: string)
      modifies this`locks
      ensures State() == AfterSuccess(old(State()), key)
      ensures forall now :: !LockedKey(State(), key, now)
    {
      locks := locks - {key};
    }
  }

  // Runs.

  datatype Call = Request(ip: string) | Clean | Fail(key: string) | Check(key: string) | Succeed(key: string)

  datatype Event = Event(call: Call, at: int)

  function After(l: Limiter, e: Event): Limiter {
    match e.call
    case Request(ip) => AfterRequest(l, ip, e.at)
    case Clean => AfterCleanup(l, e.at)
    case Fail(key) => AfterFailure(l, key, e.at)
    case Check(key) => AfterLockCheck(l, key, e.at)
    case Succeed(key) => AfterSuccess(l, key)
  }

  function Final(l: Limiter, events: seq<Event>): Limiter
    decreases |events|
  {
    if events == [] then l else Final(After(l, events[0]), events[1..])
  }

  /** The answers given to requests, in order. */
  function Answers(l: Limiter, events: seq<Event>): seq<Decision>
    decreases |events|
  {
    if events == [] then []
    else
      var rest := Answers(After(l, events[0]), events[1..]);
      if events[0].call.Request? then [Decide(l, events[0].call.ip, events[0].at)] + rest else rest
  }

  ghost predicate InOrder(from: int, events: seq<Event>) {
    && (forall i :: 0 <= i < |events| ==> from <= events[i].at)
    && (forall i, j :: 0 <= i < j < |events| ==> events[i].at <= events[j].at)
  }

  function WithoutCleanups(events: seq<Event>): seq<Event> {
    if events == [] then []
    else if events[0].call.Clean? then WithoutCleanups(events[1..])
    else [events[0]] + WithoutCleanups(events[1..])
  }

  lemma {:induction false} RecentIdempotent(stamps: seq<int>, now: int, later: int)
    requires now <= later
    ensures Recent(Recent(stamps, now), later) == Recent(stamps, later)
  {
    if stamps != [] {
      RecentIdempotent(stamps[1..], now, later);
      var rest := Recent(stamps[1..], now);
      if stamps[0] > now - IP_WINDOW {
        assert ([stamps[0]] + rest)[1..] == rest;
      }
    }
  }

  lemma {:induction false} RecentConcat(a: seq<int>, b: seq<int>, now: int)
    ensures Recent(a + b, now) == Recent(a, now) + Recent(b, now)
  {
    if a == [] {
      assert a + b == b;
    } else {
      assert (a + b)[1..] == a[1..] + b;
      RecentConcat(a[1..], b, now);
    }
  }

  /** Two limiters that no later request can tell apart. */
  ghost predicate Alike(a: Limiter, b: Limiter, now: int) {
    forall ip, t :: now <= t ==> Recent(Stamps(a, ip), t) == Recent(Stamps(b, ip), t)
  }

  lemma CleanupAlike(l: Limiter, now: int)
    ensures Alike(AfterCleanup(l, now), l, now)
  {
    forall ip, t | now <= t
      ensures Recent(Stamps(AfterCleanup(l, now), ip), t) == Recent(Stamps(l, ip), t)
    {
      RecentIdempotent(Stamps(l, ip), now, t);
    }
  }

  lemma RequestAlike(a: Limiter, b: Limiter, from: int, ip: string, now: int)
    requires Alike(a, b, from) && from <= now
    ensures Decide(a, ip, now) == Decide(b, ip, now)
    ensures Alike(AfterRequest(a, ip, now), AfterRequest(b, ip, now), now)
  {
    assert Recent(Stamps(a, ip), now) == Recent(Stamps(b, ip), now);
    var a', b' := AfterRequest(a, ip, now), AfterRequest(b, ip, now);
    assert Stamps(a', ip) == Stamps(b', ip);
    forall other, t | now <= t
      ensures Recent(Stamps(a', other), t) == Recent(Stamps(b', other), t)
    {
      assert other != ip ==> Stamps(a', other) == Stamps(a, other) && Stamps(b', other) == Stamps(b, other);
    }
  }

  lemma StepAlike(a: Limiter, b: Limiter, from: int, e: Event)
    requires Alike(a, b, from) && from <= e.at
    ensures e.call.Request? ==> Decide(a, e.call.ip, e.at) == Decide(b, e.call.ip, e.at)
    ensures Alike(After(a, e), if e.call.Clean? then b else After(b, e), e.at)
  {
    match e.call
    case Request(ip) => RequestAlike(a, b, from, ip, e.at);
    case Clean => CleanupAlike(a, e.at);
    case _ =>
      forall ip, t | e.at <= t
        ensures Recent(Stamps(After(a, e), ip), t) == Recent(Stamps(After(b, e), ip), t)
      {
        assert Stamps(After(a, e), ip) == Stamps(a, ip) && Stamps(After(b, e), ip) == Stamps(b, ip);
      }
  }

  /** Cleanups, run at any time and any number of times, never change the answer to a request. */
  lemma {:induction false} CleanupsNeverShow(a: Limiter, b: Limiter, from: int, events: seq<Event>)
    requires InOrder(from, events) && Alike(a, b, from)
    ensures Answers(a, events) == Answers(b, WithoutCleanups(events))
    decreases |events|
  {
    hide After, Decide, Alike;
    if events != [] {
      var e, rest := events[0], events[1..];
      assert InOrder(e.at, rest);
      StepAlike(a, b, from, e);
      if e.call.Clean? {
        CleanupsNeverShow(After(a, e), b, e.at, rest);
      } else {
        CleanupsNeverShow(After(a, e), After(b, e), e.at, rest);
        var shown := WithoutCleanups(events);
        assert shown[0] == e && shown[1..] == WithoutCleanups(rest);
      }
    }
  }

  /** The instants at which requests of one address were allowed. */
  function AllowedTimes(l: Limiter, events: seq<Event>, ip: string): seq<int>
    decreases |events|
  {
    if events == [] then []
    else
      var e := events[0];
      var rest := AllowedTimes(After(l, e), events[1..], ip);
      if e.call == Request(ip) && Decide(l, ip, e.at).Allowed? then [e.at] + rest else rest
  }

  /** No more than ten instants of the list lie in one minute. */
  ghost predicate Spaced(times: seq<int>) {
    forall i :: 0 <= i && i + IP_MAX < |times| ==> times[i + IP_MAX] - times[i] >= IP_WINDOW
  }

  ghost predicate Sorted(times: seq<int>) {
    forall i, j :: 0 <= i < j < |times| ==> times[i] <= times[j]
  }

  /** What the limiter remembers of the allowed requests so far: a tail that lacks no recent one. */
  ghost predicate Remembers(past: seq<int>, stamps: seq<int>, now: int) {
    && Sorted(past) && Spaced(past)
    && (forall i :: 0 <= i < |past| ==> past[i] <= now)
    && |stamps| <= IP_MAX
    && |stamps| <= |past| && stamps == past[|past| - |stamps|..]
    && (forall i :: 0 <= i < |past| - |stamps| ==> past[i] <= now - IP_WINDOW)
  }

  lemma {:induction false} RecentOfSorted(stamps: seq<int>, now: int)
    requires Sorted(stamps)
    ensures var r := Recent(stamps, now);
            && |r| <= |stamps| && r == stamps[|stamps| - |r|..]
            && forall i :: 0 <= i < |stamps| - |r| ==> stamps[i] <= now - IP_WINDOW
    ensures forall i :: 0 <= i < |Recent(stamps, now)| ==> Recent(stamps, now)[i] > now - IP_WINDOW
  {
    if stamps != [] {
      RecentOfSorted(stamps[1..], now);
      var rest := Recent(stamps[1..], now);
      assert |rest| < |stamps| - 1 ==> stamps[1..][0] <= now - IP_WINDOW;
      assert |stamps| > 1 ==> stamps[0] <= stamps[1];
    }
  }

  lemma RemembersRecent(past: seq<int>, stamps: seq<int>, from: int, now: int)
    requires Remembers(past, stamps, from) && from <= now
    ensures Remembers(past, Recent(stamps, now), now)
  {
    RecentOfSorted(stamps, now);
  }

  lemma AllowedStaysSpaced(past: seq<int>, recent: seq<int>, now: int)
    requires Remembers(past, recent, now) && |recent| < IP_MAX
    ensures Remembers(past + [now], recent + [now], now)
  {
    var all := past + [now];
    forall i | 0 <= i && i + IP_MAX < |all|
      ensures all[i + IP_MAX] - all[i] >= IP_WINDOW
    {
      if i + IP_MAX == |past| {
        assert i < |past| - |recent|;
      }
    }
  }

  lemma StampsStep(l: Limiter, e: Event, ip: string)
    ensures var recent := Recent(Stamps(l, ip), e.at);
            if e.call == Request(ip) && |recent| < IP_MAX then Stamps(After(l, e), ip) == recent + [e.at]
            else Stamps(After(l, e), ip) == Stamps(l, ip) || Stamps(After(l, e), ip) == recent
  {
  }

  lemma RemembersLonger(past: seq<int>, stamps: seq<int>, from: int, now: int)
    requires Remembers(past, stamps, from) && from <= now
    ensures Remembers(past, stamps, now)
  {
  }

  lemma {:induction false} RunRemembers(l: Limiter, from: int, events: seq<Event>, ip: string, past: seq<int>, now: int)
    requires InOrder(from, events) && Remembers(past, Stamps(l, ip), from) && from <= now
    requires forall i :: 0 <= i < |events| ==> events[i].at <= now
    ensures Remembers(past + AllowedTimes(l, events, ip), Stamps(Final(l, events), ip), now)
    decreases |events|
  {
    hide After, Remembers, Stamps;
    if events == [] {
      RemembersLonger(past, Stamps(l, ip), from, now);
      assert past + [] == past;
    } else {
      var e, rest := events[0], events[1..];
      assert InOrder(e.at, rest);
      var recent := Recent(Stamps(l, ip), e.at);
      RemembersRecent(past, Stamps(l, ip), from, e.at);
      StampsStep(l, e, ip);
      if e.call == Request(ip) && |recent| < IP_MAX {
        AllowedStaysSpaced(past, recent, e.at);
        RunRemembers(After(l, e), e.at, rest, ip, past + [e.at], now);
        assert past + AllowedTimes(l, events, ip) == past + [e.at] + AllowedTimes(After(l, e), rest, ip);
      } else {
        RemembersLonger(past, Stamps(l, ip), from, e.at);
        RunRemembers(After(l, e), e.at, rest, ip, past, now);
      }
    }
  }

  const NEW: Limiter := Limiter(map[], map[])

  lemma FromNew(events: seq<Event>, ip: string, from: int, now: int)
    requires InOrder(from, events) && from <= now && forall i :: 0 <= i < |events| ==> events[i].at <= now
    ensures Remembers(AllowedTimes(NEW, events, ip), Stamps(Final(NEW, events), ip), now)
  {
    RunRemembers(NEW, from, events, ip, [], now);
    assert [] + AllowedTimes(NEW, events, ip) == AllowedTimes(NEW, events, ip);
  }

  /** Of the requests allowed to one address over any run, any eleven span at least a minute. */
  lemma ElevenSpanAMinute(events: seq<Event>, ip: string, from: int)
    requires InOrder(from, events)
    ensures var times := AllowedTimes(NEW, events, ip);
            forall i :: 0 <= i && i + 10 < |times| ==> times[i + 10] - times[i] >= 60 * SECOND
  {
    var now := if events == [] then from else events[|events| - 1].at;
    FromNew(events, ip, from, now);
  }

  /** The limit is ten to a minute, neither less nor more: an address is denied exactly if ten of its requests
      were allowed within the last minute. */
  lemma DeniedExactly(events: seq<Event>, ip: string, from: int, now: int)
    requires InOrder(from, events) && from <= now && forall i :: 0 <= i < |events| ==> events[i].at <= now
    ensures var past := AllowedTimes(NEW, events, ip);
            Decide(Final(NEW, events), ip, now).Denied? <==> |past| >= 10 && past[|past| - 10] > now - 60 * SECOND
  {
    var past, stamps := AllowedTimes(NEW, events, ip), Stamps(Final(NEW, events), ip);
    FromNew(events, ip, from, now);
    RecentOfSorted(stamps, now);
    var recent := Recent(stamps, now);
    assert recent == past[|past| - |recent|..];
    assert forall i :: 0 <= i < |past| - |recent| ==> past[i] <= now - IP_WINDOW by {
      assert forall i :: 0 <= i < |stamps| ==> stamps[i] == past[|past| - |stamps| + i];
    }
    if |past| >= 10 && |recent| >= 10 {
      assert past[|past| - 10] == recent[|recent| - 10];
    }
  }

  /** Other events leave what counts at a later instant alone. */
  lemma {:induction false} SilenceKeepsRecent(l: Limiter, from: int, events: seq<Event>, ip: string, t: int)
    requires InOrder(from, events) && forall i :: 0 <= i < |events| ==> events[i].at <= t && events[i].call != Request(ip)
    ensures Recent(Stamps(Final(l, events), ip), t) == Recent(Stamps(l, ip), t)
    decreases |events|
  {
    hide After, Stamps;
    if events != [] {
      assert InOrder(events[0].at, events[1..]);
      StampsStep(l, events[0], ip);
      RecentIdempotent(Stamps(l, ip), events[0].at, t);
      SilenceKeepsRecent(After(l, events[0]), events[0].at, events[1..], ip, t);
    }
  }

  /** Once the announced seconds have passed, too few of the remembered requests still count. */
  lemma DeniedRunsOut(past: seq<int>, l: Limiter, ip: string, now: int, t: int)
    requires Remembers(past, Stamps(l, ip), now) && Decide(l, ip, now).Denied?
    requires t >= now + Decide(l, ip, now).retryAfter * SECOND
    ensures Decide(AfterRequest(l, ip, now), ip, t).Allowed?
  {
    var recent := Recent(Stamps(l, ip), now);
    RecentOfSorted(Stamps(l, ip), now);
    hide Recent;
    assert t >= recent[0] + IP_WINDOW;
    RecentOfSorted(recent, t);
    assert Stamps(AfterRequest(l, ip, now), ip) == recent;
  }

  lemma StillAllowed(a: Limiter, b: Limiter, ip: string, t: int)
    requires Recent(Stamps(a, ip), t) == Recent(Stamps(b, ip), t)
    ensures Decide(a, ip, t) == Decide(b, ip, t)
  {
  }

  /** An address denied at now is allowed once the announced seconds have passed, whatever else
      happened in between, if it made no other request. */
  lemma RetryAfterIsEnough(events: seq<Event>, from: int, ip: string, now: int, between: seq<Event>, t: int)
    requires InOrder(from, events) && from <= now && forall i :: 0 <= i < |events| ==> events[i].at <= now
    requires Decide(Final(NEW, events), ip, now).Denied?
    requires t >= now + Decide(Final(NEW, events), ip, now).retryAfter * SECOND
    requires InOrder(now, between) && forall i :: 0 <= i < |between| ==> between[i].at <= t && between[i].call != Request(ip)
    ensures Decide(Final(AfterRequest(Final(NEW, events), ip, now), between), ip, t).Allowed?
  {
    hide Final, Recent, Remembers, Decide, AfterRequest, InOrder;
    var l := Final(NEW, events);
    FromNew(events, ip, from, now);
    DeniedRunsOut(AllowedTimes(NEW, events, ip), l, ip, now, t);
    SilenceKeepsRecent(AfterRequest(l, ip, now), now, between, ip, t);
    StillAllowed(Final(AfterRequest(l, ip, now), between), AfterRequest(l, ip, now), ip, t);
  }

  /** The announced seconds are the fewest: one less, if that is any, and the address is still denied. */
  lemma RetryAfterIsLeast(events: seq<Event>, from: int, ip: string, now: int)
    requires InOrder(from, events) && from <= now && forall i :: 0 <= i < |events| ==> events[i].at <= now
    requires Decide(Final(NEW, events), ip, now).Denied? && Decide(Final(NEW, events), ip, now).retryAfter > 1
    ensures var l, seconds := Final(NEW, events), Decide(Final(NEW, events), ip, now).retryAfter;
            Decide(AfterRequest(l, ip, now), ip, now + (seconds - 1) * SECOND).Denied?
  {
    hide Final, InOrder, Decide, AfterRequest, Recent, Remembers;
    var l := Final(NEW, events);
    FromNew(events, ip, from, now);
    LastSecond(l, ip, now);
    DeniedLasts(AllowedTimes(NEW, events, ip), l, ip, now, now + (Decide(l, ip, now).retryAfter - 1) * SECOND);
  }

  lemma LastSecond(l: Limiter, ip: string, now: int)
    requires Decide(l, ip, now).Denied? && Decide(l, ip, now).retryAfter > 1
    ensures Recent(Stamps(l, ip), now) != []
    ensures now + (Decide(l, ip, now).retryAfter - 1) * SECOND < Recent(Stamps(l, ip), now)[0] + IP_WINDOW
  {
    hide Recent, Stamps;
  }

  lemma DeniedLasts(past: seq<int>, l: Limiter, ip: string, now: int, t: int)
    requires Remembers(past, Stamps(l, ip), now) && Decide(l, ip, now).Denied?
    requires Recent(Stamps(l, ip), now) != [] && t < Recent(Stamps(l, ip), now)[0] + IP_WINDOW
    ensures Decide(AfterRequest(l, ip, now), ip, t).Denied?
  {
    var recent := Recent(Stamps(l, ip), now);
    RecentOfSorted(Stamps(l, ip), now);
    assert Sorted(recent);
    hide Recent, Remembers, RetrySeconds;
    AllRecent(recent, t);
    assert Stamps(AfterRequest(l, ip, now), ip) == recent;
  }

  lemma {:induction false} AllRecent(stamps: seq<int>, now: int)
    requires Sorted(stamps) && (stamps != [] ==> stamps[0] > now - IP_WINDOW)
    ensures Recent(stamps, now) == stamps
  {
    if stamps != [] {
      AllRecent(stamps[1..], now);
    }
  }

  ghost predicate Spares(events: seq<Event>, key: string) {
    forall i :: 0 <= i < |events| ==> events[i].call != Succeed(key)
  }

  lemma LockStep(l: Limiter, e: Event, key: string, until: int)
    requires key in l.locks && l.locks[key].lockedUntil == Some(until) && e.at < until && e.call != Succeed(key)
    ensures key in After(l, e).locks && After(l, e).locks[key].lockedUntil == Some(until)
  {
  }

  /** A locked user stays locked until the announced instant, whatever else happens, unless a success
      is recorded for that user. */
  lemma {:induction false} LockHolds(l: Limiter, events: seq<Event>, key: string, until: int, now: int)
    requires key in l.locks && l.locks[key].lockedUntil == Some(until) && Spares(events, key) && now < until
    requires forall i :: 0 <= i < |events| ==> events[i].at <= now
    ensures LockedKey(Final(l, events), key, now) && Final(l, events).locks[key].lockedUntil == Some(until)
    decreases |events|
  {
    if events != [] {
      LockStep(l, events[0], key, until);
      LockHolds(After(l, events[0]), events[1..], key, until, now);
    }
  }

  function Failures(events: seq<Event>, key: string): nat {
    if events == [] then 0 else (if events[0].call == Fail(key) then 1 else 0) + Failures(events[1..], key)
  }

  /** After `count` failures since `from` the user is locked long enough, or they have all been counted. */
  ghost predicate Counted(l: Limiter, key: string, from: int, count: nat) {
    if key !in l.locks then count == 0
    else
      var state := l.locks[key];
      || (state.lockedUntil.Some? && state.lockedUntil.value >= from + LOCK_WINDOW)
      || (count == 0 && !Locked(state, from) && state.failures >= 0)
      || (state.lockedUntil.None? && state.failures >= count && state.lastSeen >= from)
  }

  lemma CountedStep(l: Limiter, e: Event, key: string, from: int, count: nat)
    requires Counted(l, key, from, count) && from <= e.at < from + LOCK_WINDOW && e.call != Succeed(key)
    ensures Counted(After(l, e), key, from, count + if e.call == Fail(key) then 1 else 0)
    ensures count + (if e.call == Fail(key) then 1 else 0) >= LOCK_MAX && e.call == Fail(key) ==>
              LockedUntil(After(l, e), key, from + LOCK_WINDOW)
    ensures LockedUntil(l, key, from + LOCK_WINDOW) ==> LockedUntil(After(l, e), key, from + LOCK_WINDOW)
  {
  }

  predicate LockedUntil(l: Limiter, key: string, until: int) {
    key in l.locks && l.locks[key].lockedUntil.Some? && l.locks[key].lockedUntil.value >= until
  }

  lemma {:induction false} FailuresCounted(l: Limiter, events: seq<Event>, key: string, from: int, count: nat)
    requires Counted(l, key, from, count) && (count >= LOCK_MAX ==> LockedUntil(l, key, from + LOCK_WINDOW)) && Spares(events, key)
    requires forall i :: 0 <= i < |events| ==> from <= events[i].at < from + LOCK_WINDOW
    ensures count + Failures(events, key) >= LOCK_MAX ==> LockedUntil(Final(l, events), key, from + LOCK_WINDOW)
    decreases |events|
  {
    hide After, Counted, LockedUntil;
    if events != [] {
      CountedStep(l, events[0], key, from, count);
      FailuresCounted(After(l, events[0]), events[1..], key, from, count + if events[0].call == Fail(key) then 1 else 0);
    }
  }

  /** Five failures within a quarter of an hour lock a user who was not locked, whatever else happens in
      between, cleanups included, unless a success is recorded for that user. */
  lemma FiveFailuresLock(l: Limiter, events: seq<Event>, key: string, from: int, now: int)
    requires key in l.locks ==> !Locked(l.locks[key], from) && l.locks[key].failures >= 0
    requires Spares(events, key) && Failures(events, key) >= 5
    requires forall i :: 0 <= i < |events| ==> from <= events[i].at < from + 900 * SECOND
    requires now < from + 900 * SECOND
    ensures LockedKey(Final(l, events), key, now)
  {
    FailuresCounted(l, events, key, from, 0);
  }

  /** No lock is set, and no more failures are counted than there were. */
  ghost predicate Unlocked(l: Limiter, key: string, count: nat) {
    key in l.locks ==> l.locks[key].lockedUntil.None? && l.locks[key].failures <= count
  }

  lemma UnlockedStep(l: Limiter, e: Event, key: string, count: nat)
    requires Unlocked(l, key, count) && count + (if e.call == Fail(key) then 1 else 0) < LOCK_MAX
    ensures Unlocked(After(l, e), key, count + if e.call == Fail(key) then 1 else 0)
  {
  }

  lemma {:induction false} UnlockedAlong(l: Limiter, events: seq<Event>, key: string, count: nat)
    requires Unlocked(l, key, count) && count + Failures(events, key) < LOCK_MAX
    ensures Unlocked(Final(l, events), key, count + Failures(events, key))
    decreases |events|
  {
    hide After, Unlocked;
    if events != [] {
      UnlockedStep(l, events[0], key, count);
      UnlockedAlong(After(l, events[0]), events[1..], key, count + if events[0].call == Fail(key) then 1 else 0);
    }
  }

  /** A success wipes the slate clean: whatever failures came before, and whatever happens afterwards, the
      user is not locked at any time before five more failures. */
  lemma SuccessStartsOver(l: Limiter, key: string, events: seq<Event>, now: int)
    requires Failures(events, key) < 5
    ensures !LockedKey(Final(AfterSuccess(l, key), events), key, now)
  {
    UnlockedAlong(AfterSuccess(l, key), events, key, 0);
  }

  /** The lock has run out and nothing is counted yet, or no more is counted than there was. */
  ghost predicate RunOut(l: Limiter, key: string, until: int, count: nat) {
    (count == 0 && key in l.locks && l.locks[key].lockedUntil == Some(until)) || Unlocked(l, key, count)
  }

  lemma RunOutStep(l: Limiter, e: Event, key: string, until: int, count: nat)
    requires RunOut(l, key, until, count) && until <= e.at && count + (if e.call == Fail(key) then 1 else 0) < LOCK_MAX
    ensures RunOut(After(l, e), key, until, count + if e.call == Fail(key) then 1 else 0)
  {
  }

  lemma {:induction false} RunOutAlong(l: Limiter, events: seq<Event>, key: string, until: int, count: nat)
    requires RunOut(l, key, until, count) && count + Failures(events, key) < LOCK_MAX
    requires forall i :: 0 <= i < |events| ==> until <= events[i].at
    ensures RunOut(Final(l, events), key, until, count + Failures(events, key))
    decreases |events|
  {
    hide After, RunOut;
    if events != [] {
      RunOutStep(l, events[0], key, until, count);
      RunOutAlong(After(l, events[0]), events[1..], key, until, count + if events[0].call == Fail(key) then 1 else 0);
    }
  }

  /** A lock that has run out starts the count over: the user is not locked again before five more failures. */
  lemma RunOutStartsOver(l: Limiter, key: string, until: int, events: seq<Event>, now: int)
    requires key in l.locks && l.locks[key].lockedUntil == Some(until) && until <= now
    requires Failures(events, key) < 5 && forall i :: 0 <= i < |events| ==> until <= events[i].at
    ensures !LockedKey(Final(l, events), key, now)
  {
    RunOutAlong(l, events, key, until, 0);
  }
}
