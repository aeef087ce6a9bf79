/** The sliding-window limiter: a window of accepted times per key, for any clock that never runs backwards. */
module RateLimiter {
  import opened Collections

  type Time = real
  type Key = (string, string)

  /** Whether a time still counts in the window that ends now. */
  function Recent(now: Time, window: Time): Time -> bool {
    (t: Time) => t > now - window
  }

  ghost predicate InOrder(times: seq<Time>) {
    forall i, j :: 0 <= i < j < |times| ==> times[i] <= times[j]
  }

  // ---- the specification: all accepted times of one key ----

  /** The accepted times after a request at `now`. */
  function Admit(accepted: seq<Time>, now: Time, limit: nat, window: Time): seq<Time> {
    if |Filter(Recent(now, window), accepted)| >= limit then accepted else accepted + [now]
  }

  function AdmitAll(requests: seq<Time>, limit: nat, window: Time): seq<Time> {
    if requests == [] then []
    else Admit(AdmitAll(requests[..|requests| - 1], limit, window), requests[|requests| - 1], limit, window)
  }

  /** Accepted times stay in order and are requests already made. */
  lemma {:induction false} AdmittedInOrder(requests: seq<Time>, limit: nat, window: Time)
    requires InOrder(requests)
    ensures InOrder(AdmitAll(requests, limit, window))
    ensures forall t :: t in AdmitAll(requests, limit, window) ==> t in requests
  {
    if requests != [] {
      var init, now := requests[..|requests| - 1], requests[|requests| - 1];
      AdmittedInOrder(init, limit, window);
      var accepted := AdmitAll(init, limit, window);
      forall i | 0 <= i < |accepted| ensures accepted[i] <= now {
        assert accepted[i] in accepted;
        var j :| 0 <= j < |init| && init[j] == accepted[i];
        assert requests[j] <= requests[|requests| - 1];
      }
    }
  }

  ghost predicate AllOld(times: seq<Time>, now: Time, window: Time) {
    forall t :: t in times ==> !Recent(now, window)(t)
  }

  ghost predicate StartsRecent(times: seq<Time>, now: Time, window: Time) {
    times == [] || Recent(now, window)(times[0])
  }

  /** The recent ones of an ordered list are its tail. */
  lemma RecentIsTail(dropped: seq<Time>, rest: seq<Time>, now: Time, window: Time)
    requires InOrder(rest) && AllOld(dropped, now, window) && StartsRecent(rest, now, window)
    ensures Filter(Recent(now, window), dropped + rest) == rest
  {
    var keep := Recent(now, window);
    FilterConcat(keep, dropped, rest);
    FilterNone(keep, dropped);
    forall t | t in rest ensures keep(t) {
      var i :| 0 <= i < |rest| && rest[i] == t;
      assert i > 0 ==> rest[0] <= rest[i];
    }
    FilterAll(keep, rest);
  }

  lemma {:induction false} SplitAtWindow(times: seq<Time>, now: Time, window: Time) returns (dropped: seq<Time>, rest: seq<Time>)
    requires InOrder(times)
    ensures times == dropped + rest && AllOld(dropped, now, window) && rest == Filter(Recent(now, window), times)
  {
    dropped, rest := [], times;
    while !StartsRecent(rest, now, window)
      invariant times == dropped + rest && AllOld(dropped, now, window)
      decreases |rest|
    {
      dropped, rest := dropped + [rest[0]], rest[1..];
    }
    TailInOrder(dropped, rest);
    RecentIsTail(dropped, rest, now, window);
  }

  lemma TailInOrder(dropped: seq<Time>, rest: seq<Time>)
    requires InOrder(dropped + rest)
    ensures InOrder(rest)
  {
    var all := dropped + rest;
    forall i, j | 0 <= i < j < |rest| ensures rest[i] <= rest[j] {
      assert all[|dropped| + i] == rest[i] && all[|dropped| + j] == rest[j];
    }
  }

  /** Any two accepted requests `limit` places apart are at least a whole window apart in time. */
  lemma {:induction false} AcceptedAreSpread(requests: seq<Time>, limit: nat, window: Time, i: nat)
    requires InOrder(requests) && 0 < limit
    requires i + limit < |AdmitAll(requests, limit, window)|
    ensures AdmitAll(requests, limit, window)[i + limit] - AdmitAll(requests, limit, window)[i] >= window
  {
    var init, now := requests[..|requests| - 1], requests[|requests| - 1];
    var before := AdmitAll(init, limit, window);
    AdmittedInOrder(init, limit, window);
    if i + limit < |before| {
      AcceptedAreSpread(init, limit, window, i);
    } else {
      var dropped, rest := SplitAtWindow(before, now, window);
      assert i < |dropped| && before[i] in dropped;
    }
  }

  lemma FurtherApart(requests: seq<Time>, limit: nat, window: Time, i: nat, j: nat)
    requires InOrder(requests) && 0 < limit && i + limit <= j < |AdmitAll(requests, limit, window)|
    ensures AdmitAll(requests, limit, window)[j] - AdmitAll(requests, limit, window)[i] >= window
  {
    AdmittedInOrder(requests, limit, window);
    AcceptedAreSpread(requests, limit, window, i);
  }

  /** Accepted requests less than a window apart are never more than `limit` in a row. */
  lemma WindowHoldsAtMostLimit(requests: seq<Time>, limit: nat, window: Time, i: nat, j: nat)
    requires InOrder(requests) && 0 < limit && i <= j < |AdmitAll(requests, limit, window)|
    requires AdmitAll(requests, limit, window)[j] - AdmitAll(requests, limit, window)[i] < window
    ensures j - i + 1 <= limit
  {
    if j - i >= limit { FurtherApart(requests, limit, window, i, j); }
  }

  /** A request is accepted exactly when, of the accepted ones, the `limit`-th from the end is a whole window old, or there is none. */
  lemma AcceptedIffSpread(requests: seq<Time>, now: Time, limit: nat, window: Time)
    requires InOrder(requests)
    ensures AdmitAll(requests + [now], limit, window) == AcceptSpread(AdmitAll(requests, limit, window), now, limit, window)
  {
    AdmitMore(requests, now, limit, window);
    SpreadIsAdmitted(requests, now, limit, window);
  }

  function AcceptSpread(accepted: seq<Time>, now: Time, limit: nat, window: Time): seq<Time> {
    if limit > 0 && (|accepted| < limit || now - accepted[|accepted| - limit] >= window) then accepted + [now] else accepted
  }

  lemma SpreadIsAdmitted(requests: seq<Time>, now: Time, limit: nat, window: Time)
    requires InOrder(requests)
    ensures var accepted := AdmitAll(requests, limit, window);
      AcceptSpread(accepted, now, limit, window) == Admit(accepted, now, limit, window)
  {
    AdmittedInOrder(requests, limit, window);
    FullIff(AdmitAll(requests, limit, window), now, limit, window);
  }

  lemma FullIff(accepted: seq<Time>, now: Time, limit: nat, window: Time)
    requires InOrder(accepted)
    ensures |Filter(Recent(now, window), accepted)| < limit
      <==> limit > 0 && (|accepted| < limit || now - accepted[|accepted| - limit] >= window)
  {
    var dropped, rest := SplitAtWindow(accepted, now, window);
    if 0 < limit <= |accepted| {
      var i := |accepted| - limit;
      if i < |dropped| {
        assert accepted[i] in dropped;
        assert !Recent(now, window)(accepted[i]);
      } else {
        FilterMember(Recent(now, window), accepted, rest[i - |dropped|]);
        assert Recent(now, window)(rest[i - |dropped|]);
      }
    }
  }

  // ---- the guard ----

  /** Pops times from the front while they lie outside the window. */
  method DropOld(start: seq<Time>, now: Time, window: Time) returns (times: seq<Time>, ghost gone: seq<Time>)
    ensures start == gone + times && AllOld(gone, now, window) && StartsRecent(times, now, window)
  {
    times, gone := start, [];
    var windowStart := now - window;
    while times != [] && times[0] <= windowStart
      invariant start == gone + times && AllOld(gone, now, window)
      decreases |times|
    {
      gone := gone + [times[0]];
      times := times[1..];
    }
  }

  /** The window after a request: what is left of it, with the request itself unless it is refused. */
  method Slide(start: seq<Time>, now: Time, limit: nat, window: Time, ghost requests: seq<Time>)
    returns (allowed: bool, times: seq<Time>)
    requires Windowed(start, requests, limit, window) && InOrder(requests + [now])
    ensures Windowed(times, requests + [now], limit, window)
    ensures allowed <==> |Filter(Recent(now, window), AdmitAll(requests, limit, window))| < limit
    ensures AdmitAll(requests + [now], limit, window) == AdmitAll(requests, limit, window) + if allowed then [now] else []
    ensures window > 0.0 ==> times == Filter(Recent(now, window), AdmitAll(requests + [now], limit, window))
  {
    ghost var gone;
    times, gone := DropOld(start, now, window);
    WindowTrimmed(gone, times, requests, now, limit, window);
    AdmitMore(requests, now, limit, window);
    if window > 0.0 { RecentNow(AdmitAll(requests, limit, window), now, window); }
    allowed := |times| < limit;
    if allowed {
      times := times + [now];
    }
  }

  class AbuseGuard {
    const limit: nat
    const window: Time
    var windows: map<Key, seq<Time>>
    ghost var requests: map<Key, seq<Time>>

    /** Each key's window holds accepted times of that key: a tail of them, with nothing recent left out. */
    ghost predicate Valid()
      reads this
    {
      && windows.Keys == requests.Keys
      && forall key :: key in windows ==> Windowed(windows[key], requests[key], limit, window)
    }

    constructor (limit: nat, window: Time)
      ensures Valid() && this.limit == limit && this.window == window && requests == map[] && windows == map[]
    {
      this.limit, this.window := limit, window;
      windows, requests := map[], map[];
    }

    ghost function RequestsOf(key: Key): seq<Time>
      reads this
    {
      if key in requests then requests[key] else []
    }

    /**
     * Drops what has left the window, refuses if the limit is reached, and otherwise remembers the request.
     * A request is refused exactly when `limit` accepted ones still lie in the window, and afterwards the key's
     * window is exactly the accepted times still in it.
     */
    method ConsumeRateAllowance(key: Key, now: Time) returns (allowed: bool)
      requires Valid() && InOrder(RequestsOf(key) + [now])
      modifies this
      ensures Valid() && requests == old(requests)[key := old(RequestsOf(key)) + [now]]
      ensures allowed <==> |Filter(Recent(now, window), AdmitAll(old(RequestsOf(key)), limit, window))| < limit
      ensures AdmitAll(RequestsOf(key), limit, window)
           == AdmitAll(old(RequestsOf(key)), limit, window) + if allowed then [now] else []
      ensures key in windows && (window > 0.0 ==> windows[key] == Filter(Recent(now, window), AdmitAll(RequestsOf(key), limit, window)))
      ensures forall other :: other in old(windows) && other != key ==> other in windows && windows[other] == old(windows[other])
    {
      ghost var earlier := RequestsOf(key);
      var times := if key in windows then windows[key] else [];
      StartsEmpty(limit, window);
      allowed, times := Slide(times, now, limit, window, earlier);
      windows := windows[key := times];
      requests := requests[key := earlier + [now]];
    }
  }

  lemma RecentNow(accepted: seq<Time>, now: Time, window: Time)
    requires window > 0.0
    ensures Filter(Recent(now, window), accepted + [now]) == Filter(Recent(now, window), accepted) + [now]
  {
    assert (accepted + [now])[..|accepted + [now]| - 1] == accepted;
  }

  /** A tail of the accepted times that leaves out only times a window or more before the last request. */
  ghost predicate Windowed(times: seq<Time>, requests: seq<Time>, limit: nat, window: Time) {
    InOrder(requests) && exists dropped :: TailAfter(dropped, times, requests, AdmitAll(requests, limit, window), window)
  }

  ghost predicate TailAfter(dropped: seq<Time>, times: seq<Time>, requests: seq<Time>, accepted: seq<Time>, window: Time) {
    accepted == dropped + times && (dropped == [] || (requests != [] && AllOld(dropped, requests[|requests| - 1], window)))
  }

  lemma StartsEmpty(limit: nat, window: Time)
    ensures Windowed([], [], limit, window)
  {
    assert TailAfter([], [], [], AdmitAll([], limit, window), window);
  }

  lemma OldStaysOld(times: seq<Time>, before: Time, now: Time, window: Time)
    requires AllOld(times, before, window) && before <= now
    ensures AllOld(times, now, window)
  {
    forall t | t in times ensures !Recent(now, window)(t) { assert !Recent(before, window)(t); }
  }

  lemma OrderedEarlier(requests: seq<Time>, now: Time)
    requires InOrder(requests + [now])
    ensures InOrder(requests) && (requests != [] ==> requests[|requests| - 1] <= now)
  {
    var more := requests + [now];
    assert forall i :: 0 <= i < |requests| ==> requests[i] == more[i];
    if requests != [] { assert more[|requests| - 1] <= more[|requests|]; }
  }

  /** Dropping old times from the front of a window leaves exactly the recent accepted ones. */
  lemma TrimmedIsRecent(dropped: seq<Time>, gone: seq<Time>, times: seq<Time>, requests: seq<Time>, accepted: seq<Time>,
                        now: Time, window: Time)
    requires InOrder(requests + [now]) && InOrder(accepted) && TailAfter(dropped, gone + times, requests, accepted, window)
    requires AllOld(gone, now, window) && StartsRecent(times, now, window)
    ensures accepted == dropped + gone + times && AllOld(dropped + gone, now, window)
    ensures times == Filter(Recent(now, window), accepted)
  {
    OrderedEarlier(requests, now);
    if dropped != [] { OldStaysOld(dropped, requests[|requests| - 1], now, window); }
    assert accepted == (dropped + gone) + times;
    TailInOrder(dropped + gone, times);
    RecentIsTail(dropped + gone, times, now, window);
  }

  lemma AdmitMore(requests: seq<Time>, now: Time, limit: nat, window: Time)
    ensures AdmitAll(requests + [now], limit, window) == Admit(AdmitAll(requests, limit, window), now, limit, window)
  {
    var more := requests + [now];
    assert more[..|more| - 1] == requests;
  }

  /** The trimmed window, with the new request if it is accepted, is again a window. */
  lemma WindowTrimmed(gone: seq<Time>, times: seq<Time>, requests: seq<Time>, now: Time, limit: nat, window: Time)
    requires Windowed(gone + times, requests, limit, window) && InOrder(requests + [now])
    requires AllOld(gone, now, window) && StartsRecent(times, now, window)
    ensures times == Filter(Recent(now, window), AdmitAll(requests, limit, window))
    ensures Windowed(if |times| >= limit then times else times + [now], requests + [now], limit, window)
  {
    var accepted, more := AdmitAll(requests, limit, window), requests + [now];
    AdmittedInOrder(requests, limit, window);
    AdmitMore(requests, now, limit, window);
    var dropped :| TailAfter(dropped, gone + times, requests, accepted, window);
    TrimmedIsRecent(dropped, gone, times, requests, accepted, now, window);
    TailMoves(dropped + gone, times, requests, accepted, now, window);
    if |times| >= limit {
      assert TailAfter(dropped + gone, times, more, accepted, window);
    } else {
      assert TailAfter(dropped + gone, times + [now], more, accepted + [now], window);
    }
  }

  lemma TailMoves(dropped: seq<Time>, times: seq<Time>, requests: seq<Time>, accepted: seq<Time>, now: Time, window: Time)
    requires accepted == dropped + times && AllOld(dropped, now, window)
    ensures TailAfter(dropped, times, requests + [now], accepted, window)
    ensures TailAfter(dropped, times + [now], requests + [now], accepted + [now], window)
  {
    assert (requests + [now])[|requests + [now]| - 1] == now;
    assert accepted + [now] == dropped + (times + [now]);
  }
}
