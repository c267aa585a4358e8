/**
 * The per-client sliding-log rate limiter (backend/app/core/middleware.py).
 *
 * The middleware forgets a client's old hits on every visit. `Admitted` is the limiter that forgets
 * nothing: it keeps each client's full admission history. The class agrees with it on every run of
 * requests, and the bound is proved about it.
 */
module RateLimiter {
  import opened Select

  /** `self._window`, in seconds. */
  const WINDOW: real := 60.0

  datatype Request = Request(key: string, now: real)

  /** The hits still inside the window at `now`. */
  function Recent(hits: seq<real>, now: real): (r: seq<real>)
    ensures |r| <= |hits|
  {
    if hits == [] then []
    else
      var earlier := Recent(hits[..|hits| - 1], now);
      var t := hits[|hits| - 1];
      if now - t < WINDOW then earlier + [t] else earlier
  }

  /** The hits in the half-open interval of one window starting at `start`. */
  function Within(hits: seq<real>, start: real): seq<real> {
    if hits == [] then []
    else
      var earlier := Within(hits[..|hits| - 1], start);
      var t := hits[|hits| - 1];
      if start <= t < start + WINDOW then earlier + [t] else earlier
  }

  /** Times at which a limiter with complete memory admits client `key` during a run. */
  function Admitted(run: seq<Request>, limit: int, key: string): seq<real> {
    if run == [] then []
    else
      var before := Admitted(run[..|run| - 1], limit, key);
      var r := run[|run| - 1];
      if r.key == key && |Recent(before, r.now)| < limit then before + [r.now] else before
  }

  /** Whether that limiter admits request `r` arriving after `run`. */
  predicate Admits(run: seq<Request>, limit: int, r: Request) {
    |Recent(Admitted(run, limit, r.key), r.now)| < limit
  }

  /** `time.monotonic()` never goes back. */
  predicate ClockRuns(run: seq<Request>) {
    forall i, j | 0 <= i < j < |run| :: run[i].now <= run[j].now
  }

  /** Position after the last request of a client, 0 if it has made none. */
  function LastVisit(run: seq<Request>, key: string): (n: nat)
    ensures n <= |run|
    ensures n > 0 ==> run[n - 1].key == key
    ensures forall i | n <= i < |run| :: run[i].key != key
  {
    if run == [] then 0
    else if run[|run| - 1].key == key then |run|
    else LastVisit(run[..|run| - 1], key)
  }

  /** The list to store for a client after a run: its full history seen through the window of its last visit. */
  function Stored(run: seq<Request>, limit: int, key: string): seq<real> {
    var n := LastVisit(run, key);
    if n == 0 then [] else Recent(Admitted(run, limit, key), run[n - 1].now)
  }

  ghost predicate Consistent(hits: map<string, seq<real>>, run: seq<Request>, limit: int) {
    && (forall key: string :: key in hits <==> LastVisit(run, key) > 0)
    && (forall key: string :: key in hits ==> hits[key] == Stored(run, limit, key))
  }

  class RateLimitMiddleware {
    const limit: int
    var hits: map<string, seq<real>>
    ghost var run: seq<Request>

    ghost predicate Valid()
      reads this
    {
      ClockRuns(run) && Consistent(hits, run, limit)
    }

    constructor (limitPerMinute: int)
      ensures limit == limitPerMinute && hits == map[] && run == [] && Valid()
    {
      limit := limitPerMinute;
      hits := map[];
      run := [];
    }

    /** `dispatch`: true when the request goes on, false for the 429 response. */
    method Dispatch(key: string, now: real) returns (admitted: bool)
      requires Valid()
      requires run != [] ==> run[|run| - 1].now <= now
      modifies this
      ensures Valid() && run == old(run) + [Request(key, now)]
      ensures admitted == Admits(old(run), limit, Request(key, now))
      ensures forall other | other != key && other in old(hits) :: other in hits && hits[other] == old(hits)[other]
    {
      var stored := if key in hits then hits[key] else [];
      var recent := Recent(stored, now);
      StoredAfter(hits, run, limit, Request(key, now));
      run := run + [Request(key, now)];
      if |recent| >= limit {
        hits := hits[key := recent];
        return false;
      }
      recent := recent + [now];
      hits := hits[key := recent];
      return true;
    }
  }

  /** Serving a whole run of requests from a fresh limiter. */
  method Serve(requests: seq<Request>, limit: int) returns (decisions: seq<bool>)
    requires ClockRuns(requests)
    ensures |decisions| == |requests|
    ensures forall i | 0 <= i < |requests| :: decisions[i] == Admits(requests[..i], limit, requests[i])
  {
    var limiter := new RateLimitMiddleware(limit);
    decisions := [];
    for k := 0 to |requests|
      invariant fresh(limiter) && limiter.Valid() && limiter.limit == limit
      invariant limiter.run == requests[..k] && |decisions| == k
      invariant forall i | 0 <= i < k :: decisions[i] == Admits(requests[..i], limit, requests[i])
    {
      var d := limiter.Dispatch(requests[k].key, requests[k].now);
      decisions := decisions + [d];
      assert requests[..k + 1] == requests[..k] + [requests[k]];
    }
  }

  // ---------- Pruning loses nothing ----------

  lemma {:induction false} RecentAppend(hits: seq<real>, t: real, now: real)
    ensures Recent(hits + [t], now) == if now - t < WINDOW then Recent(hits, now) + [t] else Recent(hits, now)
  {
    assert (hits + [t])[..|hits|] == hits;
  }

  /** Pruning twice with a clock that moved on is pruning once. */
  lemma {:induction false} RecentTwice(hits: seq<real>, earlier: real, now: real)
    requires earlier <= now
    ensures Recent(Recent(hits, earlier), now) == Recent(hits, now)
  {
    if hits != [] {
      var rest, t := hits[..|hits| - 1], hits[|hits| - 1];
      RecentTwice(rest, earlier, now);
      RecentAppend(Recent(rest, earlier), t, now);
    }
  }

  /** A client that never came was never admitted. */
  lemma {:induction false} NeverVisited(run: seq<Request>, limit: int, key: string)
    requires LastVisit(run, key) == 0
    ensures Admitted(run, limit, key) == []
  {
    if run != [] {
      NeverVisited(run[..|run| - 1], limit, key);
    }
  }

  /** What the middleware stored is enough to prune the full history at the next visit. */
  lemma {:induction false} PrunedLogSuffices(run: seq<Request>, limit: int, r: Request)
    requires ClockRuns(run) && (run != [] ==> run[|run| - 1].now <= r.now)
    ensures Recent(Stored(run, limit, r.key), r.now) == Recent(Admitted(run, limit, r.key), r.now)
  {
    var n := LastVisit(run, r.key);
    if n == 0 {
      NeverVisited(run, limit, r.key);
    } else {
      RecentTwice(Admitted(run, limit, r.key), run[n - 1].now, r.now);
    }
  }

  /** One more request moves only its own client's history and last visit. */
  lemma {:induction false} VisitExtends(run: seq<Request>, limit: int, r: Request, key: string)
    ensures var next := run + [r];
            && (key == r.key ==> LastVisit(next, key) == |next|)
            && (key == r.key && Admits(run, limit, r) ==>
                  Admitted(next, limit, key) == Admitted(run, limit, key) + [r.now])
            && (key == r.key && !Admits(run, limit, r) ==> Admitted(next, limit, key) == Admitted(run, limit, key))
            && (key != r.key ==> LastVisit(next, key) == LastVisit(run, key))
            && (key != r.key ==> Admitted(next, limit, key) == Admitted(run, limit, key))
            && (key != r.key ==> Stored(next, limit, key) == Stored(run, limit, key))
  {
    assert (run + [r])[..|run|] == run;
  }

  /** The map that `dispatch` leaves behind is the right one for the longer run. */
  lemma {:induction false} StoredAfter(hits: map<string, seq<real>>, run: seq<Request>, limit: int, r: Request)
    requires Consistent(hits, run, limit)
    requires ClockRuns(run) && (run != [] ==> run[|run| - 1].now <= r.now)
    ensures var recent := Recent(if r.key in hits then hits[r.key] else [], r.now);
            && Admits(run, limit, r) == (|recent| < limit)
            && ClockRuns(run + [r])
            && Consistent(hits[r.key := if |recent| < limit then recent + [r.now] else recent], run + [r], limit)
  {
    var stored := if r.key in hits then hits[r.key] else [];
    assert stored == Stored(run, limit, r.key);
    PrunedLogSuffices(run, limit, r);
    StoredAtVisit(run, limit, r);
    ConsistentAfter(hits, run, limit, r);
    ClockGoesOn(run, r);
  }

  lemma {:induction false} ClockGoesOn(run: seq<Request>, r: Request)
    requires ClockRuns(run) && (run != [] ==> run[|run| - 1].now <= r.now)
    ensures ClockRuns(run + [r])
  {
  }

  lemma {:induction false} ConsistentAfter(hits: map<string, seq<real>>, run: seq<Request>, limit: int, r: Request)
    requires Consistent(hits, run, limit)
    ensures Consistent(hits[r.key := Stored(run + [r], limit, r.key)], run + [r], limit)
  {
    forall key: string
      ensures LastVisit(run + [r], key) == if key == r.key then |run| + 1 else LastVisit(run, key)
      ensures key != r.key ==> Stored(run + [r], limit, key) == Stored(run, limit, key)
    {
      VisitExtends(run, limit, r, key);
    }
  }

  lemma {:induction false} StoredAtVisit(run: seq<Request>, limit: int, r: Request)
    ensures var recent := Recent(Admitted(run, limit, r.key), r.now);
            Stored(run + [r], limit, r.key) == if |recent| < limit then recent + [r.now] else recent
  {
    VisitExtends(run, limit, r, r.key);
    RecentAppend(Admitted(run, limit, r.key), r.now, r.now);
    assert (run + [r])[|run|] == r;
  }

  // ---------- The bound over whole runs ----------

  /** Every admission time is the time of some request, so the clock bounds them all. */
  lemma {:induction false} AdmittedBefore(run: seq<Request>, limit: int, key: string, now: real)
    requires forall i | 0 <= i < |run| :: run[i].now <= now
    ensures forall i | 0 <= i < |Admitted(run, limit, key)| :: Admitted(run, limit, key)[i] <= now
  {
    if run != [] {
      AdmittedBefore(run[..|run| - 1], limit, key, now);
    }
  }

  /** A window that contains `now` holds no more hits than are recent at `now`. */
  lemma {:induction false} WithinIsRecent(hits: seq<real>, start: real, now: real)
    requires start <= now < start + WINDOW
    ensures |Within(hits, start)| <= |Recent(hits, now)|
  {
    if hits != [] {
      WithinIsRecent(hits[..|hits| - 1], start, now);
    }
  }

  /** In every half-open window of 60 seconds, every client is admitted at most `limit` times. */
  lemma {:induction false} WindowBound(run: seq<Request>, limit: int, key: string, start: real)
    ensures |Within(Admitted(run, limit, key), start)| <= if limit > 0 then limit else 0
  {
    if run != [] {
      var before, r := run[..|run| - 1], run[|run| - 1];
      WindowBound(before, limit, key, start);
      var h := Admitted(before, limit, key);
      if r.key == key && Admits(before, limit, r) {
        assert (h + [r.now])[..|h|] == h;
        if start <= r.now < start + WINDOW {
          WithinIsRecent(h, start, r.now);
        }
      }
    }
  }

  /** The trailing window never holds more than `limit` admissions either. */
  lemma {:induction false} RecentBound(run: seq<Request>, limit: int, key: string, now: real)
    requires forall i | 0 <= i < |run| :: run[i].now <= now
    requires ClockRuns(run)
    ensures |Recent(Admitted(run, limit, key), now)| <= if limit > 0 then limit else 0
  {
    if run != [] {
      var before, r := run[..|run| - 1], run[|run| - 1];
      RecentBound(before, limit, key, now);
      var h := Admitted(before, limit, key);
      if r.key == key && Admits(before, limit, r) {
        RecentAppend(h, r.now, now);
        RecentShrinks(h, r.now, now);
      }
    }
  }

  lemma {:induction false} RecentShrinks(hits: seq<real>, earlier: real, now: real)
    requires earlier <= now
    ensures |Recent(hits, now)| <= |Recent(hits, earlier)|
  {
    if hits != [] {
      RecentShrinks(hits[..|hits| - 1], earlier, now);
    }
  }

  /** A request is refused exactly when `limit` admissions fill the trailing window. */
  lemma {:induction false} RefusedOnlyWhenFull(run: seq<Request>, limit: int, r: Request)
    requires limit >= 0 && ClockRuns(run + [r])
    ensures !Admits(run, limit, r) <==> |Recent(Admitted(run, limit, r.key), r.now)| == limit
  {
    assert forall i | 0 <= i < |run| :: (run + [r])[i] == run[i];
    assert (run + [r])[|run|] == r;
    RecentBound(run, limit, r.key, r.now);
  }

  /** The requests of one client. */
  function Only(run: seq<Request>, key: string): seq<Request> {
    if run == [] then []
    else
      var before := Only(run[..|run| - 1], key);
      if run[|run| - 1].key == key then before + [run[|run| - 1]] else before
  }

  /** Clients do not disturb each other: a client is admitted as if it were alone. */
  lemma {:induction false} ClientsAreIndependent(run: seq<Request>, limit: int, key: string)
    ensures Admitted(run, limit, key) == Admitted(Only(run, key), limit, key)
  {
    if run != [] {
      var before := run[..|run| - 1];
      ClientsAreIndependent(before, limit, key);
      if run[|run| - 1].key == key {
        assert Only(run, key)[..|Only(run, key)| - 1] == Only(before, key);
      }
    }
  }

  // ---------- In seconds ----------

  /** The instants of the half-open minute that starts at `start`. */
  function MinuteFrom(start: real): real -> bool {
    (t: real) => start <= t < start + 60.0
  }

  /** The instants less than a minute before `now`. */
  function MinuteBefore(now: real): real -> bool {
    (t: real) => now - 60.0 < t
  }

  lemma {:induction false} WindowsAreMinutes(hits: seq<real>, at: real)
    ensures Within(hits, at) == Where(hits, MinuteFrom(at)) && Recent(hits, at) == Where(hits, MinuteBefore(at))
  {
    if hits != [] {
      WindowsAreMinutes(hits[..|hits| - 1], at);
    }
  }

  /** No client is ever admitted more often than the limit within a minute, whichever minute it is. */
  lemma {:induction false} MinuteBound(run: seq<Request>, limit: int, key: string, start: real)
    ensures Count(Admitted(run, limit, key), MinuteFrom(start)) <= if limit > 0 then limit else 0
  {
    WindowBound(run, limit, key, start);
    WindowsAreMinutes(Admitted(run, limit, key), start);
    WhereCount(Admitted(run, limit, key), MinuteFrom(start));
  }

  /**
   * A request is refused exactly when its client was admitted `limit` times in the minute before it; an
   * admitted one joins the client's history, a refused one leaves it.
   */
  lemma {:induction false} RefusedAfterLimit(run: seq<Request>, limit: int, r: Request)
    requires limit >= 0 && ClockRuns(run + [r])
    ensures var before := Admitted(run, limit, r.key);
            var refused := Count(before, MinuteBefore(r.now)) >= limit;
            && Admits(run, limit, r) == !refused
            && Admitted(run + [r], limit, r.key) == if refused then before else before + [r.now]
  {
    WindowsAreMinutes(Admitted(run, limit, r.key), r.now);
    WhereCount(Admitted(run, limit, r.key), MinuteBefore(r.now));
    VisitExtends(run, limit, r, r.key);
  }
}
