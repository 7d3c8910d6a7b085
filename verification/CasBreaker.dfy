/** The per-user blocklist check with its cache and breaker (internal/blocklist/cas.go). Enter and
    Land are the two locked sections of Listed; the request runs between them with no lock, so
    any number of them are in flight and land in any order. */
module CasBreaker {
  import opened Options
  import Sets

  const BreakerErrors: nat := 3
  const BreakerPause: nat := 60

  datatype Entry = Entry(listed: bool, expires: int)

  datatype Verdict = Known(listed: bool) | ContextDone | BreakerOpen | RateLimited | Request

  /** The run so far: requests let through, then for each how it landed, as a failure that did or
      did not open the breaker, or as a reply. `request` is the position of the request's admission. */
  datatype Event =
    | Admitted(user: int, at: int)
    | Failure(request: nat, at: int, opens: bool)
    | Success(request: nat, user: int, listed: bool, at: int)

  /** Failures since the last success. */
  function Streak(events: seq<Event>): nat {
    if events == [] then 0
    else
      var last := events[|events| - 1];
      match last
      case Success(_, _, _, _) => 0
      case Failure(_, _, _) => Streak(events[..|events| - 1]) + 1
      case Admitted(_, _) => Streak(events[..|events| - 1])
  }

  predicate SuccessAfter(events: seq<Event>, i: nat) {
    exists k :: i < k < |events| && events[k].Success?
  }

  predicate Opens(e: Event) {
    e.Failure? && e.opens
  }

  predicate Ordered(events: seq<Event>) {
    forall i, j :: 0 <= i < j < |events| ==> events[i].at <= events[j].at
  }

  /** Every landing answers an earlier admission of that user, and no admission is answered twice. */
  predicate Answers(events: seq<Event>) {
    && (forall k :: 0 <= k < |events| && !events[k].Admitted? ==>
          && events[k].request < k && events[events[k].request].Admitted?
          && (events[k].Success? ==> events[k].user == events[events[k].request].user))
    && (forall k, l :: 0 <= k < l < |events| && !events[k].Admitted? && !events[l].Admitted? ==>
          events[k].request != events[l].request)
  }

  predicate Landed(events: seq<Event>, r: nat) {
    exists k :: 0 <= k < |events| && !events[k].Admitted? && events[k].request == r
  }

  /** The requests in flight. */
  function InFlight(events: seq<Event>): set<nat> {
    set r: nat | r < |events| && events[r].Admitted? && !Landed(events, r)
  }

  lemma LandedMore(events: seq<Event>, e: Event, r: nat)
    ensures Landed(events + [e], r) <==> Landed(events, r) || (!e.Admitted? && e.request == r)
  {
    var after := events + [e];
    if Landed(events, r) {
      var k :| 0 <= k < |events| && !events[k].Admitted? && events[k].request == r;
      assert after[k] == events[k];
    }
    assert after[|events|] == e;
  }

  /** One more admission joins the flights; one more landing takes its own request from them. */
  lemma Flies(events: seq<Event>, e: Event)
    requires Answers(events) && (!e.Admitted? ==> e.request in InFlight(events))
    ensures InFlight(events + [e]) == if e.Admitted? then InFlight(events) + {|events|} else InFlight(events) - {e.request}
  {
    var after := events + [e];
    assert after[|events|] == e;
    forall r: nat | r < |after|
      ensures r in InFlight(after) <==> r in (if e.Admitted? then InFlight(events) + {|events|} else InFlight(events) - {e.request})
    {
      LandedMore(events, e, r);
      assert r < |events| ==> after[r] == events[r];
    }
  }

  lemma AnswersMore(events: seq<Event>, e: Event)
    requires Answers(events)
    requires !e.Admitted? ==> e.request in InFlight(events) && (e.Success? ==> e.user == events[e.request].user)
    ensures Answers(events + [e])
  {
    assert forall k :: 0 <= k < |events| && !events[k].Admitted? ==> Landed(events, events[k].request);
  }

  /** After the breaker opens, nothing is let through and it does not open again before the pause
      is over, unless a request already in flight succeeded in between. */
  predicate Kept(events: seq<Event>) {
    forall i, j ::
      (0 <= i < j < |events| && Opens(events[i]) && (events[j].Admitted? || Opens(events[j])) && !SuccessAfter(events[..j], i))
      ==> events[j].at >= events[i].at + BreakerPause
  }

  /** The breaker opens only at the third failure in a row or later. */
  predicate Earned(events: seq<Event>) {
    forall j :: 0 <= j < |events| && Opens(events[j]) ==> Streak(events[..j]) + 1 >= BreakerErrors
  }

  /** `openUntil` covers every opening no success has followed. */
  predicate Covers(events: seq<Event>, openUntil: Option<int>) {
    forall i :: 0 <= i < |events| && Opens(events[i]) && !SuccessAfter(events, i) ==>
      openUntil.Some? && openUntil.value >= events[i].at + BreakerPause
  }

  /** A cached hit rests on a positive reply for that user, one full lifetime before its expiry. */
  predicate Rests(events: seq<Event>, user: int, expires: int, ttl: int) {
    exists k :: 0 <= k < |events| && events[k].Success? && events[k].user == user && events[k].listed && events[k].at == expires - ttl
  }

  lemma Extend(events: seq<Event>, e: Event, openUntil: Option<int>)
    requires Kept(events) && Earned(events) && Covers(events, openUntil)
    requires (e.Admitted? || Opens(e)) && openUntil.Some? ==> e.at >= openUntil.value
    requires Opens(e) ==> Streak(events) + 1 >= BreakerErrors
    ensures Kept(events + [e]) && Earned(events + [e])
    ensures Streak(events + [e]) == if e.Success? then 0 else if e.Failure? then Streak(events) + 1 else Streak(events)
    ensures !Opens(e) && !e.Success? ==> Covers(events + [e], openUntil)
    ensures Opens(e) ==> Covers(events + [e], Some(e.at + BreakerPause))
    ensures e.Success? ==> Covers(events + [e], None)
  {
    var after := events + [e];
    assert after[..|events|] == events;
    assert forall j :: 0 <= j <= |events| ==> after[..j] == events[..j];
    forall i | 0 <= i < |events| && SuccessAfter(events, i)
      ensures SuccessAfter(after, i)
    {
      var k :| i < k < |events| && events[k].Success?;
      assert after[k].Success?;
    }
    if e.Success? {
      assert after[|events|].Success?;
    }
  }

  /** While the breaker is open, a request let through means that one admitted before the opening
      succeeded in between. */
  lemma PauseHolds(events: seq<Event>, i: nat, j: nat)
    requires Kept(events) && Ordered(events) && Answers(events)
    requires i < j < |events| && Opens(events[i]) && events[j].Admitted? && events[j].at < events[i].at + 60
    ensures exists k :: i < k < j && events[k].Success? && events[k].request < i
  {
    assert SuccessAfter(events[..j], i);
    var k := FirstSuccess(events, i, j);
    var r := events[k].request;
    assert r > i ==> !SuccessAfter(events[..r], i);
  }

  lemma {:induction false} FirstSuccess(events: seq<Event>, i: nat, j: nat) returns (k: nat)
    requires i < j <= |events| && SuccessAfter(events[..j], i)
    ensures i < k < j && events[k].Success? && forall m :: i < m < k ==> !events[m].Success?
  {
    k :| i < k < j && events[..j][k].Success?;
    if SuccessAfter(events[..k], i) {
      k := FirstSuccess(events, i, k);
    } else {
      assert forall m :: i < m < k ==> !events[..k][m].Success?;
    }
  }

  /** The streak outlives the pause: once open, one more failure is enough until a success. */
  lemma {:induction false} OneProbeReopens(events: seq<Event>, i: nat)
    requires Earned(events) && i < |events| && Opens(events[i]) && !SuccessAfter(events, i)
    ensures Streak(events) >= 3
  {
    var last := |events| - 1;
    if i < last {
      var before := events[..last];
      assert !events[last].Success?;
      assert forall j :: 0 <= j < last ==> before[..j] == events[..j];
      forall k | i < k < last
        ensures !before[k].Success?
      {
        assert !events[k].Success?;
      }
      OneProbeReopens(before, i);
    }
  }

  /** A cached hit stays founded as the run goes on. */
  lemma RestsOn(events: seq<Event>, e: Event, user: int, expires: int, ttl: int)
    requires Rests(events, user, expires, ttl)
    ensures Rests(events + [e], user, expires, ttl)
  {
    var k :| 0 <= k < |events| && events[k].Success? && events[k].user == user && events[k].listed && events[k].at == expires - ttl;
    assert (events + [e])[k] == events[k];
  }

  predicate Founded(events: seq<Event>, cache: map<int, Entry>, ttl: int) {
    forall user :: user in cache && cache[user].listed ==> Rests(events, user, cache[user].expires, ttl)
  }

  lemma Cached(events: seq<Event>, e: Event, cache: map<int, Entry>, ttl: int)
    requires Founded(events, cache, ttl)
    ensures Founded(events + [e], cache, ttl)
  {
    forall user | user in cache && cache[user].listed
      ensures Rests(events + [e], user, cache[user].expires, ttl)
    {
      RestsOn(events, e, user, cache[user].expires, ttl);
    }
  }

  /** The entries that have not expired. */
  function Unexpired<K>(cache: map<K, Entry>, now: int): map<K, Entry> {
    map user | user in cache && now < cache[user].expires :: cache[user]
  }

  /** What the run keeps, whatever is in flight: the breaker's state is what its events say. */
  predicate Law(events: seq<Event>, errors: nat, openUntil: Option<int>, clock: int) {
    && errors == Streak(events)
    && Kept(events) && Earned(events) && Covers(events, openUntil)
    && Ordered(events) && Answers(events)
    && forall k :: 0 <= k < |events| ==> events[k].at <= clock
  }

  predicate IsOpen(openUntil: Option<int>, now: int) {
    openUntil.Some? && now < openUntil.value
  }

  /** The three kinds of step: a request let through while the breaker is closed, a failure, a reply. */
  lemma LawStep(events: seq<Event>, errors: nat, openUntil: Option<int>, clock: int, e: Event)
    requires Law(events, errors, openUntil, clock) && clock <= e.at
    requires e.Admitted? ==> !IsOpen(openUntil, e.at)
    requires !e.Admitted? ==> e.request in InFlight(events) && (e.Success? ==> e.user == events[e.request].user)
    requires e.Failure? ==> (e.opens <==> errors + 1 >= BreakerErrors && !IsOpen(openUntil, e.at))
    ensures match e
            case Admitted(_, _) => Law(events + [e], errors, openUntil, e.at)
            case Failure(_, at, opens) => Law(events + [e], errors + 1, if opens then Some(at + BreakerPause) else openUntil, at)
            case Success(_, _, _, _) => Law(events + [e], 0, None, e.at)
  {
    Extend(events, e, openUntil);
    AnswersMore(events, e);
  }

  class Checker {
    const positiveTTL: int
    const negativeTTL: int
    const maxEntries: nat
    var cache: map<int, Entry>
    var errors: nat
    var openUntil: Option<int>
    ghost var events: seq<Event>
    ghost var clock: int

    ghost predicate Valid()
      reads this
    {
      && maxEntries > 0 && |cache| <= maxEntries
      && Law(events, errors, openUntil, clock)
      && Founded(events, cache, positiveTTL)
    }

    /** Nonpositive settings take their defaults: hours of 3600 ticks. */
    constructor (positiveTTL: int, negativeTTL: int, maxEntries: int)
      ensures Valid() && cache == map[] && openUntil.None? && events == []
      ensures this.positiveTTL == if positiveTTL <= 0 then 24 * 3600 else positiveTTL
      ensures this.negativeTTL == if negativeTTL <= 0 then 6 * 3600 else negativeTTL
      ensures this.maxEntries == if maxEntries <= 0 then 100000 else maxEntries
    {
      this.positiveTTL := if positiveTTL <= 0 then 24 * 3600 else positiveTTL;
      this.negativeTTL := if negativeTTL <= 0 then 6 * 3600 else negativeTTL;
      this.maxEntries := if maxEntries <= 0 then 100000 else maxEntries;
      cache, errors, openUntil, events, clock := map[], 0, None, [], 0;
    }

    /** The first locked section; `done` is the context's end and `allowed` the rate limiter's
        answer. A hit rests on a positive reply younger than its lifetime. */
    method Enter(user: int, now: int, done: bool, allowed: bool) returns (v: Verdict)
      requires Valid() && clock <= now
      modifies this`events, this`clock
      ensures Valid() && clock == now
      ensures v == Known(true) ==>
                exists k :: 0 <= k < |events| && events[k].Success? && events[k].user == user && events[k].listed
                            && events[k].at <= now < events[k].at + positiveTTL
      ensures v.Known? <==> user <= 0 || (user in cache && now < cache[user].expires)
      ensures v.Request? <==> !v.Known? && !done && (openUntil.None? || now >= openUntil.value) && allowed
      ensures events == old(events) + (if v.Request? then [Admitted(user, now)] else [])
      ensures v.Request? ==> InFlight(events) == InFlight(old(events)) + {|old(events)|}
    {
      clock := now;
      if user <= 0 {
        return Known(false);
      }
      if user in cache && now < cache[user].expires {
        assert cache[user].listed ==> Rests(events, user, cache[user].expires, positiveTTL);
        return Known(cache[user].listed);
      }
      if done {
        return ContextDone;
      }
      if IsOpen(openUntil, now) {
        return BreakerOpen;
      }
      if !allowed {
        return RateLimited;
      }
      LawStep(events, errors, openUntil, clock, Admitted(user, now));
      Cached(events, Admitted(user, now), cache, positiveTTL);
      Flies(events, Admitted(user, now));
      events := events + [Admitted(user, now)];
      return Request;
    }

    /** The second locked section after a failed request: a failure while the breaker is open
        neither extends the pause nor opens it again. */
    method LandFailure(ghost request: nat, now: int)
      requires Valid() && clock <= now && request in InFlight(events)
      modifies this`errors, this`openUntil, this`events, this`clock
      ensures Valid() && clock == now && InFlight(events) == InFlight(old(events)) - {request}
      ensures var opens := old(errors) + 1 >= 3 && (old(openUntil).None? || now >= old(openUntil).value);
              events == old(events) + [Failure(request, now, opens)]
              && openUntil == if opens then Some(now + 60) else old(openUntil)
    {
      var opens := errors + 1 >= BreakerErrors && !IsOpen(openUntil, now);
      var until := if opens then Some(now + BreakerPause) else openUntil;
      ghost var e := Failure(request, now, opens);
      ghost var after := events + [e];
      LawStep(events, errors, openUntil, clock, e);
      assert Law(after, errors + 1, until, now);
      Cached(events, e, cache, positiveTTL);
      Flies(events, e);
      errors, openUntil, clock, events := errors + 1, until, now, after;
    }

    /** The second locked section after a reply: the breaker closes and the reply is cached if
        there is room once the expired entries are gone. */
    method LandReply(ghost request: nat, user: int, listed: bool, now: int)
      requires Valid() && clock <= now && request in InFlight(events) && events[request].user == user
      modifies this
      ensures Valid() && clock == now && InFlight(events) == InFlight(old(events)) - {request}
      ensures openUntil.None? && errors == 0 && events == old(events) + [Success(request, user, listed, now)]
      ensures cache == Stored(old(cache), user, listed, now)
    {
      ghost var e := Success(request, user, listed, now);
      LawStep(events, errors, openUntil, clock, e);
      Cached(events, e, cache, positiveTTL);
      Flies(events, e);
      Store(request, user, listed, now);
      errors, openUntil := 0, None;
      events, clock := events + [e], now;
    }

    /** The cache's share of a reply. */
    method Store(ghost request: nat, user: int, listed: bool, now: int)
      requires maxEntries > 0 && |cache| <= maxEntries
      requires Founded(events + [Success(request, user, listed, now)], cache, positiveTTL)
      modifies this`cache
      ensures |cache| <= maxEntries
      ensures Founded(events + [Success(request, user, listed, now)], cache, positiveTTL)
      ensures cache == Stored(old(cache), user, listed, now)
    {
      if |cache| >= maxEntries {
        cache := Evict(cache, now);
      }
      if user in cache || |cache| < maxEntries {
        assert (events + [Success(request, user, listed, now)])[|events|].at == now + positiveTTL - positiveTTL;
        cache := cache[user := Entry(listed, now + if listed then positiveTTL else negativeTTL)];
      }
    }

    /** What the cache holds once it has seen the reply. */
    function Stored(cache: map<int, Entry>, user: int, listed: bool, now: int): map<int, Entry> {
      var kept := if |cache| >= maxEntries then Unexpired(cache, now) else cache;
      if user in kept || |kept| < maxEntries
      then kept[user := Entry(listed, now + if listed then positiveTTL else negativeTTL)]
      else kept
    }
  }

  /** The loop that deletes expired entries. */
  method Evict<K(==)>(cache: map<K, Entry>, now: int) returns (kept: map<K, Entry>)
    ensures kept == Unexpired(cache, now) && |kept| <= |cache|
  {
    kept := cache;
    var left := cache.Keys;
    while left != {}
      invariant left <= cache.Keys && kept.Keys <= cache.Keys
      invariant forall u :: u in cache ==> (u in kept <==> u in left || now < cache[u].expires)
      invariant forall u :: u in kept ==> kept[u] == cache[u]
      decreases left
    {
      var user :| user in left;
      left := left - {user};
      if now >= cache[user].expires {
        kept := kept - {user};
      }
    }
    Sets.Smaller(kept.Keys, cache.Keys);
  }
}
