/** The sliding-window message history (internal/detect/memhistory.go): pruning and sweeping are
    invisible, the counts are those of a log nothing is ever taken from. The log is per key; a
    key is a (chat, user) pair. */
module MemHistory {

  datatype Stamped<T> = Stamped(what: T, ts: int)

  predicate Within(ts: int, now: int, window: int) {
    now - ts <= window
  }

  function Pruned<T>(events: seq<Stamped<T>>, now: int, window: int): (kept: seq<Stamped<T>>)
    ensures forall e :: e in kept ==> e in events && Within(e.ts, now, window)
  {
    if events == [] then []
    else
      var last := events[|events| - 1];
      var rest := Pruned(events[..|events| - 1], now, window);
      if Within(last.ts, now, window) then rest + [last] else rest
  }

  function Count<T(==)>(events: seq<Stamped<T>>, what: T): nat {
    if events == [] then 0
    else Count(events[..|events| - 1], what) + if events[|events| - 1].what == what then 1 else 0
  }

  lemma {:induction false} NothingStale<T>(events: seq<Stamped<T>>, now: int, window: int)
    requires forall e :: e in events ==> Within(e.ts, now, window)
    ensures Pruned(events, now, window) == events
  {
    if events != [] {
      NothingStale(events[..|events| - 1], now, window);
      assert events == events[..|events| - 1] + [events[|events| - 1]];
    }
  }

  lemma PrunedMore<T>(events: seq<Stamped<T>>, e: Stamped<T>, now: int, window: int)
    ensures Pruned(events + [e], now, window)
            == if Within(e.ts, now, window) then Pruned(events, now, window) + [e] else Pruned(events, now, window)
  {
  }

  /** Pruning earlier, by a window at least as wide, changes nothing. */
  lemma {:induction false} PrunedTwice<T>(events: seq<Stamped<T>>, then': int, wide: int, now: int, window: int)
    requires then' <= now && window <= wide
    ensures Pruned(Pruned(events, then', wide), now, window) == Pruned(events, now, window)
  {
    if events != [] {
      var rest, last := events[..|events| - 1], events[|events| - 1];
      assert events == rest + [last];
      PrunedTwice(rest, then', wide, now, window);
      PrunedMore(rest, last, then', wide);
      PrunedMore(rest, last, now, window);
      PrunedMore(Pruned(rest, then', wide), last, now, window);
    }
  }

  /** Both prune functions: the same slice if nothing is stale, else a filtered copy. */
  method Prune<T>(events: seq<Stamped<T>>, now: int, window: int) returns (kept: seq<Stamped<T>>)
    ensures kept == Pruned(events, now, window)
  {
    var i := 0;
    while i < |events| && Within(events[i].ts, now, window)
      invariant i <= |events| && forall j :: 0 <= j < i ==> Within(events[j].ts, now, window)
    {
      i := i + 1;
    }
    if i == |events| {
      NothingStale(events, now, window);
      return events;
    }
    kept, i := [], 0;
    while i < |events|
      invariant i <= |events| && kept == Pruned(events[..i], now, window)
    {
      assert events[..i + 1] == events[..i] + [events[i]];
      PrunedMore(events[..i], events[i], now, window);
      if Within(events[i].ts, now, window) {
        kept := kept + [events[i]];
      }
      i := i + 1;
    }
    assert events[..i] == events;
  }

  /** A bucket's two lists, pruned each by its own window. */
  datatype Bucket = Bucket(dup: seq<Stamped<string>>, short: seq<Stamped<()>>)

  /** The list loses nothing a window could still see at or after `now`. */
  ghost predicate Same<T>(kept: seq<Stamped<T>>, log: seq<Stamped<T>>, now: int, window: int) {
    forall later :: later >= now ==> Pruned(kept, later, window) == Pruned(log, later, window)
  }

  lemma SamePruned<T>(kept: seq<Stamped<T>>, log: seq<Stamped<T>>, now: int, wide: int, window: int)
    requires Same(kept, log, now, window) && window <= wide
    ensures Same(Pruned(kept, now, wide), log, now, window)
  {
    forall later | later >= now
      ensures Pruned(Pruned(kept, now, wide), later, window) == Pruned(log, later, window)
    {
      PrunedTwice(kept, now, wide, later, window);
    }
  }

  lemma SameRecorded<T>(kept: seq<Stamped<T>>, log: seq<Stamped<T>>, e: Stamped<T>, now: int, window: int)
    requires Same(kept, log, now, window)
    ensures Same(kept + [e], log + [e], now, window)
  {
  }

  /** What a count over the full log sees: the recent events, then the one just recorded. */
  function Seen<T>(log: seq<Stamped<T>>, e: Stamped<T>, window: int): seq<Stamped<T>> {
    Pruned(log, e.ts, window) + [e]
  }

  /** One recording, either counter: prune, append, and the list still stands for the log. */
  method Record<T>(kept: seq<Stamped<T>>, ghost log: seq<Stamped<T>>, e: Stamped<T>, window: int)
    returns (after: seq<Stamped<T>>)
    requires Same(kept, log, e.ts, window)
    ensures after == Seen(log, e, window) && Same(after, log + [e], e.ts, window)
  {
    var recent := Prune(kept, e.ts, window);
    SamePruned(kept, log, e.ts, window, window);
    SameRecorded(recent, log, e, e.ts, window);
    after := recent + [e];
  }

  /** The history of all keys. */
  class History<Key(!new, ==)> {
    const dupWindow: int
    const shortWindow: int
    var buckets: map<Key, Bucket>
    /** The clock, and every event ever recorded. */
    ghost var clock: int
    ghost var dups: Key -> seq<Stamped<string>>
    ghost var shorts: Key -> seq<Stamped<()>>

    function BucketOf(key: Key): Bucket
      reads this
    {
      if key in buckets then buckets[key] else Bucket([], [])
    }

    ghost predicate Valid()
      reads this
    {
      forall key: Key ::
        && Same(BucketOf(key).dup, dups(key), clock, dupWindow)
        && Same(BucketOf(key).short, shorts(key), clock, shortWindow)
    }

    constructor (dupWindow: int, shortWindow: int)
      ensures Valid() && this.dupWindow == dupWindow && this.shortWindow == shortWindow
      ensures forall key :: dups(key) == [] && shorts(key) == []
    {
      this.dupWindow, this.shortWindow := dupWindow, shortWindow;
      buckets, clock := map[], 0;
      dups, shorts := _ => [], _ => [];
    }

    /** The count of this text over the full log, pruned and swept or not. */
    method RecordAndCountDup(key: Key, hash: string, now: int) returns (count: nat)
      requires Valid() && clock <= now
      modifies this
      ensures Valid() && clock == now && shorts == old(shorts)
      ensures forall k :: dups(k) == if k == key then old(dups)(k) + [Stamped(hash, now)] else old(dups)(k)
      ensures count == Count(Seen(old(dups)(key), Stamped(hash, now), dupWindow), hash)
    {
      var b := BucketOf(key);
      var e := Stamped(hash, now);
      var dup := Record(b.dup, dups(key), e, dupWindow);
      count := CountOf(dup, hash);
      ghost var log := dups;
      dups := k => if k == key then log(k) + [e] else log(k);
      assert dups(key) == log(key) + [e];
      clock, buckets := now, buckets[key := b.(dup := dup)];
    }

    method RecentShortCount(key: Key, now: int) returns (count: nat)
      requires Valid() && clock <= now
      modifies this
      ensures Valid() && clock == now && dups == old(dups)
      ensures forall k :: shorts(k) == if k == key then old(shorts)(k) + [Stamped((), now)] else old(shorts)(k)
      ensures count == |Seen(old(shorts)(key), Stamped((), now), shortWindow)|
    {
      var b := BucketOf(key);
      var e := Stamped((), now);
      var short := Record(b.short, shorts(key), e, shortWindow);
      count := |short|;
      ghost var log := shorts;
      shorts := k => if k == key then log(k) + [e] else log(k);
      clock, buckets := now, buckets[key := b.(short := short)];
    }

    /** Drops what is older than maxAge from every bucket, and the buckets that are then empty:
        with an age that covers both windows, no later count can tell. */
    method Sweep(maxAge: int, now: int)
      requires Valid() && clock <= now && dupWindow <= maxAge && shortWindow <= maxAge
      modifies this
      ensures Valid() && clock == now && dups == old(dups) && shorts == old(shorts)
      ensures forall key :: key in buckets ==> buckets[key] != Bucket([], [])
      ensures forall key :: key in buckets ==>
                && key in old(buckets)
                && buckets[key] == Bucket(Pruned(old(buckets)[key].dup, now, maxAge), Pruned(old(buckets)[key].short, now, maxAge))
    {
      clock := now;
      var left := buckets.Keys;
      while left != {}
        invariant clock == now && dups == old(dups) && shorts == old(shorts)
        invariant Valid() && left <= buckets.Keys <= old(buckets).Keys
        invariant forall key :: key in left ==> buckets[key] == old(buckets)[key]
        invariant forall key :: key in buckets && key !in left ==>
                    && buckets[key] != Bucket([], [])
                    && buckets[key] == Bucket(Pruned(old(buckets)[key].dup, now, maxAge), Pruned(old(buckets)[key].short, now, maxAge))
        decreases left
      {
        var key :| key in left;
        left := left - {key};
        SweepKey(key, now, maxAge);
      }
    }

    /** One turn of the loop over the buckets. */
    method SweepKey(key: Key, now: int, maxAge: int)
      requires Valid() && clock == now && key in buckets && dupWindow <= maxAge && shortWindow <= maxAge
      modifies this`buckets
      ensures Valid()
      ensures forall k :: k != key ==> (k in buckets <==> k in old(buckets))
      ensures forall k :: k in buckets && k != key ==> buckets[k] == old(buckets)[k]
      ensures key in buckets ==>
                && buckets[key] != Bucket([], [])
                && buckets[key] == Bucket(Pruned(old(buckets)[key].dup, now, maxAge), Pruned(old(buckets)[key].short, now, maxAge))
    {
      var b := buckets[key];
      var dup := Prune(b.dup, now, maxAge);
      var short := Prune(b.short, now, maxAge);
      SamePruned(b.dup, dups(key), clock, maxAge, dupWindow);
      SamePruned(b.short, shorts(key), clock, maxAge, shortWindow);
      buckets := if dup == [] && short == [] then buckets - {key} else buckets[key := Bucket(dup, short)];
    }
  }

  method CountOf<T(==)>(events: seq<Stamped<T>>, what: T) returns (count: nat)
    ensures count == Count(events, what)
  {
    count := 0;
    var i := 0;
    while i < |events|
      invariant i <= |events| && count == Count(events[..i], what)
    {
      assert events[..i + 1][..i] == events[..i];
      if events[i].what == what {
        count := count + 1;
      }
      i := i + 1;
    }
    assert events[..i] == events;
  }

  /** Where a log has this kind of event inside the window. */
  function Hits<T(==)>(log: seq<Stamped<T>>, what: T, now: int, window: int): set<int> {
    set i | 0 <= i < |log| && Within(log[i].ts, now, window) && log[i].what == what
  }

  lemma HitsMore<T>(log: seq<Stamped<T>>, e: Stamped<T>, what: T, now: int, window: int)
    ensures |Hits(log + [e], what, now, window)|
            == |Hits(log, what, now, window)| + if Within(e.ts, now, window) && e.what == what then 1 else 0
  {
    var before := Hits(log, what, now, window);
    assert Hits(log + [e], what, now, window)
           == if Within(e.ts, now, window) && e.what == what then before + {|log|} else before;
  }

  lemma CountMore<T>(log: seq<Stamped<T>>, e: Stamped<T>, what: T)
    ensures Count(log + [e], what) == Count(log, what) + if e.what == what then 1 else 0
  {
  }

  /** The count over a pruned log is the number of its events of that kind inside the window. */
  lemma {:induction false} CountMeans<T>(log: seq<Stamped<T>>, what: T, now: int, window: int)
    ensures Count(Pruned(log, now, window), what) == |Hits(log, what, now, window)|
  {
    if log != [] {
      var rest, last := log[..|log| - 1], log[|log| - 1];
      assert log == rest + [last];
      CountMeans(rest, what, now, window);
      HitsMore(rest, last, what, now, window);
      PrunedMore(rest, last, now, window);
      CountMore(Pruned(rest, now, window), last, what);
    }
  }

  /** The age main sweeps by covers both windows, whatever they are set to. */
  function SweepAge(dupWindow: int, shortWindow: int): (age: int)
    ensures dupWindow <= age && shortWindow <= age && age > 0
  {
    var wider := if 2 * shortWindow > 2 * dupWindow then 2 * shortWindow else 2 * dupWindow;
    if wider <= 0 then 3600 else wider
  }
}
