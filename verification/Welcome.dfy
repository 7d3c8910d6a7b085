/** The greeting rate window of one chat (internal/watch/welcome.go): a mutex-protected list of
    send times and a set of users with a send in flight. Reserve and Finish are the two locked
    sections; anything may happen between them, and the times they are handed may be older than
    the moment they get the lock. */
module Welcome {
  import opened Options
  import Sets

  /** One minute, in the clock's ticks. */
  const Window: nat := 60

  datatype Outcome = SkipKnown | SkipRateCapped | Queued

  /** The record of one granted reservation: who, when it got the lock, under which cap, the
      stamp of its completed send, and which earlier grants were counted against it. */
  datatype Grant = Grant(user: int, at: int, cap: int, sent: Option<int>, counted: set<nat>)

  /** An earlier grant was counted against a later one, or its send was already a window old. */
  predicate Settled(grants: seq<Grant>, j: nat, k: nat)
    requires j < k < |grants|
  {
    j in grants[k].counted
    || (grants[j].sent.Some? && grants[j].sent.value <= grants[k].at - Window)
  }

  predicate Sound(grants: seq<Grant>) {
    && (forall k :: 0 <= k < |grants| ==> |grants[k].counted| < grants[k].cap)
    && (forall k :: 0 <= k < |grants| && grants[k].sent.Some? ==> grants[k].at <= grants[k].sent.value)
    && (forall j, k :: 0 <= j < k < |grants| ==> Settled(grants, j, k))
  }

  /** The grants whose send completed in the minute that ends at `end`. */
  function SentWithin(grants: seq<Grant>, end: int): set<nat> {
    set k: nat | k < |grants| && grants[k].sent.Some? && end - 60 < grants[k].sent.value <= end
  }

  /** A set of positions no later than k, all but k itself counted at k. */
  lemma AtMost(some: set<nat>, k: nat, counted: set<nat>)
    requires k in some && forall j :: j in some && j != k ==> j in counted
    ensures |some| <= |counted| + 1
  {
    var others := some - {k};
    assert others <= counted;
    Sets.Smaller(others, counted);
  }

  lemma {:induction false} Latest(some: set<nat>) returns (k: nat)
    requires some != {}
    ensures k in some && forall j :: j in some ==> j <= k
  {
    var first :| first in some;
    var others := some - {first};
    assert forall j :: j in some ==> j == first || j in others;
    k := first;
    if others != {} {
      var last := Latest(others);
      k := if last > first then last else first;
    }
  }

  /** Every minute holds at most as many completed sends as the cap its last reservation was
      granted under; with a constant cap, at most that many. */
  lemma WindowHolds(grants: seq<Grant>, end: int)
    requires Sound(grants) && SentWithin(grants, end) != {}
    ensures exists k :: k in SentWithin(grants, end) && |SentWithin(grants, end)| <= grants[k].cap
  {
    var within := SentWithin(grants, end);
    var k := Latest(within);
    forall j | j in within && j != k
      ensures j in grants[k].counted
    {
      assert Settled(grants, j, k);
    }
    AtMost(within, k, grants[k].counted);
  }

  lemma ConstantCap(grants: seq<Grant>, end: int, max: nat)
    requires Sound(grants) && forall k :: 0 <= k < |grants| ==> grants[k].cap == max
    ensures |SentWithin(grants, end)| <= max
  {
    if SentWithin(grants, end) != {} {
      WindowHolds(grants, end);
    }
  }

  /** The stamps less than a window old. */
  function Recent(sent: seq<int>, now: int): seq<int> {
    if sent == [] then []
    else
      var last := sent[|sent| - 1];
      Recent(sent[..|sent| - 1], now) + if last > now - Window then [last] else []
  }

  /** Each stamp kept is a grant's, and only stamps a window old are gone. */
  ghost predicate Stamps(sent: seq<int>, ids: seq<nat>, grants: seq<Grant>, clock: int) {
    && |ids| == |sent|
    && (forall i :: 0 <= i < |ids| ==> ids[i] < |grants| && grants[ids[i]].sent == Some(sent[i]))
    && (forall k :: 0 <= k < |grants| && grants[k].sent.Some? ==> k in ids || grants[k].sent.value <= clock - Window)
  }

  /** One open grant per user in flight. */
  ghost predicate Flights(inflight: set<int>, open: map<int, nat>, grants: seq<Grant>) {
    && open.Keys == inflight
    && (forall u :: u in open ==> open[u] < |grants| && grants[open[u]].user == u && grants[open[u]].sent.None?)
    && (forall k :: 0 <= k < |grants| && grants[k].sent.None? ==> grants[k].user in open && open[grants[k].user] == k)
  }

  /** `recent` and `kept` are the stamps of a list not older than a window, with their owners. */
  ghost predicate Pruned(sent: seq<int>, ids: seq<nat>, now: int, recent: seq<int>, kept: seq<nat>)
    requires |ids| == |sent|
  {
    && |kept| == |recent|
    && (forall i :: 0 <= i < |kept| ==> exists n :: 0 <= n < |sent| && sent[n] == recent[i] && ids[n] == kept[i])
    && (forall n :: 0 <= n < |sent| && sent[n] > now - Window ==> ids[n] in kept)
  }

  lemma StampLands(sent: seq<int>, ids: seq<nat>, grants: seq<Grant>, clock: int, at: int,
                   recent: seq<int>, kept: seq<nat>, k: nat, sentAt: int)
    requires Stamps(sent, ids, grants, clock) && Pruned(sent, ids, sentAt, recent, kept)
    requires k < |grants| && grants[k].sent.None? && sentAt <= at && clock <= at
    ensures Stamps(recent + [sentAt], kept + [k], grants[k := grants[k].(sent := Some(sentAt))], at)
  {
  }

  lemma FlightLands(inflight: set<int>, open: map<int, nat>, grants: seq<Grant>, user: int, sentAt: int)
    requires Flights(inflight, open, grants) && user in inflight
    ensures Flights(inflight - {user}, open - {user}, grants[open[user] := grants[open[user]].(sent := Some(sentAt))])
  {
  }

  lemma FlightDeparts(inflight: set<int>, open: map<int, nat>, grants: seq<Grant>, g: Grant)
    requires Flights(inflight, open, grants) && g.user !in inflight && g.sent.None?
    ensures Flights(inflight + {g.user}, open[g.user := |grants|], grants + [g])
  {
  }

  lemma StampDeparts(sent: seq<int>, ids: seq<nat>, grants: seq<Grant>, clock: int, g: Grant)
    requires Stamps(sent, ids, grants, clock) && g.sent.None?
    ensures Stamps(sent, ids, grants + [g], clock)
  {
  }

  /** The state behind the mutex, and which grant each stamp and each flight stands for. */
  class Chat {
    var sent: seq<int>
    var inflight: set<int>
    ghost var clock: int
    ghost var grants: seq<Grant>
    ghost var ids: seq<nat>
    ghost var open: map<int, nat>

    ghost predicate Valid()
      reads this
    {
      && Sound(grants) && Stamps(sent, ids, grants, clock) && Flights(inflight, open, grants)
      && forall k :: 0 <= k < |grants| ==> grants[k].at <= clock
    }

    constructor ()
      ensures Valid() && sent == [] && inflight == {} && grants == []
    {
      sent, inflight, clock, grants, ids, open := [], {}, 0, [], [], map[];
    }

    /** No user has two sends in flight. */
    lemma OneInFlight(j: nat, k: nat)
      requires Valid() && j < |grants| && k < |grants|
      requires grants[j].sent.None? && grants[k].sent.None? && grants[j].user == grants[k].user
      ensures j == k
    {
    }

    /** The stamps still inside the window; a recent list, and whose they are. */
    method Prune(now: int) returns (recent: seq<int>, ghost kept: seq<nat>)
      requires |ids| == |sent|
      ensures recent == Recent(sent, now) && |kept| == |recent|
      ensures Pruned(sent, ids, now, recent, kept)
    {
      recent, kept := [], [];
      var i := 0;
      while i < |sent|
        invariant i <= |sent| && recent == Recent(sent[..i], now) && |kept| == |recent|
        invariant forall m :: 0 <= m < |kept| ==>
                    exists n :: 0 <= n < |sent| && sent[n] == recent[m] && ids[n] == kept[m]
        invariant forall n :: 0 <= n < i && sent[n] > now - Window ==> ids[n] in kept
      {
        assert sent[..i + 1][..i] == sent[..i];
        if sent[i] > now - Window {
          recent, kept := recent + [sent[i]], kept + [ids[i]];
          assert forall k :: k in kept[..|kept| - 1] ==> k in kept;
        }
        i := i + 1;
      }
      assert sent[..i] == sent;
    }

    /** The locked part of Admit; `now` was read before the lock was got at `at`. */
    method Reserve(user: int, now: int, max: int, ghost at: int) returns (out: Outcome)
      requires Valid() && now <= at && clock <= at
      modifies this
      ensures Valid() && clock == at && sent == old(sent)
      ensures out == if user in old(inflight) then SkipKnown
                     else if |Recent(sent, now)| + |old(inflight)| >= max then SkipRateCapped
                     else Queued
      ensures out.Queued? ==> inflight == old(inflight) + {user} && |grants| == |old(grants)| + 1
                              && grants[..|old(grants)|] == old(grants)
                              && grants[|old(grants)|].user == user && grants[|old(grants)|].cap == max
      ensures !out.Queued? ==> inflight == old(inflight) && grants == old(grants)
    {
      hide Sound, Flights;
      clock := at;
      if user in inflight {
        return SkipKnown;
      }
      var recent, kept := Prune(now);
      if |recent| + |inflight| >= max {
        return SkipRateCapped;
      }
      NewGrant(user, now, max, recent, kept);
      Depart(user, max, kept);
      out := Queued;
    }

    method Depart(user: int, max: int, ghost kept: seq<nat>)
      requires Valid() && user !in inflight
      requires Sound(grants + [Grant(user, clock, max, None, CountedNow(kept))])
      modifies `inflight, `open, `grants
      ensures Valid() && inflight == old(inflight) + {user}
      ensures grants == old(grants) + [Grant(user, clock, max, None, old(CountedNow(kept)))]
    {
      ghost var g := Grant(user, clock, max, None, CountedNow(kept));
      FlightDeparts(inflight, open, grants, g);
      StampDeparts(sent, ids, grants, clock, g);
      inflight := inflight + {user};
      open := open[user := |grants|];
      grants := grants + [g];
    }

    /** The grants a new reservation is counted with: the recent sends and the flights. */
    ghost function CountedNow(kept: seq<nat>): set<nat>
      reads this
    {
      (set k | k in kept) + open.Values
    }

    lemma NewGrant(user: int, now: int, max: int, recent: seq<int>, kept: seq<nat>)
      requires Valid() && user !in inflight && now <= clock && |kept| == |recent| && |recent| + |inflight| < max
      requires forall n :: 0 <= n < |sent| && sent[n] > now - Window ==> ids[n] in kept
      ensures Sound(grants + [Grant(user, clock, max, None, CountedNow(kept))])
    {
      var counted := CountedNow(kept);
      Sets.AsSet(kept);
      Sets.Values(open);
      Sets.Union((set k | k in kept), open.Values);
      var after := grants + [Grant(user, clock, max, None, counted)];
      forall j | 0 <= j < |grants|
        ensures Settled(after, j, |grants|)
      {
        if grants[j].sent.None? {
          assert open[grants[j].user] in open.Values;
        } else if j in ids {
          var n :| 0 <= n < |ids| && ids[n] == j;
          assert sent[n] > now - Window ==> ids[n] in kept;
        }
      }
      forall j, k | 0 <= j < k < |after|
        ensures Settled(after, j, k)
      {
        if k < |grants| {
          assert Settled(grants, j, k);
        }
      }
    }

    /** finish: the flight ends and its stamp joins the list; `sentAt` was read when the send
        completed, before the lock was got at `at`. */
    method Finish(user: int, sentAt: int, ghost at: int)
      requires Valid() && user in inflight
      requires grants[open[user]].at <= sentAt <= at && clock <= at
      modifies this
      ensures Valid() && clock == at && inflight == old(inflight) - {user}
      ensures grants == old(grants)[old(open[user]) := old(grants[open[user]]).(sent := Some(sentAt))]
      ensures sent == Recent(old(sent), sentAt) + [sentAt]
    {
      var recent, kept := Prune(sentAt);
      ghost var k := open[user];
      Sent(k, sentAt);
      StampLands(sent, ids, grants, clock, at, recent, kept, k, sentAt);
      FlightLands(inflight, open, grants, user, sentAt);
      clock := at;
      inflight := inflight - {user};
      open := open - {user};
      grants := grants[k := grants[k].(sent := Some(sentAt))];
      sent, ids := recent + [sentAt], kept + [k];
    }

    lemma Sent(k: nat, sentAt: int)
      requires Sound(grants) && k < |grants| && grants[k].sent.None? && grants[k].at <= sentAt
      ensures Sound(grants[k := grants[k].(sent := Some(sentAt))])
    {
      var after := grants[k := grants[k].(sent := Some(sentAt))];
      forall i, j | 0 <= i < j < |after|
        ensures Settled(after, i, j)
      {
        assert Settled(grants, i, j);
      }
    }
  }
}
