/** internal/telegram/admincache.go for one chat: a TTL cache whose fetches run between two
    critical sections. Each method is one critical section, so any sequence of calls is an
    interleaving of callers, invalidations, replies and aborted fetches. */
module AdminCache {
  import opened Options

  datatype Error = EmptyList | Invalidated | Aborted | Unavailable

  /** A member; user id 0 is one the reply does not identify. */
  type Member = int

  datatype Entry = Entry(ids: seq<Member>, fetchedAt: Option<int>, lastFailAt: Option<int>, lastErr: Option<Error>, source: nat)

  /** The fetch in flight, with what its leader saw when it started. */
  datatype FetchCall = FetchCall(id: nat, gen: nat, prev: Option<Entry>)

  datatype Ending = Running | Replied(ids: seq<Member>, at: int) | FailedAt(at: int) | Abandoned

  /** One fetch of a run: how many invalidations it started after, when, and how it ended. */
  datatype Fetch = Fetch(startGen: nat, startedAt: int, ending: Ending)

  datatype Answer = Answer(ids: seq<Member>, err: Option<Error>)

  /** An answer some caller got: when, after how many invalidations, and the fetch its list came from. */
  datatype Given = Given(answer: Answer, at: int, gen: nat, source: Option<nat>, hit: bool)

  /** A caller that waits for a running fetch, and after how many invalidations it joined. */
  datatype Join = Join(id: nat, gen: nat)

  datatype Reply = Members(members: seq<Member>) | Failure(error: Error)

  datatype LookupResult = Answered(answer: Answer) | Joins(id: nat) | Leads(id: nat)

  predicate AnyIdentifiable(members: seq<Member>) {
    exists k :: 0 <= k < |members| && members[k] != 0
  }

  predicate Within(since: Option<int>, now: int, span: int) {
    since.Some? && now - since.value < span
  }

  /** adminEntry.stale: the list only inside the grace window, the failure always. */
  function Stale(e: Entry, err: Error, now: int, grace: int): Answer {
    Answer(if Within(e.fetchedAt, now, grace) then e.ids else [], Some(err))
  }

  /** What every answer owes its caller. A list without an error is the reply to a fetch that
      started after every invalidation so far, on a hit less than one TTL old; a list with an
      error was not invalidated either and is younger than two. */
  ghost predicate Owed(g: Given, fetches: seq<Fetch>, ttl: int) {
    g.answer.err.None? || g.answer.ids != [] ==>
      && g.source.Some? && g.source.value < |fetches|
      && var f := fetches[g.source.value];
         && f.ending.Replied? && f.ending.ids == g.answer.ids && f.startGen == g.gen
         && (g.hit ==> g.at - f.ending.at < ttl)
         && (g.answer.err.Some? ==> g.at - f.ending.at < 2 * ttl)
  }

  /** A decided answer: what was handed out, owing what it owed at the decision; without an error
      it is the reply of the fetch decided on. */
  ghost predicate DecidedOk(a: Answer, g: Given, id: nat, fetches: seq<Fetch>, ttl: int) {
    g.answer == a && Owed(g, fetches, ttl) && (a.err.None? ==> g.source == Some(id))
  }

  /** Only the last fetch may be running, and one that was answered or failed with no invalidation
      since its start is followed by the next no sooner than one TTL. */
  ghost predicate OneAtATime(fetches: seq<Fetch>, ttl: int) {
    && (forall k :: 0 <= k < |fetches| - 1 ==> !fetches[k].ending.Running?)
    && (forall k :: 0 < k < |fetches| ==>
          fetches[k-1].ending.FailedAt? && fetches[k-1].startGen == fetches[k].startGen
          ==> fetches[k].startedAt >= fetches[k-1].ending.at + ttl)
    && (forall k :: 0 < k < |fetches| ==>
          fetches[k-1].ending.Replied? && fetches[k-1].startGen == fetches[k].startGen
          ==> fetches[k].startedAt >= fetches[k-1].ending.at + ttl)
  }

  /** What the entry alone can answer: a hit, or during the backoff the last failure. */
  function Recalled(entry: Option<Entry>, now: int, gen: nat, ttl: int): seq<Given> {
    if entry.None? then []
    else
      var e := entry.value;
      if Within(e.fetchedAt, now, ttl) then [Given(Answer(e.ids, None), now, gen, Some(e.source), true)]
      else if Within(e.lastFailAt, now, ttl) && e.lastErr.Some? then
        [Given(Stale(e, e.lastErr.value, now, 2 * ttl), now, gen, Some(e.source), false)]
      else []
  }

  /** What an entry remembers is what its fetch brought, since the last invalidation. */
  ghost predicate EntryOk(e: Entry, gen: nat, fetches: seq<Fetch>) {
    && (e.fetchedAt.None? ==> e.ids == [])
    && (e.fetchedAt.Some? ==>
          && e.source < |fetches|
          && fetches[e.source].ending == Replied(e.ids, e.fetchedAt.value)
          && fetches[e.source].startGen == gen)
    && (e.lastFailAt.Some? ==> e.lastErr.Some?)
  }

  /** The running fetch is the last one, and its leader saw the entry as it still is unless it was
      invalidated; a failure is on record for the backoff. */
  ghost predicate FlightsOk(ttl: int, entry: Option<Entry>, gen: nat, inflight: Option<FetchCall>, fetches: seq<Fetch>) {
    && OneAtATime(fetches, ttl)
    && (forall k :: 0 <= k < |fetches| ==> fetches[k].startGen <= gen)
    && (entry.Some? ==> EntryOk(entry.value, gen, fetches))
    && (inflight.Some? <==> |fetches| > 0 && fetches[|fetches|-1].ending.Running?)
    && (inflight.Some? ==>
          && inflight.value.id == |fetches| - 1
          && inflight.value.gen == fetches[|fetches|-1].startGen
          && (inflight.value.gen == gen ==> inflight.value.prev == entry))
    && (|fetches| > 0 && fetches[|fetches|-1].ending.FailedAt? && fetches[|fetches|-1].startGen == gen ==>
          entry.Some? && entry.value.lastFailAt == Some(fetches[|fetches|-1].ending.at))
    && (|fetches| > 0 && fetches[|fetches|-1].ending.Replied? && fetches[|fetches|-1].startGen == gen ==>
          entry.Some? && entry.value.fetchedAt == Some(fetches[|fetches|-1].ending.at))
  }

  /** Every answer given, to a leader, on a hit or to a waiter, owes what it owes. */
  ghost predicate AnswersOk(ttl: int, given: seq<Given>, decided: map<nat, Answer>, owed: map<nat, Given>, fetches: seq<Fetch>) {
    && (forall k :: 0 <= k < |given| ==> Owed(given[k], fetches, ttl))
    && (forall id :: id in decided <==> 0 <= id < |fetches| && !fetches[id].ending.Running?)
    && owed.Keys == decided.Keys
    && (forall id :: id in decided ==> DecidedOk(decided[id], owed[id], id, fetches, ttl))
  }

  /** A waiter's fetch is still running, or was decided after no fewer invalidations than the waiter saw. */
  ghost predicate JoinsOk(joins: seq<Join>, decided: map<nat, Answer>, owed: map<nat, Given>,
                          inflight: Option<FetchCall>, gen: nat)
  {
    forall n :: 0 <= n < |joins| ==>
      if joins[n].id in decided then joins[n].id in owed && joins[n].gen <= owed[joins[n].id].gen
      else inflight.Some? && inflight.value.id == joins[n].id && joins[n].gen <= gen
  }

  /** The fetches once the one at `id` has ended. */
  function After(fetches: seq<Fetch>, id: nat, ending: Ending): seq<Fetch>
    requires id < |fetches|
  {
    fetches[id := fetches[id].(ending := ending)]
  }

  lemma OwedStays(g: Given, fetches: seq<Fetch>, id: nat, ending: Ending, ttl: int)
    requires Owed(g, fetches, ttl) && id < |fetches| && fetches[id].ending.Running?
    ensures Owed(g, After(fetches, id, ending), ttl)
  {
  }

  lemma EndAnswers(ttl: int, given: seq<Given>, decided: map<nat, Answer>, owed: map<nat, Given>, fetches: seq<Fetch>,
                   id: nat, ending: Ending, g: Given)
    requires AnswersOk(ttl, given, decided, owed, fetches)
    requires id < |fetches| && fetches[id].ending.Running? && !ending.Running?
    requires DecidedOk(g.answer, g, id, After(fetches, id, ending), ttl)
    ensures AnswersOk(ttl, given, decided[id := g.answer], owed[id := g], After(fetches, id, ending))
  {
    forall k | 0 <= k < |given|
      ensures Owed(given[k], After(fetches, id, ending), ttl)
    {
      OwedStays(given[k], fetches, id, ending, ttl);
    }
    forall d | d in decided && d != id
      ensures DecidedOk(decided[d], owed[d], d, After(fetches, id, ending), ttl)
    {
      OwedStays(owed[d], fetches, id, ending, ttl);
    }
  }

  /** The decision comes after no fewer invalidations than any waiter of this fetch saw. */
  lemma EndJoins(joins: seq<Join>, decided: map<nat, Answer>, owed: map<nat, Given>, inflight: Option<FetchCall>,
                 gen: nat, g: Given)
    requires JoinsOk(joins, decided, owed, inflight, gen) && inflight.Some? && inflight.value.id !in decided && g.gen == gen
    ensures JoinsOk(joins, decided[inflight.value.id := g.answer], owed[inflight.value.id := g], None, gen)
  {
  }

  lemma JoinMore(joins: seq<Join>, decided: map<nat, Answer>, owed: map<nat, Given>, inflight: Option<FetchCall>, gen: nat)
    requires JoinsOk(joins, decided, owed, inflight, gen) && inflight.Some? && inflight.value.id !in decided
    ensures JoinsOk(joins + [Join(inflight.value.id, gen)], decided, owed, inflight, gen)
  {
  }

  /** Nobody waits while no fetch runs. */
  lemma StartJoins(joins: seq<Join>, decided: map<nat, Answer>, owed: map<nat, Given>, call: FetchCall, gen: nat)
    requires JoinsOk(joins, decided, owed, None, gen)
    ensures JoinsOk(joins, decided, owed, Some(call), gen)
  {
  }

  lemma EndFlights(ttl: int, entry: Option<Entry>, gen: nat, inflight: Option<FetchCall>, fetches: seq<Fetch>,
                   ending: Ending, e: Option<Entry>)
    requires FlightsOk(ttl, entry, gen, inflight, fetches) && inflight.Some? && !ending.Running?
    requires e.Some? ==> EntryOk(e.value, gen, After(fetches, inflight.value.id, ending))
    requires ending.FailedAt? && inflight.value.gen == gen ==> e.Some? && e.value.lastFailAt == Some(ending.at)
    requires ending.Replied? && inflight.value.gen == gen ==> e.Some? && e.value.fetchedAt == Some(ending.at)
    ensures FlightsOk(ttl, e, gen, None, After(fetches, inflight.value.id, ending))
  {
    var after := After(fetches, inflight.value.id, ending);
    assert forall k :: 0 <= k < |fetches| - 1 ==> after[k] == fetches[k];
  }

  /** Neither the list nor the last failure still stands for this moment. */
  predicate RefetchDue(entry: Option<Entry>, now: int, ttl: int) {
    entry.Some? ==> !Within(entry.value.fetchedAt, now, ttl) && !Within(entry.value.lastFailAt, now, ttl)
  }

  lemma StartFlights(ttl: int, entry: Option<Entry>, gen: nat, fetches: seq<Fetch>, clock: int)
    requires FlightsOk(ttl, entry, gen, None, fetches)
    requires RefetchDue(entry, clock, ttl)
    ensures FlightsOk(ttl, entry, gen, Some(FetchCall(|fetches|, gen, entry)), fetches + [Fetch(gen, clock, Running)])
  {
    var after := fetches + [Fetch(gen, clock, Running)];
    assert forall k :: 0 <= k < |fetches| ==> after[k] == fetches[k];
  }

  lemma StartAnswers(ttl: int, gen: nat, fetches: seq<Fetch>, clock: int,
                     given: seq<Given>, decided: map<nat, Answer>, owed: map<nat, Given>)
    requires AnswersOk(ttl, given, decided, owed, fetches)
    ensures AnswersOk(ttl, given, decided, owed, fetches + [Fetch(gen, clock, Running)])
  {
    var after := fetches + [Fetch(gen, clock, Running)];
    assert forall k :: 0 <= k < |fetches| ==> after[k] == fetches[k];
    forall k | 0 <= k < |given|
      ensures Owed(given[k], after, ttl)
    {
      assert Owed(given[k], fetches, ttl);
    }
    forall d | d in decided
      ensures DecidedOk(decided[d], owed[d], d, after, ttl)
    {
      assert DecidedOk(decided[d], owed[d], d, fetches, ttl);
    }
  }

  /** A new fetch, with no other running and the backoff over, changes nothing of what earlier
      answers owed. */
  lemma StartOk(ttl: int, entry: Option<Entry>, gen: nat, fetches: seq<Fetch>, clock: int,
                given: seq<Given>, decided: map<nat, Answer>, owed: map<nat, Given>)
    requires FlightsOk(ttl, entry, gen, None, fetches) && AnswersOk(ttl, given, decided, owed, fetches)
    requires RefetchDue(entry, clock, ttl)
    ensures var after := fetches + [Fetch(gen, clock, Running)];
            && FlightsOk(ttl, entry, gen, Some(FetchCall(|fetches|, gen, entry)), after)
            && AnswersOk(ttl, given, decided, owed, after)
  {
    StartFlights(ttl, entry, gen, fetches, clock);
    StartAnswers(ttl, gen, fetches, clock, given, decided, owed);
  }

  /** What the entry alone answers owes what it owes. */
  lemma RecalledOwed(ttl: int, entry: Option<Entry>, gen: nat, inflight: Option<FetchCall>, fetches: seq<Fetch>, now: int)
    requires FlightsOk(ttl, entry, gen, inflight, fetches) && ttl > 0
    ensures forall k :: 0 <= k < |Recalled(entry, now, gen, ttl)| ==> Owed(Recalled(entry, now, gen, ttl)[k], fetches, ttl)
    ensures entry.Some? && entry.value.lastFailAt.Some? ==> entry.value.lastErr.Some?
  {
    hide OneAtATime;
  }

  /** The running fetch is the last one, and undecided. */
  lemma InFlight(ttl: int, entry: Option<Entry>, gen: nat, inflight: Option<FetchCall>, fetches: seq<Fetch>,
                 given: seq<Given>, decided: map<nat, Answer>, owed: map<nat, Given>)
    requires FlightsOk(ttl, entry, gen, inflight, fetches) && AnswersOk(ttl, given, decided, owed, fetches)
    requires inflight.Some?
    ensures inflight.value.id == |fetches| - 1 && inflight.value.id !in decided
    ensures fetches[inflight.value.id].ending.Running? && fetches[inflight.value.id].startGen == inflight.value.gen
  {
    hide OneAtATime, EntryOk, Owed, DecidedOk;
  }

  /** What the entry remembers does not come from the fetch that is ending. */
  lemma EntryStays(ttl: int, entry: Option<Entry>, gen: nat, inflight: Option<FetchCall>, fetches: seq<Fetch>, ending: Ending)
    requires FlightsOk(ttl, entry, gen, inflight, fetches) && inflight.Some?
    ensures entry.Some? ==> EntryOk(entry.value, gen, After(fetches, inflight.value.id, ending))
  {
    hide OneAtATime;
  }

  /** The list a failed fetch still hands out: the one its leader had, if no invalidation came since
      and it is young enough. */
  function StillGood(call: FetchCall, gen: nat, now: int, grace: int): seq<Member> {
    if call.gen == gen && call.prev.Some? && Within(call.prev.value.fetchedAt, now, grace) then call.prev.value.ids else []
  }

  class ChatCache {
    const ttl: int
    var entry: Option<Entry>
    var gen: nat
    var inflight: Option<FetchCall>
    var clock: int
    var nextId: nat
    var decided: map<nat, Answer>
    ghost var fetches: seq<Fetch>
    ghost var given: seq<Given>
    /** What each decided answer owed at its decision, and who joined which fetch. */
    ghost var owed: map<nat, Given>
    ghost var joins: seq<Join>

    ghost predicate Valid()
      reads this
    {
      && ttl > 0 && nextId == |fetches|
      && FlightsOk(ttl, entry, gen, inflight, fetches)
      && AnswersOk(ttl, given, decided, owed, fetches)
      && JoinsOk(joins, decided, owed, inflight, gen)
    }

    constructor (ttl: int)
      requires ttl > 0
      ensures Valid() && this.ttl == ttl && given == []
    {
      this.ttl := ttl;
      entry, gen, inflight := None, 0, None;
      clock, nextId, fetches, decided, given := 0, 0, [], map[], [];
      owed, joins := map[], [];
    }

    /** Invalidate: the list goes, and no fetch already in flight can bring it back. */
    method Invalidate()
      requires Valid()
      modifies this`entry, this`gen
      ensures Valid() && entry.None? && gen == old(gen) + 1
    {
      hide AnswersOk, Owed, DecidedOk, OneAtATime;
      entry := None;
      gen := gen + 1;
    }

    /** An answer goes out. */
    ghost method Give(a: Answer, source: Option<nat>, hit: bool)
      requires Valid() && Owed(Given(a, clock, gen, source, hit), fetches, ttl)
      modifies this`given
      ensures Valid() && given == old(given) + [Given(a, clock, gen, source, hit)]
    {
      hide FlightsOk, JoinsOk, Owed, DecidedOk, EntryOk;
      given := given + [Given(a, clock, gen, source, hit)];
    }

    /** The entry's share of a lookup. */
    method Recall(now: int) returns (a: Option<Answer>)
      requires Valid() && now >= clock
      modifies this`given, this`clock
      ensures Valid() && clock == now && given == old(given) + Recalled(entry, now, gen, ttl)
      ensures if Recalled(entry, now, gen, ttl) == [] then a.None? else a == Some(Recalled(entry, now, gen, ttl)[0].answer)
      ensures a.None? ==> RefetchDue(entry, now, ttl)
    {
      hide FlightsOk, AnswersOk, JoinsOk, Owed, Stale;
      RecalledOwed(ttl, entry, gen, inflight, fetches, now);
      clock := now;
      ghost var out := Recalled(entry, now, gen, ttl);
      if entry.Some? {
        var e := entry.value;
        if Within(e.fetchedAt, now, ttl) {
          assert Owed(out[0], fetches, ttl);
          Give(Answer(e.ids, None), Some(e.source), true);
          return Some(Answer(e.ids, None));
        }
        if Within(e.lastFailAt, now, ttl) {
          var stale := Stale(e, e.lastErr.value, now, 2 * ttl);
          assert Owed(out[0], fetches, ttl);
          Give(stale, Some(e.source), false);
          return Some(stale);
        }
      }
      return None;
    }

    /** The first critical section of AdminIdentities. */
    method Lookup(now: int) returns (r: LookupResult)
      requires Valid() && now >= clock
      modifies this`inflight, this`clock, this`fetches, this`given, this`nextId, this`joins
      ensures Valid() && clock == now
      ensures given == old(given) + Recalled(entry, now, gen, ttl)
      ensures if Recalled(entry, now, gen, ttl) == [] then !r.Answered?
              else r == Answered(Recalled(entry, now, gen, ttl)[0].answer)
      ensures joins == old(joins) + (if r.Joins? then [Join(r.id, gen)] else [])
      ensures r.Answered? ==> inflight == old(inflight)
      ensures r.Joins? ==> inflight == old(inflight) && inflight.Some? && inflight.value.id == r.id && fetches == old(fetches)
      ensures r.Leads? ==> old(inflight).None? && inflight.Some? && inflight.value.id == r.id == |old(fetches)|
    {
      hide FlightsOk, AnswersOk, JoinsOk;
      var a := Recall(now);
      if a.Some? {
        return Answered(a.value);
      }
      r := Seat();
    }

    /** A miss: the caller waits for the running fetch, or leads a new one. */
    method Seat() returns (r: LookupResult)
      requires Valid()
      requires RefetchDue(entry, clock, ttl)
      modifies this`inflight, this`fetches, this`nextId, this`joins
      ensures Valid() && !r.Answered?
      ensures joins == old(joins) + (if r.Joins? then [Join(r.id, gen)] else [])
      ensures r.Joins? ==> inflight == old(inflight) && inflight.Some? && inflight.value.id == r.id && fetches == old(fetches)
      ensures r.Leads? ==> old(inflight).None? && inflight.Some? && inflight.value.id == r.id == |old(fetches)|
    {
      hide FlightsOk, AnswersOk;
      if inflight.Some? {
        var joined := Wait();
        return Joins(joined);
      }
      var id := Start();
      return Leads(id);
    }

    /** A caller becomes a waiter of the running fetch. */
    method Wait() returns (id: nat)
      requires Valid() && inflight.Some?
      modifies this`joins
      ensures Valid() && id == inflight.value.id && joins == old(joins) + [Join(id, gen)]
    {
      hide FlightsOk, AnswersOk;
      InFlight(ttl, entry, gen, inflight, fetches, given, decided, owed);
      JoinMore(joins, decided, owed, inflight, gen);
      id := inflight.value.id;
      joins := joins + [Join(id, gen)];
    }

    /** A caller becomes the leader of a new fetch. */
    method Start() returns (id: nat)
      requires Valid() && inflight.None?
      requires RefetchDue(entry, clock, ttl)
      modifies this`inflight, this`fetches, this`nextId
      ensures Valid() && id == |old(fetches)| && inflight == Some(FetchCall(id, gen, entry))
      ensures fetches == old(fetches) + [Fetch(gen, clock, Running)]
    {
      hide FlightsOk, AnswersOk, JoinsOk;
      StartOk(ttl, entry, gen, fetches, clock, given, decided, owed);
      StartJoins(joins, decided, owed, FetchCall(nextId, gen, entry), gen);
      id := nextId;
      inflight := Some(FetchCall(id, gen, entry));
      nextId := nextId + 1;
      fetches := fetches + [Fetch(gen, clock, Running)];
    }

    /** The running fetch ends: its call is decided, and nobody can join it any more. */
    method End(ghost ending: Ending, e: Option<Entry>, a: Answer, ghost source: Option<nat>)
      requires Valid() && inflight.Some? && !ending.Running?
      requires e.Some? ==> EntryOk(e.value, gen, After(fetches, inflight.value.id, ending))
      requires ending.FailedAt? && inflight.value.gen == gen ==> e.Some? && e.value.lastFailAt == Some(ending.at)
      requires ending.Replied? && inflight.value.gen == gen ==> e.Some? && e.value.fetchedAt == Some(ending.at)
      requires DecidedOk(a, Given(a, clock, gen, source, false), inflight.value.id, After(fetches, inflight.value.id, ending), ttl)
      modifies this`entry, this`inflight, this`fetches, this`decided, this`owed
      ensures Valid() && entry == e && inflight.None?
      ensures decided == old(decided)[old(inflight.value.id) := a]
      ensures owed == old(owed)[old(inflight.value.id) := Given(a, clock, gen, source, false)]
      ensures fetches == After(old(fetches), old(inflight.value.id), ending)
    {
      hide FlightsOk, AnswersOk, JoinsOk, Owed, EntryOk, DecidedOk;
      InFlight(ttl, entry, gen, inflight, fetches, given, decided, owed);
      ghost var id, g := inflight.value.id, Given(a, clock, gen, source, false);
      EndFlights(ttl, entry, gen, inflight, fetches, ending, e);
      EndAnswers(ttl, given, decided, owed, fetches, id, ending, g);
      EndJoins(joins, decided, owed, inflight, gen, g);
      decided := decided[inflight.value.id := a];
      owed := owed[id := g];
      entry := e;
      fetches := After(fetches, id, ending);
      inflight := None;
    }

    /** The second critical section: commitLocked, and the answer for the leader and every waiter. */
    method Commit(reply: Reply, now: int) returns (a: Answer)
      requires Valid() && inflight.Some? && now >= clock
      modifies this`entry, this`inflight, this`clock, this`fetches, this`decided, this`given, this`owed
      ensures Valid() && clock == now && inflight.None? && gen == old(gen)
      ensures decided == old(decided)[old(inflight.value.id) := a]
      ensures |given| == |old(given)| + 1 && given[|given|-1].answer == a && old(given) <= given
      ensures a.err.None? ==> old(inflight.value.gen) == gen && reply == Members(a.ids)
      ensures a.err.None? ==> exists k :: 0 <= k < |a.ids| && a.ids[k] != 0
      ensures old(inflight.value.gen) != gen ==> a.ids == [] && a.err.Some? && entry == old(entry)
      ensures reply.Members? && AnyIdentifiable(reply.members) ==>
                if old(inflight.value.gen) == gen
                then a == Answer(reply.members, None)
                     && entry == Some(Entry(reply.members, Some(now), None, None, old(inflight.value.id)))
                else a == Answer([], Some(Invalidated))
      ensures reply.Failure? || !AnyIdentifiable(reply.members) ==>
                && a.err == Some(if reply.Failure? then reply.error else EmptyList)
                && a.ids == StillGood(old(inflight.value), gen, now, 2 * ttl)
    {
      hide FlightsOk, AnswersOk, JoinsOk;
      InFlight(ttl, entry, gen, inflight, fetches, given, decided, owed);
      clock := now;
      var error := match reply case Failure(e) => Some(e) case Members(m) => if AnyIdentifiable(m) then None else Some(EmptyList);
      if error.Some? {
        a := CommitFailure(error.value);
      } else if gen != inflight.value.gen {
        a := Answer([], Some(Invalidated));
        EntryStays(ttl, entry, gen, inflight, fetches, Replied(reply.members, now));
        End(Replied(reply.members, now), entry, a, None);
        Give(a, None, false);
      } else {
        var id := inflight.value.id;
        a := Answer(reply.members, None);
        End(Replied(reply.members, now), Some(Entry(reply.members, Some(now), None, None, id)), a, Some(id));
        Give(a, Some(id), false);
      }
    }

    /** A failed fetch: recorded for the backoff unless the list was invalidated meanwhile. */
    method CommitFailure(error: Error) returns (a: Answer)
      requires Valid() && inflight.Some?
      ensures old(inflight.value.gen) == gen ==>
                entry.Some? && entry.value.lastFailAt == Some(clock) && entry.value.lastErr == Some(error)
      modifies this`entry, this`inflight, this`fetches, this`decided, this`given, this`owed
      ensures Valid() && inflight.None? && a.err == Some(error)
      ensures a.ids == StillGood(old(inflight.value), gen, clock, 2 * ttl)
      ensures decided == old(decided)[old(inflight.value.id) := a]
      ensures |given| == |old(given)| + 1 && given[|given|-1].answer == a && old(given) <= given
      ensures old(inflight.value.gen) != gen ==> a.ids == [] && entry == old(entry)
    {
      hide AnswersOk, JoinsOk, OneAtATime;
      a := Answer([], Some(error));
      if gen != inflight.value.gen {
        End(FailedAt(clock), entry, a, None);
        Give(a, None, false);
        return;
      }
      a := RecordFailure(error);
    }

    /** The failure goes on the entry that is there, and a list the leader still had goes out with it. */
    method RecordFailure(error: Error) returns (a: Answer)
      requires Valid() && inflight.Some? && inflight.value.gen == gen
      modifies this`entry, this`inflight, this`fetches, this`decided, this`given, this`owed
      ensures Valid() && inflight.None? && a.err == Some(error)
      ensures a.ids == StillGood(old(inflight.value), gen, clock, 2 * ttl)
      ensures decided == old(decided)[old(inflight.value.id) := a]
      ensures |given| == |old(given)| + 1 && given[|given|-1].answer == a && old(given) <= given
      ensures entry.Some? && entry.value.lastFailAt == Some(clock) && entry.value.lastErr == Some(error)
    {
      hide AnswersOk, JoinsOk, OneAtATime;
      a := Answer([], Some(error));
      var prev := inflight.value.prev;
      var cur := if entry.Some? then entry.value else Entry([], None, None, None, 0);
      if prev.Some? {
        a := Stale(prev.value, error, clock, 2 * ttl);
      }
      ghost var source := if prev.Some? then Some(prev.value.source) else None;
      End(FailedAt(clock), Some(cur.(lastFailAt := Some(clock), lastErr := Some(error))), a, source);
      Give(a, source, false);
    }

    /** A caller that joined a fetch gets exactly what its leader decided, with everything that
        answer owed at the decision: a list without an error comes from this fetch, which started
        after every invalidation before the decision, so after every one before the caller joined;
        a list with an error was not invalidated by then and is younger than two TTLs. */
    method Await(id: nat, ghost n: nat) returns (a: Answer)
      requires Valid() && id in decided && n < |joins| && joins[n].id == id
      ensures a == decided[id] && id in owed && a == owed[id].answer && Owed(owed[id], fetches, ttl)
      ensures joins[n].gen <= owed[id].gen
      ensures a.err.None? ==> id < |fetches| && fetches[id].ending.Replied? && fetches[id].ending.ids == a.ids
                              && joins[n].gen <= fetches[id].startGen
    {
      assert DecidedOk(decided[id], owed[id], id, fetches, ttl);
      a := decided[id];
    }

    /** The fetch was abandoned: waiters get an error, never an empty list without one. */
    method Abort() returns (a: Answer)
      requires Valid() && inflight.Some?
      modifies this`entry, this`inflight, this`fetches, this`decided, this`owed
      ensures Valid() && inflight.None? && entry == old(entry) && a == Answer([], Some(Aborted))
      ensures decided == old(decided)[old(inflight.value.id) := a]
    {
      a := Answer([], Some(Aborted));
      End(Abandoned, entry, a, None);
    }
  }
}
