/** One incident: its database row together with the Telegram side it governs.

    Every SQL transaction and every Telegram call is one atomic step. What the
    outside does at a step comes from `nature`, an arbitrary script: whether the
    process dies before the step, what a concurrently running `decide` command
    does to the row, how the Telegram call ends and whether a write whose result the code
    checks fails. All contracts hold for every script. */
module IncidentStore {
  import opened Options
  import opened IncidentRow

  datatype CallOutcome = Landed | Refused | LostApplied | LostNotApplied

  /** One atomic step of the `decide` command: claim, release of its own claim, or leaving it standing. */
  datatype CliStep = CliIdle | CliClaim | CliRelease | CliSettle

  datatype Choice = Choice(dies: bool, cli: CliStep, call: CallOutcome, writeFails: bool, copies: nat)

  /** Who owns the decision column. A claim whose process died belongs to nobody who could release it. */
  datatype Holder = NoOne | ByJob | ByCli | Settled | Orphan

  /** What Telegram really holds against the sender because of this incident; the last landed call wins. */
  datatype Hold = Nothing | MemberMuted | MemberBanned | ChannelBanned

  /** How a call looks to the code: success, Telegram's refusal, or an error that proves nothing. */
  datatype CallResult = CallOk | CallRefused | CallLost

  datatype Actor = Job | Cli | Restart

  datatype Event = EvidenceCopied(copies: nat) | CardIssued | CardRegistered | EvidenceSaved | SanctionIssued
                 | SourceDeleteIssued(deleted: bool) | LiftIssued(lift: Hold) | SampleSaved

  /** The row, the process that works on it and what the theorems speak about: `live` says
      that a sanction call of this incident landed or may have landed and was not lifted, `ever`
      that one once did,
      `sanctions` counts the Enforce runs that reported success, `died` that some job lost its
      process, `dropped` that the record of a live sanction was overwritten, `actor` made the
      last step. */
  datatype World = World(
    present: bool, row: Row, holder: Holder, dead: bool,
    live: bool, ever: bool, hold: Hold, sanctions: nat,
    died: bool, dropped: bool, actor: Actor)

  ghost predicate Safe(w: World) {
    && (w.dropped || (w.live ==> Protects(w.row)))
    && (w.died || w.sanctions <= 1)
  }

  ghost predicate AllSafe(h: seq<World>) {
    forall i :: 0 <= i < |h| ==> Safe(h[i])
  }

  /** The claim discipline between two consecutive states. The free column is claimed by the
      actor of the step, for itself. A claim is given back or settled only by the actor that
      holds it, never passes to another and never turns into another decision; a restart
      orphans the claim of the dead job. What is settled or orphaned stays, and what was lost
      stays lost. */
  ghost predicate ClaimStep(a: World, b: World) {
    && (a.died ==> b.died) && (a.dropped ==> b.dropped)
    && (a.ever ==> b.ever) && (b.ever && !a.ever ==> b.live)
    && match a.holder {
         case NoOne =>
           || (b.holder.NoOne? && b.row.decision == a.row.decision)
           || (b.holder.ByJob? && b.actor.Job?)
           || (b.holder.ByCli? && b.actor.Cli?)
         case ByJob =>
           if b.holder.NoOne? then b.actor.Job? && b.row.decision.Undecided?
           else b.row.decision == a.row.decision
                && (|| (b.holder.ByJob? && !b.actor.Restart?)
                    || (b.holder.Settled? && b.actor.Job?)
                    || (b.holder.Orphan? && b.actor.Restart?))
         case ByCli =>
           if b.holder.NoOne? then b.actor.Cli? && b.row.decision.Undecided?
           else b.row.decision == a.row.decision && (b.holder.ByCli? || (b.holder.Settled? && b.actor.Cli?))
         case Settled => b.holder.Settled? && b.row.decision == a.row.decision
         case Orphan => b.holder.Orphan? && b.row.decision == a.row.decision
       }
  }

  ghost predicate ClaimsKept(h: seq<World>) {
    forall i :: 0 < i < |h| ==> ClaimStep(h[i-1], h[i])
  }

  ghost predicate AllConsistent(h: seq<World>) {
    forall i :: 0 <= i < |h| ==> Consistent(h[i])
  }

  predicate HolderFits(d: Decision, holder: Holder) {
    && (holder.NoOne? <==> d.Undecided?)
    && (holder.ByCli? ==> d.ConfirmSpam?)
    && (holder.Settled? ==> !d.Enforcing?)
  }

  predicate Consistent(w: World) {
    && HolderFits(w.row.decision, w.holder)
    && (w.dead ==> w.died)
    && (w.hold != Nothing ==> w.live)
    && (w.live ==> w.ever)
    && (!w.present ==> !w.ever && w.sanctions == 0 && w.row.decision.Undecided?)
  }

  /** What every stretch of steps keeps, whatever it does to the row. */
  predicate Steps(a: World, b: World) {
    && (a.present ==> b.present)
    && (a.dead ==> b.dead)
    && (a.died ==> b.died)
    && (b.died && !a.died ==> b.dead)
    && (a.dropped ==> b.dropped)
    && (a.ever ==> b.ever)
  }

  /** The claim as a job sees it across steps that do not touch it themselves. */
  predicate ClaimUntouched(a: World, b: World) {
    && (a.holder.ByJob? || a.holder.Settled? || a.holder.Orphan? ==>
          b.holder == a.holder && b.row.decision == a.row.decision)
    && (a.holder.NoOne? || a.holder.ByCli? ==>
          (b.holder.NoOne? || b.holder.ByCli? || b.holder.Settled?)
          && (b.row.decision.Undecided? || b.row.decision.ConfirmSpam?))
  }

  /** Steps that leave the Telegram side alone. */
  predicate Quiet(a: World, b: World) {
    && a.present == b.present && a.live == b.live && a.ever == b.ever && a.hold == b.hold && a.sanctions == b.sanctions
  }

  /** The row up to the decision column. */
  predicate RowIs(w: World, r: Row) {
    w.row == r.(decision := w.row.decision)
  }

  /** UnbanMember is OnlyIfBanned; UnrestrictMember is not relied on to end a ban. */
  function Lifted(hold: Hold, lift: Hold): Hold {
    match lift
    case MemberBanned => if hold.MemberBanned? then Nothing else hold
    case MemberMuted => if hold.MemberMuted? then Nothing else hold
    case ChannelBanned => if hold.ChannelBanned? then Nothing else hold
    case Nothing => hold
  }

  function Seen(call: CallOutcome): CallResult {
    if call.Landed? then CallOk else if call.Refused? then CallRefused else CallLost
  }

  /** A sanction call against the sender, by its outcome. */
  function Issued(w: World, kind: Hold, call: CallOutcome): (b: World)
    requires kind != Nothing && w.present
    ensures Consistent(w) ==> Consistent(b) && Steps(w, b) && ClaimStep(w, b)
    ensures b == w.(actor := Job, live := b.live, ever := b.ever, hold := b.hold)
    ensures b.ever == (w.ever || !call.Refused?)
    ensures call.Refused? ==> b.live == w.live && b.hold == w.hold
    ensures !call.Refused? ==> b.live && b.hold == if call.LostNotApplied? then w.hold else kind
  {
    w.(actor := Job,
       live := w.live || !call.Refused?, ever := w.ever || !call.Refused?,
       hold := if call.Landed? || call.LostApplied? then kind else w.hold)
  }

  function LiftTried(w: World, lift: Hold, call: CallOutcome): (b: World)
    ensures Consistent(w) ==> Consistent(b) && Steps(w, b) && ClaimStep(w, b)
    ensures b.row == w.row && b.holder == w.holder
  {
    w.(actor := Job,
       hold := if call.Landed? || call.LostApplied? then Lifted(w.hold, lift) else w.hold)
  }

  /** The claiming UPDATEs and the ones that give a claim back. */
  function ClaimTaken(w: World, decision: Decision): (b: World)
    requires w.row.decision.Undecided? && !decision.Undecided? && w.present
    ensures Consistent(w) ==> Consistent(b) && Steps(w, b) && ClaimStep(w, b)
  {
    w.(row := w.row.(decision := decision), holder := ByJob, actor := Job)
  }

  function ClaimReturned(w: World, row: Row): (b: World)
    requires w.holder.ByJob? && row.decision.Undecided? && w.present
    ensures Consistent(w) ==> Consistent(b) && Steps(w, b) && ClaimStep(w, b)
  {
    w.(row := row, holder := NoOne, actor := Job)
  }

  datatype Inserted = InsertFailed | Fresh | Duplicate

  /** RecordDecision's answer. */
  datatype Claim = ClaimFailed | Claimed | AlreadyDecided(existing: Decision)

  /** One step of the `decide` command on the decision column (RecordDecision, ReleaseDecision, or its end). */
  function Decide(d: Decision, holder: Holder, c: CliStep): (r: (Decision, Holder))
    requires HolderFits(d, holder)
    ensures HolderFits(r.0, r.1)
    ensures r.0 == d || r.0.Undecided? || r.0.ConfirmSpam?
    ensures r.0 != d ==> if d.Undecided? then r.1.ByCli? else r.0.Undecided? && holder.ByCli?
    ensures holder.ByJob? || holder.Settled? || holder.Orphan? ==> r == (d, holder)
    ensures holder.NoOne? || holder.ByCli? ==> r.1.NoOne? || r.1.ByCli? || r.1.Settled?
  {
    if c.CliClaim? && d.Undecided? then (ConfirmSpam, ByCli)
    else if c.CliRelease? && holder.ByCli? then (Undecided, NoOne)
    else if c.CliSettle? && holder.ByCli? then (d, Settled)
    else (d, holder)
  }

  /** What precedes every atomic step of a job. */
  function Arrive(w: World, c: Choice): World
    requires HolderFits(w.row.decision, w.holder)
  {
    var (d, h) := if w.present then Decide(w.row.decision, w.holder, c.cli) else (w.row.decision, w.holder);
    w.(row := w.row.(decision := d), holder := h,
       actor := Cli, dead := w.dead || c.dies, died := w.died || c.dies)
  }

  /** What a step that leaves the claim alone does to the process and to the claim. */
  predicate Ticked(a: World, b: World, c: Choice) {
    && b.dead == (a.dead || c.dies)
    && (c.cli.CliIdle? ==> b.holder == a.holder && b.row.decision == a.row.decision)
  }

  lemma ArriveSteps(w: World, c: Choice)
    requires Consistent(w)
    ensures var b := Arrive(w, c);
            && Consistent(b) && Steps(w, b) && ClaimUntouched(w, b) && ClaimStep(w, b)
            && (Safe(w) ==> Safe(b))
  {
  }

  /** Nothing goes wrong in this step. */
  predicate Fine(c: Choice) {
    !c.dies && !c.writeFails && c.call.Landed?
  }

  /** Nothing goes wrong in the steps from `from` up to `to`. */
  ghost predicate Smooth(nature: nat -> Choice, from: nat, to: nat) {
    forall n: nat :: from <= n < to ==> Fine(nature(n))
  }

  /** A copy of the messages reaches the admin chat in this step. */
  predicate Copied(c: Choice) {
    c.call.Landed? && c.copies > 0
  }

  /** A script in which no process dies. */
  ghost predicate NeverDies(nature: nat -> Choice) {
    forall n: nat :: !nature(n).dies
  }

  class Incident {
    const nature: nat -> Choice
    const key: Key
    var w: World
    var tick: nat
    ghost var history: seq<World>
    ghost var log: seq<Event>

    ghost predicate Valid()
      reads this
    {
      && Consistent(w)
      && |history| > 0 && history[|history|-1] == w
      && ClaimsKept(history) && AllConsistent(history)
      && (NeverDies(nature) ==> !w.died)
    }

    constructor (nature: nat -> Choice, key: Key)
      ensures Valid() && history == [w] && AllSafe(history)
      ensures this.nature == nature && this.key == key && tick == 0 && log == []
      ensures w == World(false, Row(Pending, true, Undecided, NoAction, None),
                         NoOne, false, false, false, Nothing, 0, false, false, Restart)
    {
      this.nature, this.key := nature, key;
      var first := World(false, Row(Pending, true, Undecided, NoAction, None),
                         NoOne, false, false, false, Nothing, 0, false, false, Restart);
      w, tick, log := first, 0, [];
      history := [first];
    }

    /** Moves to the state a step left behind. */
    method Commit(next: World)
      requires Valid() && Consistent(next) && ClaimStep(w, next) && (next.died ==> w.died || !NeverDies(nature))
      modifies this`w, this`history
      ensures Valid() && w == next && history == old(history) + [next]
      ensures old(AllSafe(history)) && Safe(next) ==> AllSafe(history)
    {
      w := next;
      history := history + [next];
    }

    /** The outside moves first: a step of `decide`, and possibly the end of this process. */
    method Begin() returns (c: Choice)
      requires Valid()
      modifies this`w, this`history, this`tick
      ensures Valid() && c == nature(old(tick)) && tick == old(tick) + 1
      ensures Ticked(old(w), w, c)
      ensures Steps(old(w), w) && ClaimUntouched(old(w), w) && Quiet(old(w), w) && RowIs(w, old(w.row))
      ensures w.dropped == old(w.dropped)
      ensures w.dead == (old(w.dead) || c.dies)
      ensures old(history) <= history
      ensures old(AllSafe(history)) ==> AllSafe(history)
    {
      c := nature(tick);
      tick := tick + 1;
      ArriveSteps(w, c);
      assert old(AllSafe(history)) ==> Safe(history[|history|-1]);
      Commit(Arrive(w, c));
    }

    // internal/store: one method per transaction.

    /** InsertPending: a pending row with its audit action, unless the message has a row already. */
    method InsertPending(dryRun: bool, action: Action) returns (r: Inserted)
      requires Valid() && !w.dead
      modifies this`w, this`history, this`tick
      ensures Valid() && Steps(old(w), w)
      ensures w.dead == nature(old(tick)).dies && tick == old(tick) + 1
      ensures !w.dead && !nature(old(tick)).writeFails ==> r == if old(w.present) then Duplicate else Fresh
      ensures r.Duplicate? ==> Ticked(old(w), w, nature(old(tick)))
      ensures w.live == old(w.live) && w.ever == old(w.ever) && w.hold == old(w.hold) && w.sanctions == old(w.sanctions)
      ensures w.dropped == old(w.dropped)
      ensures r.Duplicate? ==> old(w.present) && !w.dead
      ensures r.Fresh? ==> !old(w.present) && w.present && !w.dead
                           && RowIs(w, old(w.row).(state := Pending, dryRun := dryRun, action := action, card := None))
      ensures r.Fresh? ==> w.holder.NoOne? && forall c :: CurrentCard(w.row, c)
      ensures !r.Fresh? ==> w.present == old(w.present) && RowIs(w, old(w.row)) && ClaimUntouched(old(w), w)
      ensures r.InsertFailed? ==> w.dead || nature(old(tick)).writeFails
      ensures old(history) <= history && (old(AllSafe(history)) && Safe(w) ==> AllSafe(history))
    {
      var c := Begin();
      if w.dead || c.writeFails {
        return InsertFailed;
      }
      if w.present {
        return Duplicate;
      }
      var row := w.row.(state := Pending, dryRun := dryRun, action := action, card := None);
      Commit(w.(present := true, row := row, actor := Job));
      return Fresh;
    }

    /** The writes that only move the row: common end of the marking transactions. */
    method Mark(row: Row, dropped: bool) returns (ok: bool)
      requires Valid() && w.present && row.decision == w.row.decision
      modifies this`w, this`history
      ensures Valid() && Steps(old(w), w) && ClaimUntouched(old(w), w) && Quiet(old(w), w)
      ensures ok == !w.dead
      ensures w.dead == old(w.dead) && w.died == old(w.died) && w.holder == old(w.holder)
      ensures w.dropped == (old(w.dropped) || (ok && dropped))
      ensures w.row == if ok then row else old(w.row)
      ensures old(history) <= history && (old(AllSafe(history)) && Safe(w) ==> AllSafe(history))
    {
      if w.dead {
        return false;
      }
      Commit(w.(row := row, dropped := w.dropped || dropped, actor := Job));
      return true;
    }

    method SetIncidentState(state: State) returns (ok: bool)
      requires Valid() && w.present
      modifies this`w, this`history, this`tick
      ensures Valid() && Steps(old(w), w) && ClaimUntouched(old(w), w) && Quiet(old(w), w)
      ensures Ticked(old(w), w, nature(old(tick))) && tick == old(tick) + 1
      ensures RowIs(w, if ok then old(w.row).(state := state) else old(w.row))
      ensures ok == !w.dead
      ensures w.dropped == old(w.dropped)
      ensures old(history) <= history && (old(AllSafe(history)) && Safe(w) ==> AllSafe(history))
    {
      var _ := Begin();
      ok := Mark(w.row.(state := state), false);
    }

    /** MarkSanctionUnknown: the attempt may have been applied; the audit action becomes the one attempted. */
    method MarkSanctionUnknown(attempted: Action) returns (ok: bool)
      requires Valid() && w.present
      modifies this`w, this`history, this`tick
      ensures Valid() && Steps(old(w), w) && ClaimUntouched(old(w), w) && Quiet(old(w), w)
      ensures Ticked(old(w), w, nature(old(tick))) && tick == old(tick) + 1
      ensures RowIs(w, if ok then SanctionLost(old(w.row), attempted) else old(w.row))
      ensures ok == !w.dead
      ensures w.dropped == old(w.dropped)
      ensures old(history) <= history && (old(AllSafe(history)) && Safe(w) ==> AllSafe(history))
    {
      var _ := Begin();
      ok := Mark(SanctionLost(w.row, attempted), false);
    }

    /** MarkSanctionRefused. It forgets a live sanction exactly when the row is not sanction_unknown. */
    method MarkSanctionRefused() returns (ok: bool)
      requires Valid() && w.present
      modifies this`w, this`history, this`tick
      ensures Valid() && Steps(old(w), w) && ClaimUntouched(old(w), w) && Quiet(old(w), w)
      ensures Ticked(old(w), w, nature(old(tick))) && tick == old(tick) + 1
      ensures RowIs(w, if ok then SanctionRefused(old(w.row)) else old(w.row))
      ensures ok == !w.dead
      ensures w.dropped == (old(w.dropped) || (ok && old(w.live) && !old(w.row.state).SanctionUnknown?))
      ensures old(history) <= history && (old(AllSafe(history)) && Safe(w) ==> AllSafe(history))
    {
      var _ := Begin();
      ok := Mark(SanctionRefused(w.row), w.live && !w.row.state.SanctionUnknown?);
    }

    /** MarkIncidentEnforced. It forgets a live sanction exactly when the applied action makes none. */
    method MarkIncidentEnforced(action: Action) returns (ok: bool)
      requires Valid() && w.present
      modifies this`w, this`history, this`tick
      ensures Valid() && Steps(old(w), w) && ClaimUntouched(old(w), w) && Quiet(old(w), w)
      ensures Ticked(old(w), w, nature(old(tick))) && tick == old(tick) + 1
      ensures RowIs(w, if ok then old(w.row).(dryRun := false, action := action) else old(w.row))
      ensures ok == !w.dead
      ensures w.dropped == (old(w.dropped) || (ok && old(w.live) && !Punitive(action)))
      ensures old(history) <= history && (old(AllSafe(history)) && Safe(w) ==> AllSafe(history))
    {
      var _ := Begin();
      ok := Mark(w.row.(dryRun := false, action := action), w.live && !Punitive(action));
    }

    /** The registration and evidence writes the code checks the result of. */
    method SaveIncidentCard(card: int) returns (ok: bool)
      requires Valid() && w.present
      modifies this`w, this`history, this`tick, this`log
      ensures Valid() && Steps(old(w), w) && ClaimUntouched(old(w), w) && Quiet(old(w), w)
      ensures Ticked(old(w), w, nature(old(tick))) && tick == old(tick) + 1
      ensures ok <==> !w.dead && !nature(old(tick)).writeFails
      ensures w.dropped == old(w.dropped)
      ensures RowIs(w, if ok then old(w.row).(card := Some(card)) else old(w.row))
      ensures ok ==> forall c :: CurrentCard(w.row, c) <==> c == card
      ensures log == old(log) + (if ok then [CardRegistered] else [])
      ensures ok ==> !w.dead
      ensures old(history) <= history && (old(AllSafe(history)) && Safe(w) ==> AllSafe(history))
    {
      hide AllSafe, ClaimsKept, AllConsistent, NeverDies, Safe;
      var c := Begin();
      ok := !w.dead && !c.writeFails;
      if ok {
        Commit(w.(row := w.row.(card := Some(card)), actor := Job));
        log := log + [CardRegistered];
      }
    }

    method AddEvidence() returns (ok: bool)
      requires Valid() && w.present
      modifies this`w, this`history, this`tick, this`log
      ensures Valid() && Steps(old(w), w) && ClaimUntouched(old(w), w) && Quiet(old(w), w)
      ensures Ticked(old(w), w, nature(old(tick))) && tick == old(tick) + 1
      ensures ok <==> !w.dead && !nature(old(tick)).writeFails
      ensures w.dropped == old(w.dropped) && RowIs(w, old(w.row))
      ensures log == old(log) + (if ok then [EvidenceSaved] else [])
      ensures ok ==> !w.dead
      ensures old(history) <= history && (old(AllSafe(history)) && Safe(w) ==> AllSafe(history))
    {
      var c := Begin();
      ok := !w.dead && !c.writeFails;
      if ok {
        log := log + [EvidenceSaved];
      }
    }

    /** InsertSample: what the decision teaches. */
    method SaveSample() returns (ok: bool)
      requires Valid() && w.present
      modifies this`w, this`history, this`tick, this`log
      ensures Valid() && Steps(old(w), w) && ClaimUntouched(old(w), w) && Quiet(old(w), w)
      ensures Ticked(old(w), w, nature(old(tick))) && tick == old(tick) + 1
      ensures ok <==> !w.dead && !nature(old(tick)).writeFails
      ensures w.dropped == old(w.dropped) && RowIs(w, old(w.row))
      ensures log == old(log) + (if ok then [SampleSaved] else [])
      ensures old(history) <= history && (old(AllSafe(history)) && Safe(w) ==> AllSafe(history))
    {
      var c := Begin();
      ok := !w.dead && !c.writeFails;
      if ok {
        log := log + [SampleSaved];
      }
    }

    /** A read that may fail. */
    method Touch() returns (ok: bool)
      requires Valid()
      modifies this`w, this`history, this`tick
      ensures Valid() && Steps(old(w), w) && ClaimUntouched(old(w), w) && Quiet(old(w), w)
      ensures Ticked(old(w), w, nature(old(tick))) && tick == old(tick) + 1
      ensures w.dropped == old(w.dropped) && RowIs(w, old(w.row))
      ensures ok <==> !w.dead && !nature(old(tick)).writeFails
      ensures old(history) <= history && (old(AllSafe(history)) && Safe(w) ==> AllSafe(history))
    {
      var c := Begin();
      ok := !w.dead && !c.writeFails;
    }

    /** RecordDecision: the conditional UPDATE that claims a free decision column. */
    method RecordDecision(decision: Decision) returns (r: Claim)
      requires Valid() && w.present && !decision.Undecided?
      modifies this`w, this`history, this`tick
      ensures Valid() && Steps(old(w), w) && Quiet(old(w), w)
      ensures w.dropped == old(w.dropped) && RowIs(w, old(w.row))
      ensures w.dead == (old(w.dead) || nature(old(tick)).dies) && tick == old(tick) + 1
      ensures !w.dead && nature(old(tick)).cli.CliIdle? && !nature(old(tick)).writeFails && old(w.row.decision).Undecided? ==> r.Claimed?
      ensures r.Claimed? ==> w.holder.ByJob? && w.row.decision == decision && !w.dead
      ensures r.Claimed? ==> old(w.holder).NoOne? || old(w.holder).ByCli?
      ensures !r.Claimed? ==> ClaimUntouched(old(w), w)
      ensures !w.dead && nature(old(tick)).cli.CliIdle? && !nature(old(tick)).writeFails && !old(w.row.decision).Undecided? ==>
                r == AlreadyDecided(old(w.row.decision))
      ensures r.AlreadyDecided? ==> !r.existing.Undecided? && r.existing == w.row.decision
      ensures r.ClaimFailed? ==> w.dead || nature(old(tick)).writeFails
      ensures old(history) <= history && (old(AllSafe(history)) && Safe(w) ==> AllSafe(history))
    {
      hide AllSafe, ClaimsKept, AllConsistent, NeverDies, Safe;
      var c := Begin();
      if w.dead || c.writeFails {
        return ClaimFailed;
      }
      if !w.row.decision.Undecided? {
        return AlreadyDecided(w.row.decision);
      }
      Commit(ClaimTaken(w, decision));
      return Claimed;
    }

    /** ReleaseDecision gives back a claim taken by RecordDecision. */
    method ReleaseDecision(decision: Decision)
      requires Valid() && w.present && w.holder.ByJob? && w.row.decision == decision && !decision.Undecided?
      modifies this`w, this`history, this`tick
      ensures Valid() && Steps(old(w), w) && Quiet(old(w), w)
      ensures w.dropped == old(w.dropped) && RowIs(w, old(w.row))
      ensures w.dead == (old(w.dead) || nature(old(tick)).dies) && tick == old(tick) + 1
      ensures w.dead || (w.holder.NoOne? && w.row.decision.Undecided?)
      ensures w.dead ==> w.holder.ByJob? && w.row == old(w.row)
      ensures old(history) <= history && (old(AllSafe(history)) && Safe(w) ==> AllSafe(history))
    {
      var c := Begin();
      if w.dead {
        return;
      }
      Commit(ClaimReturned(w, w.row.(decision := Undecided)));
    }

    /** ClaimManualOverride: the claim and its eligibility check in one UPDATE. */
    method ClaimManualOverride() returns (failed: bool, claimed: bool)
      requires Valid() && w.present
      modifies this`w, this`history, this`tick
      ensures Valid() && Steps(old(w), w) && Quiet(old(w), w)
      ensures w.dead == (old(w.dead) || nature(old(tick)).dies) && tick == old(tick) + 1
      ensures !w.dead && nature(old(tick)).cli.CliIdle? && !nature(old(tick)).writeFails ==> claimed == Claimable(old(w.row))
      ensures w.dropped == old(w.dropped) && RowIs(w, old(w.row))
      ensures !w.dead && !nature(old(tick)).writeFails ==> !failed
      ensures claimed ==> !failed && !w.dead && w.holder.ByJob? && w.row.decision.Enforcing?
      ensures claimed ==> (old(w.holder).NoOne? || old(w.holder).ByCli?)
                          && Claimable(old(w.row).(decision := Undecided))
      ensures !claimed ==> ClaimUntouched(old(w), w)
      ensures !claimed && !failed ==> !Claimable(w.row)
      ensures old(history) <= history && (old(AllSafe(history)) && Safe(w) ==> AllSafe(history))
    {
      hide AllSafe, ClaimsKept, AllConsistent, NeverDies, Safe;
      var c := Begin();
      if w.dead || c.writeFails {
        return true, false;
      }
      if !Claimable(w.row) {
        return false, false;
      }
      Commit(ClaimTaken(w, Enforcing));
      return false, true;
    }

    /** FinishManualOverride: the sanction recorded and the claim given back in one transaction. */
    method FinishManualOverride(action: Action, sanctioned: bool) returns (ok: bool)
      requires Valid() && w.present && w.holder.ByJob? && w.row.decision.Enforcing?
      modifies this`w, this`history, this`tick
      ensures Valid() && Steps(old(w), w) && Quiet(old(w), w)
      ensures w.dead == (old(w.dead) || nature(old(tick)).dies) && tick == old(tick) + 1
      ensures w.dropped == old(w.dropped)
      ensures ok ==> !w.dead && w.holder.NoOne?
                     && w.row == OverrideFinished(old(w.row), action, sanctioned)
      ensures !ok ==> w.dead && w.holder.ByJob? && w.row == old(w.row)
      ensures old(history) <= history && (old(AllSafe(history)) && Safe(w) ==> AllSafe(history))
    {
      hide AllSafe, ClaimsKept, AllConsistent, NeverDies, Safe;
      var c := Begin();
      assert w.row == old(w.row);
      if w.dead {
        return false;
      }
      var row := OverrideFinished(w.row, action, sanctioned);
      Commit(ClaimReturned(w, row));
      return true;
    }

    // The Telegram port.

    /** BanMember, RestrictMember and BanSenderChat: what they do to the sender and to the record of it. */
    method SanctionCall(kind: Hold) returns (r: CallResult)
      requires Valid() && w.present && kind != Nothing
      modifies this`w, this`history, this`tick, this`log
      ensures Valid() && Steps(old(w), w) && ClaimUntouched(old(w), w)
      ensures Ticked(old(w), w, nature(old(tick))) && tick == old(tick) + 1
      ensures !w.dead ==> r == Seen(nature(old(tick)).call)
      ensures w.dropped == old(w.dropped) && RowIs(w, old(w.row))
      ensures w.present == old(w.present) && w.sanctions == old(w.sanctions)
      ensures w.ever == (old(w.ever) || w.live)
      ensures log == old(log) + (if w.dead then [] else [SanctionIssued])
      ensures !w.dead && nature(old(tick)).call.LostApplied? ==> w.hold == kind
      ensures r.CallOk? ==> !w.dead && w.live && w.hold == kind
      ensures r.CallRefused? ==> !w.dead && w.live == old(w.live) && w.hold == old(w.hold)
      ensures r.CallLost? ==> if w.dead then w.live == old(w.live) && w.hold == old(w.hold)
                              else w.live && (w.hold == kind || w.hold == old(w.hold))
      ensures old(history) <= history && (old(AllSafe(history)) && Safe(w) ==> AllSafe(history))
    {
      hide AllSafe, ClaimsKept, AllConsistent, NeverDies, Safe;
      var c := Begin();
      if w.dead {
        return CallLost;
      }
      Commit(Issued(w, kind, c.call));
      log := log + [SanctionIssued];
      return Seen(c.call);
    }

    /** UnbanMember (only if banned), UnrestrictMember and UnbanSenderChat, named by what they lift. */
    method LiftCall(lift: Hold) returns (ok: bool)
      requires Valid() && w.present && lift != Nothing
      modifies this`w, this`history, this`tick, this`log
      ensures Valid() && Steps(old(w), w) && ClaimUntouched(old(w), w)
      ensures Ticked(old(w), w, nature(old(tick))) && tick == old(tick) + 1
      ensures w.dropped == old(w.dropped) && RowIs(w, old(w.row))
      ensures w.present == old(w.present) && w.sanctions == old(w.sanctions) && w.live == old(w.live) && w.ever == old(w.ever)
      ensures log == old(log) + (if w.dead then [] else [LiftIssued(lift)])
      ensures w.hold == Nothing || w.hold == old(w.hold)
      ensures ok ==> w.hold == if old(w.hold) == lift then Nothing else old(w.hold)
      ensures ok <==> !w.dead && nature(old(tick)).call.Landed?
      ensures old(history) <= history && (old(AllSafe(history)) && Safe(w) ==> AllSafe(history))
    {
      hide AllSafe, ClaimsKept, AllConsistent, NeverDies, Safe;
      var c := Begin();
      if w.dead {
        return false;
      }
      Commit(LiftTried(w, lift, c.call));
      log := log + [LiftIssued(lift)];
      return c.call.Landed?;
    }

    /** CopyMessages into the admin chat; a failed call and an empty copy are the same zero. */
    method CopyMessages() returns (copies: nat)
      requires Valid() && w.present
      modifies this`w, this`history, this`tick, this`log
      ensures Valid() && Steps(old(w), w) && ClaimUntouched(old(w), w) && Quiet(old(w), w)
      ensures Ticked(old(w), w, nature(old(tick))) && tick == old(tick) + 1
      ensures copies == if !w.dead && nature(old(tick)).call.Landed? then nature(old(tick)).copies else 0
      ensures w.dropped == old(w.dropped) && RowIs(w, old(w.row))
      ensures log == old(log) + (if copies > 0 then [EvidenceCopied(copies)] else [])
      ensures old(history) <= history && (old(AllSafe(history)) && Safe(w) ==> AllSafe(history))
    {
      var c := Begin();
      if w.dead || !c.call.Landed? || c.copies == 0 {
        return 0;
      }
      log := log + [EvidenceCopied(c.copies)];
      return c.copies;
    }

    /** SendAdmin: a published card has a message id no earlier card had. */
    method SendAdmin() returns (sent: bool, messageId: nat)
      requires Valid() && w.present
      modifies this`w, this`history, this`tick, this`log
      ensures Valid() && Steps(old(w), w) && ClaimUntouched(old(w), w) && Quiet(old(w), w)
      ensures Ticked(old(w), w, nature(old(tick))) && tick == old(tick) + 1
      ensures sent <==> !w.dead && nature(old(tick)).call.Landed?
      ensures w.dropped == old(w.dropped) && RowIs(w, old(w.row))
      ensures sent ==> !w.dead
      ensures log == old(log) + (if w.dead then [] else [CardIssued])
      ensures messageId == old(tick) && tick > messageId
      ensures old(history) <= history && (old(AllSafe(history)) && Safe(w) ==> AllSafe(history))
    {
      messageId := tick;
      var c := Begin();
      if !w.dead {
        log := log + [CardIssued];
      }
      sent := !w.dead && c.call.Landed?;
    }

    /** DeleteMessages in the source chat. */
    method DeleteOriginals() returns (ok: bool)
      requires Valid() && w.present
      modifies this`w, this`history, this`tick, this`log
      ensures Valid() && Steps(old(w), w) && ClaimUntouched(old(w), w) && Quiet(old(w), w)
      ensures Ticked(old(w), w, nature(old(tick))) && tick == old(tick) + 1
      ensures w.dropped == old(w.dropped) && RowIs(w, old(w.row))
      ensures log == old(log) + (if w.dead then [] else [SourceDeleteIssued(ok)])
      ensures ok <==> !w.dead && nature(old(tick)).call.Landed?
      ensures old(history) <= history && (old(AllSafe(history)) && Safe(w) ==> AllSafe(history))
    {
      var c := Begin();
      if w.dead {
        return false;
      }
      log := log + [SourceDeleteIssued(c.call.Landed?)];
      return c.call.Landed?;
    }

    // Steps of the account the theorems are about; they touch neither the row nor Telegram.

    /** An Enforce run reports its sanction. */
    method NoteSanctioned()
      requires Valid() && w.present
      modifies this`w, this`history
      ensures Valid() && w == old(w).(sanctions := old(w.sanctions) + (if w.dead then 0 else 1), actor := Job)
      ensures old(history) <= history && (old(AllSafe(history)) && Safe(w) ==> AllSafe(history))
    {
      Commit(w.(sanctions := w.sanctions + (if w.dead then 0 else 1), actor := Job));
    }

    /** Every call of an undo was answered with success. */
    method NoteLifted()
      requires Valid() && w.present
      modifies this`w, this`history
      ensures Valid() && w == old(w).(live := old(w.hold) != Nothing, actor := Job)
      ensures old(history) <= history && (old(AllSafe(history)) && Safe(w) ==> AllSafe(history))
    {
      Commit(w.(live := w.hold != Nothing, actor := Job));
    }

    /** A press ends with its claim standing. */
    method NoteSettled()
      requires Valid() && w.present && w.holder.ByJob? && !w.row.decision.Enforcing?
      modifies this`w, this`history
      ensures Valid() && w == old(w).(holder := if w.dead then ByJob else Settled, actor := Job)
      ensures old(history) <= history && (old(AllSafe(history)) && Safe(w) ==> AllSafe(history))
    {
      Commit(w.(holder := if w.dead then ByJob else Settled, actor := Job));
    }

    /** The next job runs in a live process; a claim of the dead one is never given back. */
    method NextJob()
      requires Valid()
      modifies this`w, this`history
      ensures Valid() && !w.holder.ByJob? && !w.dead
      ensures w == old(w).(dead := false, holder := w.holder, actor := Restart)
      ensures w.holder == if old(w.holder).ByJob? then Orphan else old(w.holder)
      ensures old(history) <= history && (old(AllSafe(history)) ==> AllSafe(history))
    {
      assert old(AllSafe(history)) ==> Safe(history[|history|-1]);
      Commit(w.(dead := false, holder := if w.holder.ByJob? then Orphan else w.holder, actor := Restart));
    }
  }

  lemma SmoothParts(nature: nat -> Choice, from: nat, mid: nat, to: nat)
    requires from <= mid <= to
    ensures Smooth(nature, from, to) <==> Smooth(nature, from, mid) && Smooth(nature, mid, to)
    ensures from < mid && Smooth(nature, from, mid) ==> Fine(nature(from))
    ensures mid == from + 1 ==> (Smooth(nature, from, mid) <==> Fine(nature(from)))
    ensures to == mid + 1 ==> (Smooth(nature, mid, to) <==> Fine(nature(mid)))
  {
  }

  /** Two stretches make one. */
  lemma Through(a: World, b: World, c: World)
    requires Steps(a, b) && Steps(b, c)
    ensures Steps(a, c) && (!c.dead ==> !b.dead && !a.dead)
    ensures ClaimUntouched(a, b) && ClaimUntouched(b, c) ==> ClaimUntouched(a, c)
    ensures Quiet(a, b) && Quiet(b, c) ==> Quiet(a, c)
  {
  }

  /** The state a history ends in is one of it. */
  lemma LastSafe(i: Incident)
    requires i.Valid()
    ensures Consistent(i.w) && (AllSafe(i.history) ==> Safe(i.w))
  {
    assert i.history[|i.history|-1] == i.w;
  }
}
