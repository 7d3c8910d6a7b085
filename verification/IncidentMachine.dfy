/** internal/incident: the machine that drives one incident. Evidence and the admin
    card come before any sanction; a sanction's outcome is recorded before its claim is
    given back. */
module IncidentMachine {
  import opened Options
  import opened IncidentRow
  import opened IncidentStore

  datatype Signal = Detector | Blocklist | ManualSpam | ManualBan

  /** What a detector, an edit or a moderator's command hands to the machine. */
  datatype Report = Report(action: Action, dryRun: bool, reviewOnly: bool, signals: seq<Signal>)

  datatype Outcome = Outcome(sanctioned: bool, deleted: bool, call: CallResult)

  predicate ActsWithoutEvidence(r: Report) {
    exists k :: 0 <= k < |r.signals| && !r.signals[k].Detector?
  }

  predicate IsManual(r: Report) {
    exists k :: 0 <= k < |r.signals| && (r.signals[k].ManualSpam? || r.signals[k].ManualBan?)
  }

  /** Who decided, by the signals themselves: the blocklist and a moderator's two commands act without
      evidence, and only the commands are orders. */
  lemma SignalsDecide(r: Report)
    ensures ActsWithoutEvidence(r) <==> Blocklist in r.signals || ManualSpam in r.signals || ManualBan in r.signals
    ensures IsManual(r) <==> ManualSpam in r.signals || ManualBan in r.signals
  {
    forall s | s in r.signals
      ensures !s.Detector? ==> ActsWithoutEvidence(r)
      ensures s.ManualSpam? || s.ManualBan? ==> IsManual(r)
    {
      var k :| 0 <= k < |r.signals| && r.signals[k] == s;
    }
  }

  /** What the detectors and the commands produce: no report asks for nothing, quarantine
      only marks a review, a command is never simulated and always sanctions. */
  predicate WellFormed(r: Report) {
    && !r.action.NoAction?
    && (r.action.Quarantine? ==> r.reviewOnly)
    && (IsManual(r) ==> Punitive(r.action) && !r.dryRun && !r.reviewOnly)
  }

  /** The call that carries out a punitive action against the sender of this row. */
  function HoldFor(k: Key, a: Action): (h: Hold)
    ensures k.senderChatId != 0 <==> h.ChannelBanned?
    ensures k.senderChatId == 0 ==> (h.MemberBanned? <==> a.Ban?) && (h.MemberMuted? <==> !a.Ban?)
  {
    if k.senderChatId != 0 then ChannelBanned else if a.Ban? then MemberBanned else MemberMuted
  }

  /** A review is raised as observed, or with an action that sanctions nobody; the wiring does both. */
  predicate ReviewObserves(r: Report) {
    r.reviewOnly ==> r.dryRun || !Punitive(r.action)
  }

  // The invariants between jobs.

  predicate Clean(w: World) {
    !w.died && !w.dropped
  }

  predicate UnknownIsPunitive(w: World) {
    w.row.state.SanctionUnknown? ==> Punitive(w.row.action)
  }

  /** What Telegram holds is what the row says was done last. */
  predicate HoldFits(k: Key, w: World) {
    w.hold != Nothing ==>
      if k.senderChatId != 0 then w.hold.ChannelBanned?
      else !w.hold.ChannelBanned?
           && (w.row.state.SanctionUnknown? || w.hold == HoldFor(k, w.row.action))
  }

  /** Between two jobs, also after a death: unless the record was dropped, or the claim of a dead
      takeover stands, the row says what Telegram holds. */
  predicate HoldKnown(k: Key, w: World) {
    w.dropped || w.row.decision.Enforcing? || HoldFits(k, w)
  }

  /** A row between two jobs of a process that never died and lost no write. */
  predicate Boundary(k: Key, w: World) {
    && (w.live ==> Sanctioned(k, w.row))
    && HoldFits(k, w)
    && !w.row.decision.Enforcing?
    && (w.present ==> !w.row.state.Pending? && !w.row.state.Evidenced?)
  }

  /** At most one Enforce reported success, and the row it left accepts no second one. */
  predicate OneSanction(w: World) {
    !w.died ==> w.sanctions <= 1 && (w.sanctions == 1 ==> Closed(w.row))
  }

  predicate Resting(k: Key, w: World) {
    && !w.holder.ByJob?
    && UnknownIsPunitive(w) && OneSanction(w) && HoldKnown(k, w)
    && (Clean(w) ==> Boundary(k, w))
  }

  /** A row reads as sanctioned only where a sanction landed, or may have landed, at some time. */
  predicate Backed(k: Key, w: World) {
    Sanctioned(k, w.row) ==> w.ever
  }

  /** Enforcing with `action` cannot make this row read as sanctioned without a sanction call. */
  predicate Backing(r: Row, action: Action) {
    Punitive(action) || r.dryRun || !Punitive(r.action)
  }

  predicate ProcessBacking(row: Row, r: Report) {
    if r.dryRun || r.reviewOnly then row.dryRun || !Punitive(row.action) else Backing(row, r.action)
  }

  /** What is in force against the sender once `action` took effect, by action and by sender. */
  predicate TookHold(k: Key, a: World, b: World, action: Action) {
    match action
    case Ban => b.live && b.hold == if k.senderChatId != 0 then ChannelBanned else MemberBanned
    case Mute => b.live && b.hold == if k.senderChatId != 0 then ChannelBanned else MemberMuted
    case DeleteMute => b.live && b.hold == if k.senderChatId != 0 then ChannelBanned else MemberMuted
    case _ => b.live == a.live && b.hold == a.hold
  }

  /** The states evidence reporting writes. */
  predicate Reporting(s: State) {
    s.Evidenced? || s.EvidenceFailed? || s.NotActed?
  }

  /** A promotion from `from` on whose row is read and in which nothing goes wrong, except perhaps
      the copying. */
  ghost predicate PromotedWell(nature: nat -> Choice, from: nat, to: nat) {
    Fine(nature(from)) && !nature(from + 1).dies && Smooth(nature, from + 2, to)
  }

  // The order of effects inside one job.

  predicate Happened(log: seq<Event>, from: nat, k: nat, e: Event)
    requires k <= |log|
  {
    exists j :: from <= j < k && log[j] == e
  }

  predicate CopyMade(log: seq<Event>, from: nat, k: nat)
    requires k <= |log|
  {
    exists j :: from <= j < k && log[j].EvidenceCopied? && log[j].copies > 0
  }

  predicate Destructive(e: Event) {
    e.SanctionIssued? || e.SourceDeleteIssued?
  }

  /** Every sanction call and source delete since `from` came after a registered card and,
      unless the verdict acts without evidence, after a copy whose evidence rows were saved. */
  predicate EvidenceFirst(log: seq<Event>, from: nat, r: Report) {
    forall k :: from <= k < |log| && Destructive(log[k]) ==>
      && !r.dryRun && !r.reviewOnly
      && Happened(log, from, k, CardRegistered)
      && (ActsWithoutEvidence(r) || (CopyMade(log, from, k) && Happened(log, from, k, EvidenceSaved)))
  }

  /** The sanction half of enforcement. */
  method ApplyAction(i: Incident, action: Action) returns (r: CallResult)
    requires i.Valid() && i.w.present
    modifies i
    ensures i.Valid() && Steps(old(i.w), i.w) && ClaimUntouched(old(i.w), i.w)
    ensures i.w.dropped == old(i.w.dropped) && RowIs(i.w, old(i.w.row))
    ensures i.w.present == old(i.w.present) && i.w.sanctions == old(i.w.sanctions)
    ensures i.log == old(i.log) || i.log == old(i.log) + [SanctionIssued]
    ensures !Punitive(action) ==> r.CallOk? && i.w == old(i.w) && i.tick == old(i.tick)
    ensures Punitive(action) && r.CallOk? ==> !i.w.dead && i.w.live && i.w.hold == HoldFor(i.key, action)
    ensures r.CallRefused? ==> !i.w.dead && i.w.live == old(i.w.live) && i.w.hold == old(i.w.hold)
    ensures r.CallLost? ==> if i.w.dead then i.w.live == old(i.w.live) && i.w.hold == old(i.w.hold)
                            else i.w.live && (i.w.hold == HoldFor(i.key, action) || i.w.hold == old(i.w.hold))
    ensures old(i.tick) <= i.tick
    ensures i.w.ever == (old(i.w.ever) || i.w.live)
    ensures !old(i.w.dead) && Smooth(i.nature, old(i.tick), i.tick) ==> !i.w.dead && r.CallOk?
    ensures old(i.history) <= i.history
    ensures old(AllSafe(i.history)) && Safe(i.w) ==> AllSafe(i.history)
  {
    if !Punitive(action) {
      return CallOk;
    }
    r := i.SanctionCall(HoldFor(i.key, action));
  }

  /** Whatever happens while the sanction is applied, SanctionSince sees the row. */
  predicate Covered(w: World, action: Action) {
    || w.dropped
    || (w.row.decision.Enforcing? && w.holder.ByJob?)
    || Leftover(w.row)
    || (!Punitive(action) && !w.live)
  }

  /** Whatever became of the process, only this action's sanction can have been put on the sender,
      and only this action can have been written into the row. */
  predicate OnlyThis(k: Key, a: World, b: World, action: Action) {
    && (b.hold == a.hold || b.hold == HoldFor(k, action))
    && (b.row.action == a.row.action || b.row.action == action)
  }

  /** Room for one more sanction in the at-most-one account. */
  predicate Unsanctioned(w: World) {
    w.died || w.sanctions == 0
  }

  /** What an attempt at a sanction leaves in the row. */
  function Attempted(r: Row, action: Action, call: CallResult): Row {
    match call
    case CallOk => r.(state := Acted)
    case CallRefused => SanctionRefused(r)
    case CallLost => SanctionLost(r, action)
  }

  /** An attempt that forgets a sanction which may still be in force. */
  predicate Forgets(w: World, call: CallResult) {
    call.CallRefused? && w.live && !w.row.state.SanctionUnknown?
  }

  /** What an attempt does to the account of the sender, in a process that lives and writes. */
  predicate Accounted(k: Key, a: World, b: World, action: Action, call: CallResult) {
    && b.sanctions == a.sanctions + (if call.CallOk? then 1 else 0)
    && b.live == (a.live || (Punitive(action) && !call.CallRefused?))
    && b.dropped == (a.dropped || Forgets(a, call))
    && (if call.CallRefused? || !Punitive(action) then b.hold == a.hold
        else if call.CallOk? then b.hold == HoldFor(k, action)
        else b.hold == a.hold || b.hold == HoldFor(k, action))
  }

  /** Records how the sanction call ended. */
  method RecordOutcome(i: Incident, action: Action, call: CallResult)
    requires i.Valid() && i.w.present && (call.CallLost? ==> Punitive(action))
    modifies i
    ensures i.Valid() && Steps(old(i.w), i.w) && ClaimUntouched(old(i.w), i.w) && i.log == old(i.log)
    ensures i.w.live == old(i.w.live) && i.w.hold == old(i.w.hold)
    ensures i.w.sanctions == old(i.w.sanctions) + (if call.CallOk? && !old(i.w.dead) then 1 else 0)
    ensures RowIs(i.w, if i.w.dead then old(i.w.row) else Attempted(old(i.w.row), action, call))
    ensures i.w.dropped == (old(i.w.dropped) || (!i.w.dead && Forgets(old(i.w), call)))
    ensures old(i.tick) <= i.tick
    ensures i.w.ever == old(i.w.ever)
    ensures !old(i.w.dead) && Smooth(i.nature, old(i.tick), i.tick) ==> !i.w.dead
    ensures old(i.history) <= i.history
    ensures old(AllSafe(i.history)) && Safe(i.w) && (call.CallOk? ==> Safe(old(i.w).(sanctions := i.w.sanctions)))
            ==> AllSafe(i.history)
  {
    match call
    case CallOk =>
      i.NoteSanctioned();
      var _ := i.SetIncidentState(Acted);
    case CallRefused =>
      var _ := i.MarkSanctionRefused();
    case CallLost =>
      var _ := i.MarkSanctionUnknown(action);
  }

  /** What an attempt at a sanction leaves, however far its process got. */
  predicate Attempt(k: Key, a: World, b: World, action: Action, call: CallResult) {
    && (!Punitive(action) ==> call.CallOk?)
    && b.row.dryRun == a.row.dryRun && b.row.card == a.row.card
    && OnlyThis(k, a, b, action)
    && (UnknownIsPunitive(a) ==> UnknownIsPunitive(b))
    && (b.dropped ==> a.dropped || Forgets(a, call))
    && (Backing(a.row, action) && Sanctioned(k, b.row) ==> b.ever || Sanctioned(k, a.row))
    && (!b.dead ==> RowIs(b, Attempted(a.row, action, call)) && Accounted(k, a, b, action, call))
  }

  /** The first half of Enforce: the sanction and the record of how it ended. */
  method Sanction(i: Incident, action: Action) returns (call: CallResult)
    requires i.Valid() && i.w.present
    modifies i
    ensures i.Valid() && i.w.present && Steps(old(i.w), i.w) && ClaimUntouched(old(i.w), i.w)
    ensures i.log == old(i.log) || i.log == old(i.log) + [SanctionIssued]
    ensures Attempt(i.key, old(i.w), i.w, action, call)
    ensures old(i.tick) <= i.tick
    ensures !old(i.w.dead) && Smooth(i.nature, old(i.tick), i.tick) ==> !i.w.dead && call.CallOk?
    ensures old(i.history) <= i.history
    ensures old(AllSafe(i.history) && Covered(i.w, action) && Unsanctioned(i.w)) ==>
              AllSafe(i.history) && SafeWhenDone(i.w, call)
  {
    hide AllSafe, ClaimsKept, AllConsistent, Safe, Covered, SafeWhenDone, Steps, ClaimUntouched, Consistent, Incident.Valid,
         Smooth, Attempt, Attempted, Forgets, RowIs;
    LastSafe(i);
    call := ApplyAction(i, action);
    ghost var mid, at := i.w, i.tick;
    RecordOutcome(i, action, call);
    LastSafe(i);
    Through(old(i.w), mid, i.w);
    SmoothParts(i.nature, old(i.tick), at, i.tick);
    AttemptMade(i.key, old(i.w), mid, i.w, action, call);
    if old(AllSafe(i.history) && Covered(i.w, action) && Unsanctioned(i.w)) {
      SafeAcross(old(i.w), mid, i.w, action, call);
    }
  }

  lemma AttemptMade(k: Key, a: World, mid: World, b: World, action: Action, call: CallResult)
    requires Consistent(a) && Consistent(b) && Steps(a, mid) && Steps(mid, b)
    requires mid.dropped == a.dropped && RowIs(mid, a.row) && mid.sanctions == a.sanctions
    requires !Punitive(action) ==> call.CallOk? && mid == a
    requires Punitive(action) && call.CallOk? ==> mid.live && mid.hold == HoldFor(k, action)
    requires call.CallRefused? ==> mid.live == a.live && mid.hold == a.hold
    requires call.CallLost? ==> if mid.dead then mid.live == a.live && mid.hold == a.hold
                                else mid.live && (mid.hold == HoldFor(k, action) || mid.hold == a.hold)
    requires b.live == mid.live && b.hold == mid.hold
    requires b.sanctions == mid.sanctions + (if call.CallOk? && !mid.dead then 1 else 0)
    requires RowIs(b, if b.dead then mid.row else Attempted(mid.row, action, call))
    requires b.dropped == (mid.dropped || (!b.dead && Forgets(mid, call)))
    ensures Attempt(k, a, b, action, call)
  {
  }

  /** From before the call through its answer to the record of it, the row stays protected. */
  lemma SafeAcross(a: World, mid: World, b: World, action: Action, call: CallResult)
    requires Consistent(a) && Steps(a, mid) && Steps(mid, b) && ClaimUntouched(a, mid) && ClaimUntouched(mid, b)
    requires mid.dropped == a.dropped && RowIs(mid, a.row) && mid.sanctions == a.sanctions
    requires !Punitive(action) ==> call.CallOk? && mid == a
    requires call.CallRefused? ==> mid.live == a.live
    requires call.CallLost? && mid.dead ==> mid.live == a.live
    requires b.live == mid.live && b.sanctions == mid.sanctions + (if call.CallOk? && !mid.dead then 1 else 0)
    requires RowIs(b, if b.dead then mid.row else Attempted(mid.row, action, call))
    requires b.dropped == (mid.dropped || (!b.dead && Forgets(mid, call)))
    requires Safe(a) && Covered(a, action) && Unsanctioned(a)
    ensures Safe(mid) && Safe(b) && Safe(mid.(sanctions := b.sanctions)) && SafeWhenDone(b, call)
  {
  }

  /** The row stays protected when the originals are deleted and `cleaned` is recorded. */
  predicate SafeWhenDone(w: World, call: CallResult) {
    call.CallOk? && !w.dead && !w.dropped && w.live ==> Protects(w.row.(state := Cleaned))
  }

  /** The second half: the originals go, whether or not the sanction landed. */
  method RemoveOriginals(i: Incident, call: CallResult) returns (deleted: bool)
    requires i.Valid() && i.w.present
    modifies i
    ensures i.Valid() && Steps(old(i.w), i.w) && ClaimUntouched(old(i.w), i.w) && Quiet(old(i.w), i.w)
    ensures i.log == old(i.log) + [SourceDeleteIssued(deleted)] || (i.log == old(i.log) && !deleted && i.w.dead)
    ensures i.w.dropped == old(i.w.dropped)
    ensures RowIs(i.w, if call.CallOk? && deleted && !i.w.dead then old(i.w.row).(state := Cleaned) else old(i.w.row))
    ensures old(i.tick) <= i.tick
    ensures !old(i.w.dead) && Smooth(i.nature, old(i.tick), i.tick) ==> !i.w.dead && deleted
    ensures old(i.history) <= i.history
    ensures old(AllSafe(i.history)) && Safe(i.w) ==> AllSafe(i.history)
  {
    deleted := i.DeleteOriginals();
    if call.CallOk? && deleted {
      var _ := i.SetIncidentState(Cleaned);
    }
  }

  /** At most a sanction call and then the delete of the originals, with its answer; `ran` says that
      the delete was tried. */
  predicate OnlyEnforced(a: seq<Event>, b: seq<Event>, deleted: bool, ran: bool) {
    || b == a + [SourceDeleteIssued(deleted)] || b == a + [SanctionIssued] + [SourceDeleteIssued(deleted)]
    || (!ran && !deleted && (b == a || b == a + [SanctionIssued]))
  }

  /** What an enforcement leaves in the row and in the account of the sender. */
  predicate EnforceLeft(k: Key, a: World, b: World, action: Action, out: Outcome) {
    && RowIs(b, RowLeft(a.row, action, out))
    && Accounted(k, a, b, action, out.call)
  }

  function RowLeft(r: Row, action: Action, out: Outcome): Row {
    var after := Attempted(r, action, out.call);
    if out.sanctioned && out.deleted then after.(state := Cleaned) else after
  }

  lemma SafeToTheEnd(mid: World, b: World, call: CallResult, deleted: bool)
    requires Consistent(mid) && Safe(mid) && SafeWhenDone(mid, call)
    requires Steps(mid, b) && ClaimUntouched(mid, b) && Quiet(mid, b) && b.dropped == mid.dropped
    requires RowIs(b, if call.CallOk? && deleted && !b.dead then mid.row.(state := Cleaned) else mid.row)
    ensures Safe(b)
  {
  }

  /** What an enforcement leaves, however far its process got. */
  predicate Enforcement(k: Key, a: World, b: World, action: Action, out: Outcome) {
    && (!Punitive(action) ==> out.sanctioned)
    && (out.sanctioned && !b.dead ==> Applied(b.row.state))
    && b.row.dryRun == a.row.dryRun && b.row.card == a.row.card
    && OnlyThis(k, a, b, action)
    && (UnknownIsPunitive(a) ==> UnknownIsPunitive(b))
    && (b.dropped ==> a.dropped || Forgets(a, out.call))
    && (Backing(a.row, action) && Sanctioned(k, b.row) ==> b.ever || Sanctioned(k, a.row))
    && (!b.dead ==> EnforceLeft(k, a, b, action, out))
  }

  /** Enforce: sanction, record how it ended, delete the originals. */
  method Enforce(i: Incident, action: Action) returns (out: Outcome)
    requires i.Valid() && i.w.present
    modifies i
    ensures i.Valid() && i.w.present && Steps(old(i.w), i.w) && ClaimUntouched(old(i.w), i.w)
    ensures OnlyEnforced(old(i.log), i.log, out.deleted, !i.w.dead)
    ensures out.sanctioned <==> out.call.CallOk?
    ensures Enforcement(i.key, old(i.w), i.w, action, out)
    ensures old(i.tick) <= i.tick
    ensures !old(i.w.dead) && Smooth(i.nature, old(i.tick), i.tick) ==> !i.w.dead && out.sanctioned && out.deleted
    ensures old(i.history) <= i.history
    ensures old(AllSafe(i.history) && Covered(i.w, action) && Unsanctioned(i.w)) ==> AllSafe(i.history)
  {
    hide AllSafe, ClaimsKept, AllConsistent, Covered, Consistent, Steps, ClaimUntouched, Safe, SafeWhenDone, Quiet, RowIs,
         Incident.Valid, Smooth, Attempt, Enforcement;
    var call := Sanction(i, action);
    LastSafe(i);
    ghost var mid, at := i.w, i.tick;
    var deleted := RemoveOriginals(i, call);
    out := Outcome(call.CallOk?, deleted, call);
    Through(old(i.w), mid, i.w);
    SmoothParts(i.nature, old(i.tick), at, i.tick);
    EnforcementDone(i.key, old(i.w), mid, i.w, action, out);
    if old(AllSafe(i.history) && Covered(i.w, action) && Unsanctioned(i.w)) {
      SafeToTheEnd(mid, i.w, call, deleted);
    }
  }

  lemma EnforcementDone(k: Key, a: World, mid: World, b: World, action: Action, out: Outcome)
    requires Attempt(k, a, mid, action, out.call) && out.sanctioned == out.call.CallOk?
    requires Steps(mid, b) && Quiet(mid, b) && b.dropped == mid.dropped
    requires RowIs(b, if out.call.CallOk? && out.deleted && !b.dead then mid.row.(state := Cleaned) else mid.row)
    ensures Enforcement(k, a, b, action, out)
  {
  }

  /** sendCard: the card is published, then registered as the incident's current one. */
  method SendCard(i: Incident) returns (sent: bool)
    requires i.Valid() && i.w.present
    modifies i
    ensures i.Valid() && Steps(old(i.w), i.w) && ClaimUntouched(old(i.w), i.w) && Quiet(old(i.w), i.w)
    ensures i.w.dropped == old(i.w.dropped)
    ensures RowIs(i.w, old(i.w.row).(card := i.w.row.card))
    ensures old(i.log) <= i.log <= old(i.log) + [CardIssued, CardRegistered]
    ensures sent ==> |i.log| == |old(i.log)| + 2
    ensures !i.w.dead ==> |i.log| > |old(i.log)|
    ensures old(i.tick) <= i.tick
    ensures !old(i.w.dead) && Smooth(i.nature, old(i.tick), i.tick) ==> !i.w.dead && sent
    ensures old(i.history) <= i.history
    ensures old(AllSafe(i.history)) && Safe(i.w) ==> AllSafe(i.history)
  {
    hide AllSafe, ClaimsKept, AllConsistent;
    LastSafe(i);
    var published, messageId := i.SendAdmin();
    if !published {
      return false;
    }
    sent := i.SaveIncidentCard(messageId);
  }

  predicate SameRowButStateAndCard(a: Row, b: Row) {
    a.dryRun == b.dryRun && a.action == b.action
  }

  /** Reporting evidence moves the row's state and card and nothing else. */
  predicate ReportedOnly(k: Key, a: World, b: World) {
    && Quiet(a, b) && b.dropped == a.dropped && SameRowButStateAndCard(a.row, b.row)
    && (b.row.state == a.row.state || Reporting(b.row.state))
    && (UnknownIsPunitive(a) ==> UnknownIsPunitive(b))
    && (Sanctioned(k, b.row) ==> Sanctioned(k, a.row))
  }

  /** No state of this row can be unsafe before its sanction: it is claimed, or nothing was done yet. */
  predicate Harmless(w: World) {
    w.dropped || (w.row.decision.Enforcing? && w.holder.ByJob?) || !w.live
  }

  /** The evidence half of process; `go` says that enforcement may follow. */
  method ReportEvidence(i: Incident, r: Report) returns (go: bool)
    requires i.Valid() && i.w.present
    modifies i
    ensures i.Valid() && i.w.present && Steps(old(i.w), i.w) && ClaimUntouched(old(i.w), i.w) && ReportedOnly(i.key, old(i.w), i.w)
    ensures old(i.log) <= i.log
    ensures forall k :: |old(i.log)| <= k < |i.log| ==> !Destructive(i.log[k])
    ensures !i.w.dead ==> Happened(i.log, |old(i.log)|, |i.log|, CardIssued)
    ensures go ==> Happened(i.log, |old(i.log)|, |i.log|, CardRegistered)
    ensures go ==> ActsWithoutEvidence(r)
                   || (CopyMade(i.log, |old(i.log)|, |i.log|) && Happened(i.log, |old(i.log)|, |i.log|, EvidenceSaved))
    ensures go ==> i.w.row.state == old(i.w.row.state) || i.w.row.state.Evidenced?
    ensures !go && !i.w.dead ==> i.w.row.state.EvidenceFailed? || i.w.row.state.NotActed?
    ensures old(i.tick) <= i.tick
    ensures !old(i.w.dead) && !i.nature(old(i.tick)).dies && Smooth(i.nature, old(i.tick) + 1, i.tick) ==>
              && !i.w.dead && (go <==> Copied(i.nature(old(i.tick))) || ActsWithoutEvidence(r))
              && (Copied(i.nature(old(i.tick))) ==> i.w.row.state.Evidenced?)
    ensures i.tick > old(i.tick)
    ensures old(i.history) <= i.history
    ensures old(AllSafe(i.history) && Harmless(i.w)) ==> AllSafe(i.history)
  {
    hide AllSafe, ClaimsKept, AllConsistent, Consistent, Incident.Valid;
    LastSafe(i);
    var copies := i.CopyMessages();
    if copies == 0 {
      go := ReportWithoutEvidence(i, r);
      ReportedCard(old(i.log), i.log);
      return;
    }
    ghost var copied := i.log;
    assert copied[|old(i.log)|] == EvidenceCopied(copies);
    go := ReportWithCopies(i);
    CopiesReported(copied, i.log, |old(i.log)|, copies);
  }

  /** What the log of a report with copies tells. */
  lemma CopiesReported(copied: seq<Event>, log: seq<Event>, from: nat, copies: nat)
    requires from < |copied| && |copied| == from + 1 && copied[from] == EvidenceCopied(copies) && copies > 0
    requires copied <= log <= copied + [CardIssued, CardRegistered, EvidenceSaved]
    ensures forall k :: from <= k < |log| ==> !Destructive(log[k])
    ensures |log| > |copied| ==> Happened(log, from, |log|, CardIssued)
    ensures |log| == |copied| + 3 ==>
              CopyMade(log, from, |log|) && Happened(log, from, |log|, CardRegistered) && Happened(log, from, |log|, EvidenceSaved)
  {
    var whole := copied + [CardIssued, CardRegistered, EvidenceSaved];
    assert log == whole[..|log|];
    assert |log| > |copied| ==> log[|copied|] == CardIssued;
    assert |log| == |copied| + 3 ==>
        log[from] == EvidenceCopied(copies) && log[|copied| + 1] == CardRegistered && log[|copied| + 2] == EvidenceSaved;
  }

  /** What the log of a report without copies tells. */
  lemma ReportedCard(before: seq<Event>, log: seq<Event>)
    requires before <= log <= before + [CardIssued, CardRegistered]
    ensures forall k :: |before| <= k < |log| ==> !Destructive(log[k])
    ensures |log| > |before| ==> Happened(log, |before|, |log|, CardIssued)
    ensures |log| == |before| + 2 ==> Happened(log, |before|, |log|, CardRegistered)
  {
    var whole := before + [CardIssued, CardRegistered];
    assert log == whole[..|log|];
    assert |log| > |before| ==> log[|before|] == CardIssued;
    assert |log| == |before| + 2 ==> log[|before| + 1] == CardRegistered;
  }

  /** At least one copy reached the admin chat. */
  method ReportWithCopies(i: Incident) returns (go: bool)
    requires i.Valid() && i.w.present
    modifies i
    ensures i.Valid() && Steps(old(i.w), i.w) && ClaimUntouched(old(i.w), i.w) && ReportedOnly(i.key, old(i.w), i.w)
    ensures old(i.log) <= i.log <= old(i.log) + [CardIssued, CardRegistered, EvidenceSaved]
    ensures go ==> |i.log| == |old(i.log)| + 3
    ensures !i.w.dead ==> |i.log| > |old(i.log)|
    ensures go ==> i.w.row.state == old(i.w.row.state) || i.w.row.state.Evidenced?
    ensures !go && !i.w.dead ==> i.w.row.state.NotActed?
    ensures old(i.tick) <= i.tick
    ensures !old(i.w.dead) && Smooth(i.nature, old(i.tick), i.tick) ==> !i.w.dead && go && i.w.row.state.Evidenced?
    ensures old(i.history) <= i.history
    ensures old(AllSafe(i.history) && Harmless(i.w)) ==> AllSafe(i.history)
  {
    hide AllSafe, ClaimsKept, AllConsistent, Consistent, Incident.Valid;
    LastSafe(i);
    go := SendCard(i);
    if go {
      go := i.AddEvidence();
    }
    var _ := i.SetIncidentState(if go then Evidenced else NotActed);
  }

  /** The copy failed or copied nothing: the card goes out either way, and only a blocklist
      hit or a moderator's order goes on. */
  method ReportWithoutEvidence(i: Incident, r: Report) returns (go: bool)
    requires i.Valid() && i.w.present
    modifies i
    ensures i.Valid() && Steps(old(i.w), i.w) && ClaimUntouched(old(i.w), i.w) && ReportedOnly(i.key, old(i.w), i.w)
    ensures old(i.log) <= i.log <= old(i.log) + [CardIssued, CardRegistered]
    ensures go ==> |i.log| == |old(i.log)| + 2 && ActsWithoutEvidence(r)
    ensures !i.w.dead ==> |i.log| > |old(i.log)|
    ensures go ==> i.w.row.state == old(i.w.row.state)
    ensures !go && !i.w.dead ==> i.w.row.state.EvidenceFailed? || i.w.row.state.NotActed?
    ensures old(i.tick) <= i.tick
    ensures !old(i.w.dead) && Smooth(i.nature, old(i.tick), i.tick) ==> !i.w.dead && (go <==> ActsWithoutEvidence(r))
    ensures old(i.history) <= i.history
    ensures old(AllSafe(i.history) && Harmless(i.w)) ==> AllSafe(i.history)
  {
    hide AllSafe, ClaimsKept, AllConsistent, Consistent, Incident.Valid;
    LastSafe(i);
    var acting := ActsWithoutEvidence(r);
    if !acting {
      var _ := i.SetIncidentState(EvidenceFailed);
    }
    var sent := SendCard(i);
    if !acting {
      return false;
    }
    if !sent {
      var _ := i.SetIncidentState(NotActed);
      return false;
    }
    return true;
  }

  /** Before process: a fresh row of this very report, or a claimed row nothing was done to. */
  predicate Ready(w: World, r: Report) {
    w.dropped || (
    && !w.live
    && (|| (w.row.decision.Enforcing? && w.holder.ByJob?)
        || (w.row.state.Pending? && w.row.dryRun == r.dryRun && w.row.action == r.action)))
  }

  /** `done` after a complete enforcement. */
  method Close(i: Incident, out: Outcome) returns (failed: bool)
    requires i.Valid() && i.w.present && (out.sanctioned && !i.w.dead ==> Applied(i.w.row.state))
    modifies i
    ensures i.Valid() && Steps(old(i.w), i.w) && ClaimUntouched(old(i.w), i.w) && Quiet(old(i.w), i.w)
    ensures i.log == old(i.log) && i.w.dropped == old(i.w.dropped)
    ensures RowIs(i.w, if out.sanctioned && out.deleted && !i.w.dead then old(i.w.row).(state := Done) else old(i.w.row))
    ensures failed <==> !out.sanctioned || !out.deleted || i.w.dead
    ensures old(i.tick) <= i.tick
    ensures !old(i.w.dead) && Smooth(i.nature, old(i.tick), i.tick) ==> !i.w.dead
    ensures old(i.history) <= i.history
    ensures old(AllSafe(i.history)) ==> AllSafe(i.history)
  {
    failed := !out.sanctioned || !out.deleted;
    if !failed {
      LastSafe(i);
      var ok := i.SetIncidentState(Done);
      failed := !ok;
    }
  }

  /** What an enforcement leaves of a row nothing had been done to. */
  predicate EnforceEnd(k: Key, a: World, b: World, action: Action, sanctioned: bool) {
    if sanctioned then
      && Applied(b.row.state) && b.row.action == a.row.action
      && b.live == Punitive(action)
      && b.hold == (if b.live then HoldFor(k, action) else Nothing)
    else if b.live then
      && Punitive(action) && b.row.state.SanctionUnknown? && b.row.action == action
      && (b.hold == Nothing || b.hold == HoldFor(k, action))
    else
      && b.row.action == a.row.action && b.hold.Nothing?
      && b.row.state == (if a.row.state.SanctionUnknown? then SanctionUnknown else NotActed)
  }

  /** A complete enforcement is `done`; every other one says in the row and in the account how far it got. */
  predicate EnforceRun(k: Key, a: World, b: World, action: Action, sanctioned: bool, failed: bool) {
    && b.sanctions == a.sanctions + (if sanctioned then 1 else 0)
    && (!a.live ==> EnforceEnd(k, a, b, action, sanctioned) && b.dropped == a.dropped)
    && (!failed ==> sanctioned && b.row.state.Done?)
    && (sanctioned ==> Applied(b.row.state) && b.row.action == a.row.action && TookHold(k, a, b, action))
  }

  lemma EndOfEnforcement(k: Key, a: World, mid: World, b: World, action: Action, out: Outcome)
    requires Consistent(a) && (!Punitive(action) ==> out.sanctioned) && out.sanctioned == out.call.CallOk?
    requires EnforceLeft(k, a, mid, action, out)
    requires Quiet(mid, b) && b.dropped == mid.dropped
    requires RowIs(b, if out.sanctioned && out.deleted then mid.row.(state := Done) else mid.row)
    ensures EnforceRun(k, a, b, action, out.sanctioned, !out.sanctioned || !out.deleted)
  {
  }

  method CloseRun(i: Incident, ghost a: World, action: Action, out: Outcome) returns (failed: bool)
    requires i.Valid() && i.w.present && (out.sanctioned && !i.w.dead ==> Applied(i.w.row.state))
    requires Consistent(a) && (!Punitive(action) ==> out.sanctioned) && out.sanctioned == out.call.CallOk?
    requires !i.w.dead ==> EnforceLeft(i.key, a, i.w, action, out)
    modifies i
    ensures i.Valid() && Steps(old(i.w), i.w) && ClaimUntouched(old(i.w), i.w)
    ensures i.log == old(i.log) && i.w.dropped == old(i.w.dropped) && i.w.row.dryRun == old(i.w.row.dryRun)
    ensures i.w.hold == old(i.w.hold) && i.w.row.action == old(i.w.row.action)
    ensures old(UnknownIsPunitive(i.w)) ==> UnknownIsPunitive(i.w)
    ensures i.w.dead ==> failed
    ensures !i.w.dead ==> EnforceRun(i.key, a, i.w, action, out.sanctioned, failed)
    ensures old(i.tick) <= i.tick
    ensures !old(i.w.dead) && Smooth(i.nature, old(i.tick), i.tick) ==> !i.w.dead && (failed <==> !out.sanctioned || !out.deleted)
    ensures Sanctioned(i.key, i.w.row) ==> old(Sanctioned(i.key, i.w.row))
    ensures i.w.live == old(i.w.live) && i.w.ever == old(i.w.ever)
    ensures !failed ==> out.sanctioned && out.deleted
    ensures old(i.history) <= i.history
    ensures old(AllSafe(i.history)) ==> AllSafe(i.history)
  {
    ghost var mid := i.w;
    failed := Close(i, out);
    if !i.w.dead {
      EndOfEnforcement(i.key, a, mid, i.w, action, out);
    }
  }

  /** What an enforcement and its closing leave, however far their process got. */
  predicate EnforcedRun(k: Key, a: World, b: World, action: Action, sanctioned: bool, failed: bool) {
    && b.row.dryRun == a.row.dryRun && OnlyThis(k, a, b, action)
    && (UnknownIsPunitive(a) ==> UnknownIsPunitive(b))
    && (!a.live ==> b.dropped == a.dropped)
    && (b.dead ==> failed)
    && (Backing(a.row, action) && Sanctioned(k, b.row) ==> b.ever || Sanctioned(k, a.row))
    && (!b.dead ==> EnforceRun(k, a, b, action, sanctioned, failed))
  }

  /** The enforcement half of process. */
  method EnforceAndClose(i: Incident, action: Action) returns (sanctioned: bool, failed: bool)
    requires i.Valid() && i.w.present
    modifies i
    ensures i.Valid() && Steps(old(i.w), i.w) && ClaimUntouched(old(i.w), i.w)
    ensures old(i.log) <= i.log
    ensures forall k :: |old(i.log)| <= k < |i.log| ==> Destructive(i.log[k])
    ensures EnforcedRun(i.key, old(i.w), i.w, action, sanctioned, failed)
    ensures old(i.tick) <= i.tick
    ensures !old(i.w.dead) && Smooth(i.nature, old(i.tick), i.tick) ==> !i.w.dead && sanctioned && !failed
    ensures !failed ==> Happened(i.log, |old(i.log)|, |i.log|, SourceDeleteIssued(true))
    ensures i.w.present
    ensures old(i.history) <= i.history
    ensures old(AllSafe(i.history) && Covered(i.w, action) && Unsanctioned(i.w)) ==> AllSafe(i.history)
  {
    hide AllSafe, ClaimsKept, AllConsistent, Safe, Covered, Steps, ClaimUntouched, Accounted, Smooth, Backing, Sanctioned;
    var out := Enforce(i, action);
    ghost var mid, log, at := i.w, i.log, i.tick;
    sanctioned := out.sanctioned;
    failed := CloseRun(i, old(i.w), action, out);
    Through(old(i.w), mid, i.w);
    SmoothParts(i.nature, old(i.tick), at, i.tick);
    DeleteLogged(old(i.log), log, out.deleted, !mid.dead);
  }

  /** What the log of an enforcement tells. */
  lemma DeleteLogged(a: seq<Event>, b: seq<Event>, deleted: bool, ran: bool)
    requires OnlyEnforced(a, b, deleted, ran)
    ensures a <= b && forall k :: |a| <= k < |b| ==> Destructive(b[k])
    ensures deleted <==> Happened(b, |a|, |b|, SourceDeleteIssued(true))
    ensures ran ==> Happened(b, |a|, |b|, SourceDeleteIssued(deleted))
  {
    if b == a + [SourceDeleteIssued(deleted)] || b == a + [SanctionIssued] + [SourceDeleteIssued(deleted)] {
      assert b[|b|-1] == SourceDeleteIssued(deleted);
    }
  }


  /** What process leaves, however far it got: the row, the account and what is in force. */
  predicate Processed(k: Key, a: World, b: World, r: Report, sanctioned: bool, failed: bool) {
    && b.row.dryRun == a.row.dryRun && OnlyThis(k, a, b, r.action)
    && (UnknownIsPunitive(a) ==> UnknownIsPunitive(b))
    && (!a.live ==> b.dropped == a.dropped)
    && (sanctioned ==> !r.dryRun && !r.reviewOnly)
    && (r.dryRun || r.reviewOnly ==> Quiet(a, b))
    && (ProcessBacking(a.row, r) && Sanctioned(k, b.row) ==> b.ever || Sanctioned(k, a.row))
    && (!b.dead ==> b.sanctions == a.sanctions + (if sanctioned then 1 else 0))
    && (!b.dead && !a.live ==> ProcessEnd(k, a, b, r, sanctioned))
    && (!failed ==> !b.dead && b.row.state.Done? && (sanctioned <==> !r.dryRun && !r.reviewOnly))
    && (!b.dead && sanctioned ==>
          Applied(b.row.state) && b.row.action == a.row.action && TookHold(k, a, b, r.action))
  }

  /** process: the evidence-first path of a fresh incident and of a promoted review. */
  method Process(i: Incident, r: Report) returns (sanctioned: bool, failed: bool)
    requires i.Valid() && i.w.present
    modifies i
    ensures i.Valid() && Steps(old(i.w), i.w) && ClaimUntouched(old(i.w), i.w)
    ensures old(i.log) <= i.log && EvidenceFirst(i.log, |old(i.log)|, r)
    ensures !i.w.dead ==> Happened(i.log, |old(i.log)|, |i.log|, CardIssued)
    ensures Processed(i.key, old(i.w), i.w, r, sanctioned, failed)
    ensures old(i.tick) < i.tick
    ensures !old(i.w.dead) && !i.nature(old(i.tick)).dies && Smooth(i.nature, old(i.tick) + 1, i.tick) ==>
              !i.w.dead && (failed <==> !Copied(i.nature(old(i.tick))) && !ActsWithoutEvidence(r))
    ensures !failed && !r.dryRun && !r.reviewOnly ==> Happened(i.log, |old(i.log)|, |i.log|, SourceDeleteIssued(true))
    ensures old(i.history) <= i.history
    ensures old(AllSafe(i.history) && Ready(i.w, r) && Unsanctioned(i.w)) ==> AllSafe(i.history)
  {
    hide AllSafe, ClaimsKept, AllConsistent, Safe, Smooth, EvidenceFirst, Happened, CopyMade, Destructive, Processed, ReportedOnly,
         Steps, ClaimUntouched, Ready, Harmless, Reported, Unsanctioned, Consistent, ActsWithoutEvidence, Incident.Valid;
    LastSafe(i);
    if Ready(i.w, r) {
      ReadyIsHarmless(i.w, r);
    }
    var go := ReportEvidence(i, r);
    LastSafe(i);
    ghost var reported, mid, at := i.log, i.w, i.tick;
    if !go {
      NothingEnforced(i.log, |old(i.log)|, r);
      ProcessStopped(i.key, old(i.w), i.w, r);
      return false, true;
    }
    if old(AllSafe(i.history) && Ready(i.w, r) && Unsanctioned(i.w)) {
      StillReady(i.key, old(i.w), mid, r);
    }
    sanctioned, failed := ActOnReport(i, r);
    LastSafe(i);
    Through(old(i.w), mid, i.w);
    SmoothParts(i.nature, old(i.tick) + 1, at, i.tick);
    ReportedFirst(reported, i.log, |old(i.log)|, r);
    ProcessGoesOn(i.key, old(i.w), mid, i.w, r, sanctioned, failed);
    if !failed && !r.dryRun && !r.reviewOnly {
      HappenedSince(i.log, |old(i.log)|, |reported|, SourceDeleteIssued(true));
    }
  }

  /** The report is out: an observed incident is done, any other is enforced. */
  method ActOnReport(i: Incident, r: Report) returns (sanctioned: bool, failed: bool)
    requires i.Valid() && i.w.present
    modifies i
    ensures i.Valid() && Steps(old(i.w), i.w) && ClaimUntouched(old(i.w), i.w)
    ensures old(i.log) <= i.log && (r.dryRun || r.reviewOnly ==> i.log == old(i.log))
    ensures Processed(i.key, old(i.w), i.w, r, sanctioned, failed)
    ensures old(i.tick) <= i.tick
    ensures !old(i.w.dead) && Smooth(i.nature, old(i.tick), i.tick) ==> !i.w.dead && !failed
    ensures !failed && !r.dryRun && !r.reviewOnly ==> Happened(i.log, |old(i.log)|, |i.log|, SourceDeleteIssued(true))
    ensures old(i.history) <= i.history
    ensures old(AllSafe(i.history) && Reported(i.w, r)) ==> AllSafe(i.history)
  {
    hide AllSafe, ClaimsKept, AllConsistent, Smooth, EnforcedRun, Processed, Happened, Destructive;
    LastSafe(i);
    if r.dryRun || r.reviewOnly {
      var ok := i.SetIncidentState(Done);
      SmoothParts(i.nature, old(i.tick), old(i.tick), i.tick);
      ProcessObserved(i.key, old(i.w), i.w, r, ok);
      return false, !ok;
    }
    sanctioned, failed := EnforceAndClose(i, r.action);
    ProcessEnforced(i.key, old(i.w), i.w, r, sanctioned, failed);
  }

  /** A reported row that may be acted on: every state of it will be seen by SanctionSince. */
  predicate Reported(w: World, r: Report) {
    if r.dryRun || r.reviewOnly then w.dropped || (!w.live && Unsanctioned(w))
    else Covered(w, r.action) && Unsanctioned(w)
  }

  lemma ReadyIsHarmless(w: World, r: Report)
    requires Ready(w, r)
    ensures Harmless(w)
  {
  }

  lemma StillReady(k: Key, a: World, mid: World, r: Report)
    requires Consistent(a) && Ready(a, r) && Unsanctioned(a)
    requires ReportedOnly(k, a, mid) && Steps(a, mid) && ClaimUntouched(a, mid)
    requires mid.row.state == a.row.state || mid.row.state.Evidenced?
    ensures Reported(mid, r)
  {
  }

  lemma ProcessStopped(k: Key, a: World, b: World, r: Report)
    requires ReportedOnly(k, a, b) && Consistent(b)
    requires !b.dead ==> b.row.state.EvidenceFailed? || b.row.state.NotActed?
    ensures Processed(k, a, b, r, false, true)
  {
  }

  lemma ProcessObserved(k: Key, a: World, b: World, r: Report, ok: bool)
    requires (r.dryRun || r.reviewOnly) && Consistent(b)
    requires Quiet(a, b) && b.dropped == a.dropped && ok == !b.dead
    requires RowIs(b, if ok then a.row.(state := Done) else a.row)
    ensures Processed(k, a, b, r, false, !ok)
  {
  }

  lemma ProcessEnforced(k: Key, a: World, b: World, r: Report, sanctioned: bool, failed: bool)
    requires !r.dryRun && !r.reviewOnly && Consistent(a) && Consistent(b)
    requires EnforcedRun(k, a, b, r.action, sanctioned, failed)
    ensures Processed(k, a, b, r, sanctioned, failed)
  {
  }

  lemma ProcessGoesOn(k: Key, a: World, mid: World, b: World, r: Report, sanctioned: bool, failed: bool)
    requires ReportedOnly(k, a, mid) && Consistent(a) && Consistent(b)
    requires mid.row.state == a.row.state || mid.row.state.Evidenced?
    requires Processed(k, mid, b, r, sanctioned, failed)
    ensures Processed(k, a, b, r, sanctioned, failed)
  {
  }

  lemma HappenedOn(log: seq<Event>, longer: seq<Event>, from: nat, e: Event)
    requires log <= longer && Happened(log, from, |log|, e)
    ensures Happened(longer, from, |longer|, e)
  {
  }

  lemma HappenedSince(log: seq<Event>, from: nat, later: nat, e: Event)
    requires from <= later && Happened(log, later, |log|, e)
    ensures Happened(log, from, |log|, e)
  {
  }

  lemma NothingEnforced(log: seq<Event>, from: nat, r: Report)
    requires forall k :: from <= k < |log| ==> !Destructive(log[k])
    ensures EvidenceFirst(log, from, r)
  {
  }

  /** What was reported before the first destructive call was reported before each of them. */
  lemma ReportedFirst(reported: seq<Event>, log: seq<Event>, from: nat, r: Report)
    requires from <= |reported| && reported <= log && (r.dryRun || r.reviewOnly ==> log == reported)
    requires forall k :: from <= k < |reported| ==> !Destructive(reported[k])
    requires Happened(reported, from, |reported|, CardRegistered)
    requires ActsWithoutEvidence(r)
             || (CopyMade(reported, from, |reported|) && Happened(reported, from, |reported|, EvidenceSaved))
    ensures EvidenceFirst(log, from, r)
    ensures Happened(reported, from, |reported|, CardIssued) ==> Happened(log, from, |log|, CardIssued)
  {
  }

  /** What process leaves of a row nothing had been done to. */
  predicate ProcessEnd(k: Key, a: World, b: World, r: Report, sanctioned: bool) {
    if sanctioned || b.live then EnforceEnd(k, a, b, r.action, sanctioned)
    else
      && b.row.action == a.row.action && b.hold.Nothing?
      && (b.row.state.EvidenceFailed? || b.row.state.NotActed? || b.row.state.Done? || b.row.state.SanctionUnknown?)
      && (b.row.state.SanctionUnknown? ==> a.row.state.SanctionUnknown?)
  }

  // Taking over an incident that applied no sanction.

  /** While the claim is held: whatever may be in force is either recorded as unknown or was
      left behind by a job that died. */
  predicate Reclaimed(w: World) {
    w.dropped || (w.live ==> w.row.state.SanctionUnknown? || Leftover(w.row))
  }

  /** A claimed row of a process that never died. */
  predicate ClaimedBoundary(k: Key, w: World) {
    && (w.live ==> Sanctioned(k, w.row))
    && HoldFits(k, w)
    && !w.row.state.Pending? && !w.row.state.Evidenced?
  }

  predicate JobClaim(w: World) {
    w.present && w.holder.ByJob? && w.row.decision.Enforcing?
  }

  /** FinishManualOverride as the last step of a takeover. */
  method Finish(i: Incident, action: Action, sanctioned: bool)
    requires i.Valid() && JobClaim(i.w)
    modifies i
    ensures i.Valid() && OnlyFinished(old(i.w), i.w, action, sanctioned) && i.log == old(i.log)
    ensures i.w.dead == (old(i.w.dead) || i.nature(old(i.tick)).dies) && i.tick == old(i.tick) + 1
    ensures old(i.history) <= i.history
    ensures old(AllSafe(i.history)) && Safe(i.w) ==> AllSafe(i.history)
  {
    var _ := i.FinishManualOverride(action, sanctioned);
  }

  /** A live edit of a message that was only raised for review. */
  method PromoteReview(i: Incident, r: Report) returns (acted: bool, failed: bool)
    requires i.Valid() && JobClaim(i.w)
    requires WellFormed(r) && !IsManual(r) && !r.dryRun && !r.reviewOnly
    modifies i
    ensures i.Valid() && Steps(old(i.w), i.w)
    ensures Promoted(i.key, old(i.w), i.w, r, acted, failed)
    ensures old(i.log) <= i.log && EvidenceFirst(i.log, |old(i.log)|, r)
    ensures acted && !failed ==> Happened(i.log, |old(i.log)|, |i.log|, SourceDeleteIssued(true))
    ensures old(i.tick) <= i.tick
    ensures !old(i.w.dead) && PromotedWell(i.nature, old(i.tick), i.tick) ==>
              && !i.w.dead && acted == old(i.w.row.action).Quarantine?
              && (failed <==> acted && !Copied(i.nature(old(i.tick) + 1)) && !ActsWithoutEvidence(r))
    ensures old(i.history) <= i.history
    ensures old(AllSafe(i.history) && UnknownIsPunitive(i.w) && Reclaimed(i.w) && Unsanctioned(i.w)) ==> AllSafe(i.history)
  {
    hide AllSafe, ClaimsKept, AllConsistent, Safe, Promoted, Processed, EvidenceFirst, Smooth, Ready, Reclaimed, UnknownIsPunitive,
         OnlyFinished, Steps, ClaimUntouched, JobClaim, Consistent, Unsanctioned, Happened, Incident.Valid;
    LastSafe(i);
    ClaimCovers(i.w, r.action);
    var read := i.Touch();
    LastSafe(i);
    ghost var mid := i.w;
    StillClaimed(old(i.w), mid);
    ClaimCovers(mid, r.action);
    if !read || !i.w.row.action.Quarantine? {
      Finish(i, r.action, false);
      LastSafe(i);
      FinishSteps(mid, i.w, r.action, false);
      Through(old(i.w), mid, i.w);
      NotPromoted(i.key, old(i.w), mid, i.w, r, !read);
      NothingEnforced(i.log, |old(i.log)|, r);
      return false, !read;
    }
    if old(AllSafe(i.history) && UnknownIsPunitive(i.w) && Reclaimed(i.w) && Unsanctioned(i.w)) {
      QuarantineIsReady(old(i.w), mid, r);
    }
    var sanctioned;
    sanctioned, failed := Process(i, r);
    LastSafe(i);
    ghost var done, at := i.w, i.tick;
    ClaimHeld(mid, done);
    Finish(i, r.action, sanctioned);
    LastSafe(i);
    FinishSteps(done, i.w, r.action, sanctioned);
    Through(old(i.w), mid, done);
    Through(old(i.w), done, i.w);
    SmoothParts(i.nature, old(i.tick) + 2, at, i.tick);
    PromotionEnds(i.key, old(i.w), mid, done, i.w, r, sanctioned, failed);
    acted := true;
  }

  /** What a promotion leaves, however far it got. */
  predicate Promoted(k: Key, a: World, b: World, r: Report, acted: bool, failed: bool) {
    && (b.holder.ByJob? ==> b.dead)
    && (UnknownIsPunitive(a) ==> UnknownIsPunitive(b))
    && (UnknownIsPunitive(a) && Reclaimed(a) ==> b.dropped == a.dropped)
    && (UnknownIsPunitive(a) && Reclaimed(a) && HoldFits(k, a) ==> HoldKnown(k, b))
    && (!b.dead && UnknownIsPunitive(a) && ClaimedBoundary(k, a) ==> Boundary(k, b))
    && (Unsanctioned(a) ==> OneSanction(b))
    && (Sanctioned(k, b.row) ==> b.ever || Sanctioned(k, a.row))
    && (!acted && !failed ==> !a.row.action.Quarantine?)
    && (acted && !failed && !b.dead ==>
          && b.row.state.Done? && !b.row.dryRun && b.row.action == r.action
          && TookHold(k, a, b, r.action) && b.sanctions == a.sanctions + 1)
  }

  /** The claim was held from `a` to `b` while nothing but the row's decision could change. */
  predicate OnlyFinished(a: World, b: World, action: Action, sanctioned: bool) {
    && Steps(a, b) && Quiet(a, b) && b.dropped == a.dropped
    && (b.dead ==> b.holder.ByJob? && b.row == a.row)
    && (!b.dead ==> b.holder.NoOne? && b.row == OverrideFinished(a.row, action, sanctioned))
  }

  lemma FinishSteps(a: World, b: World, action: Action, sanctioned: bool)
    requires OnlyFinished(a, b, action, sanctioned)
    ensures Steps(a, b)
  {
  }

  lemma StillClaimed(a: World, b: World)
    requires JobClaim(a) && Steps(a, b) && ClaimUntouched(a, b) && Quiet(a, b) && RowIs(b, a.row) && b.dropped == a.dropped
    ensures JobClaim(b) && (Safe(a) ==> Safe(b))
  {
  }

  lemma NotPromoted(k: Key, a: World, mid: World, b: World, r: Report, failed: bool)
    requires JobClaim(a) && Steps(a, mid) && ClaimUntouched(a, mid) && Quiet(a, mid) && RowIs(mid, a.row) && mid.dropped == a.dropped
    requires Consistent(b) && OnlyFinished(mid, b, r.action, false) && (!failed ==> !mid.row.action.Quarantine?)
    ensures Promoted(k, a, b, r, false, failed)
    ensures Safe(a) && UnknownIsPunitive(a) && Reclaimed(a) && Unsanctioned(a) ==> Safe(b)
  {
  }

  lemma QuarantineIsReady(a: World, mid: World, r: Report)
    requires UnknownIsPunitive(a) && Reclaimed(a) && Unsanctioned(a) && JobClaim(a)
    requires Steps(a, mid) && ClaimUntouched(a, mid) && Quiet(a, mid) && RowIs(mid, a.row) && mid.dropped == a.dropped
    requires mid.row.action.Quarantine?
    ensures Ready(mid, r) && Unsanctioned(mid)
  {
  }

  lemma PromotionEnds(k: Key, a: World, mid: World, done: World, b: World, r: Report, sanctioned: bool, failed: bool)
    requires JobClaim(a) && Steps(a, mid) && ClaimUntouched(a, mid) && Quiet(a, mid) && RowIs(mid, a.row) && mid.dropped == a.dropped
    requires mid.row.action.Quarantine? && !r.dryRun && !r.reviewOnly && WellFormed(r)
    requires Consistent(mid) && Consistent(done) && Consistent(b)
    requires Steps(mid, done) && ClaimUntouched(mid, done) && Processed(k, mid, done, r, sanctioned, failed)
    requires OnlyFinished(done, b, r.action, sanctioned)
    ensures Promoted(k, a, b, r, true, failed)
    ensures Safe(done) && UnknownIsPunitive(a) && Reclaimed(a) && Unsanctioned(a) ==> Safe(b)
  {
  }

  /** The claim is kept until the new card went out: neither card may undo meanwhile. */
  method ReplaceCard(i: Incident, action: Action, sanctioned: bool)
    requires i.Valid() && JobClaim(i.w)
    modifies i
    ensures i.Valid() && Steps(old(i.w), i.w) && Quiet(old(i.w), i.w) && i.w.dropped == old(i.w.dropped)
    ensures old(i.log) <= i.log && (!i.w.dead ==> Happened(i.log, |old(i.log)|, |i.log|, CardIssued))
    ensures i.w.holder == if i.w.dead then ByJob else NoOne
    ensures i.w.row == (if i.w.dead then old(i.w.row) else OverrideFinished(old(i.w.row), action, sanctioned)).(card := i.w.row.card)
    ensures old(i.tick) <= i.tick
    ensures !old(i.w.dead) && Smooth(i.nature, old(i.tick), i.tick) ==> !i.w.dead
    ensures old(i.history) <= i.history
    ensures old(AllSafe(i.history)) && Safe(i.w) ==> AllSafe(i.history)
  {
    var _ := SendCard(i);
    assert |i.log| > |old(i.log)| ==> i.log[|old(i.log)|] == CardIssued;
    Finish(i, action, sanctioned);
  }

  /** A moderator's /spam or /ban on an incident that never applied a sanction. */
  method ManualOverride(i: Incident, r: Report) returns (failed: bool, ghost call: CallResult)
    requires i.Valid() && JobClaim(i.w)
    requires WellFormed(r) && IsManual(r)
    modifies i
    ensures i.Valid() && Steps(old(i.w), i.w)
    ensures Overridden(i.key, old(i.w), i.w, r, failed, call)
    ensures old(i.log) <= i.log
    ensures !i.w.dead ==> Happened(i.log, |old(i.log)|, |i.log|, CardIssued)
    ensures !failed ==> Happened(i.log, |old(i.log)|, |i.log|, SourceDeleteIssued(true))
    ensures old(i.tick) <= i.tick
    ensures !old(i.w.dead) && Smooth(i.nature, old(i.tick), i.tick) ==> !i.w.dead && !failed
    ensures old(i.history) <= i.history
    ensures old(AllSafe(i.history) && UnknownIsPunitive(i.w) && Unsanctioned(i.w)) ==> AllSafe(i.history)
  {
    hide AllSafe, ClaimsKept, AllConsistent, Safe, Enforcement, Overridden, Smooth, Happened, Unsanctioned, UnknownIsPunitive, Consistent,
         OnlyEnforced, Destructive, IsManual, WellFormed, RowIs, Quiet, OverrideFinished, Forgets, Covered, Steps, ClaimUntouched,
         JobClaim, Incident.Valid;
    LastSafe(i);
    ClaimCovers(i.w, r.action);
    var out := Enforce(i, r.action);
    LastSafe(i);
    ClaimHeld(old(i.w), i.w);
    ghost var m1, l1, t1 := i.w, i.log, i.tick;
    DeleteLogged(old(i.log), l1, out.deleted, !m1.dead);
    ApplySeen(i.key, old(i.w), m1, r.action, out);
    call := out.call;
    failed := !out.sanctioned || !out.deleted;
    var _ := Close(i, out);
    LastSafe(i);
    Through(old(i.w), m1, i.w);
    ClaimHeld(m1, i.w);
    ghost var m2, t2 := i.w, i.tick;
    ReplaceCard(i, r.action, out.sanctioned);
    LastSafe(i);
    Through(old(i.w), m2, i.w);
    SmoothParts(i.nature, old(i.tick), t1, i.tick);
    SmoothParts(i.nature, t1, t2, i.tick);
    OverrideEnds(i.key, old(i.w), m1, m2, i.w, r, out);
    if !failed {
      HappenedOn(l1, i.log, |old(i.log)|, SourceDeleteIssued(true));
    }
    if !i.w.dead {
      HappenedSince(i.log, |old(i.log)|, |l1|, CardIssued);
    }
  }

  /** What a job holds stays its own while it works. */
  lemma ClaimHeld(a: World, b: World)
    requires JobClaim(a) && Steps(a, b) && ClaimUntouched(a, b)
    ensures JobClaim(b) && b.present
  {
  }

  lemma ClaimCovers(w: World, action: Action)
    requires JobClaim(w)
    ensures Covered(w, action) && w.present
  {
  }

  lemma ApplySeen(k: Key, a: World, b: World, action: Action, out: Outcome)
    requires Enforcement(k, a, b, action, out)
    ensures out.sanctioned && !b.dead ==> Applied(b.row.state)
  {
  }

  /** What a moderator's order leaves, however far it got. */
  predicate Overridden(k: Key, a: World, b: World, r: Report, failed: bool, call: CallResult) {
    && (b.holder.ByJob? ==> b.dead)
    && (UnknownIsPunitive(a) ==> UnknownIsPunitive(b))
    && (b.dropped ==> a.dropped || Forgets(a, call))
    && (!failed ==> call.CallOk?)
    && (!b.dead && call.CallOk? ==>
          && Closed(b.row) && b.row.action == r.action && (failed || b.row.state.Done?)
          && TookHold(k, a, b, r.action))
    && (!b.dead ==> b.sanctions == a.sanctions + (if call.CallOk? then 1 else 0))
    && (!b.dead && Forgets(a, call) ==> b.dropped && b.live && !Protects(b.row))
    && (HoldFits(k, a) ==> HoldKnown(k, b))
    && (!b.dead && UnknownIsPunitive(a) && ClaimedBoundary(k, a) ==> Boundary(k, b) || b.dropped)
    && (Unsanctioned(a) ==> OneSanction(b))
    && (Sanctioned(k, b.row) ==> b.ever || Sanctioned(k, a.row))
  }

  lemma OverrideEnds(k: Key, a: World, m1: World, m2: World, b: World, r: Report, out: Outcome)
    requires WellFormed(r) && IsManual(r) && JobClaim(a) && out.sanctioned == out.call.CallOk?
    requires Consistent(m1) && Consistent(m2) && Consistent(b)
    requires Steps(a, m1) && ClaimUntouched(a, m1) && Enforcement(k, a, m1, r.action, out)
    requires Steps(m1, m2) && ClaimUntouched(m1, m2) && Quiet(m1, m2) && m2.dropped == m1.dropped
    requires RowIs(m2, if out.sanctioned && out.deleted && !m2.dead then m1.row.(state := Done) else m1.row)
    requires Steps(m2, b) && Quiet(m2, b) && b.dropped == m2.dropped && b.holder == if b.dead then ByJob else NoOne
    requires b.row == (if b.dead then m2.row else OverrideFinished(m2.row, r.action, out.sanctioned)).(card := b.row.card)
    ensures Overridden(k, a, b, r, !out.sanctioned || !out.deleted, out.call)
    ensures Safe(m2) && UnknownIsPunitive(a) && Unsanctioned(a) ==> Safe(b)
  {
  }

  /** What one job leaves for the next: nothing to undo later is forgotten, and unless the
      process died the row is at rest. */
  predicate JobEnd(k: Key, w: World) {
    && (w.holder.ByJob? ==> w.dead)
    && UnknownIsPunitive(w) && OneSanction(w) && HoldKnown(k, w)
    && (Clean(w) ==> Boundary(k, w))
  }

  /** Nothing of the row but its decision, and nothing of the sender's account, changed. */
  predicate Unmoved(a: World, b: World) {
    Quiet(a, b) && RowIs(b, a.row) && b.dropped == a.dropped
  }

  /** Steps that do not touch the incident leave it at rest. */
  lemma StillResting(k: Key, a: World, b: World)
    requires Resting(k, a) && Consistent(a) && Consistent(b) && Steps(a, b) && ClaimUntouched(a, b) && Unmoved(a, b)
    ensures JobEnd(k, b) && (!b.dead ==> Resting(k, b))
    ensures Safe(a) ==> Safe(b)
    ensures Backed(k, a) ==> Backed(k, b)
  {
  }

  /** A live claimable row was recorded as unknown, or its job died before it recorded anything. */
  lemma ClaimedRow(k: Key, before: World, w: World)
    requires Consistent(before) && Resting(k, before) && Safe(before)
    requires before.holder.NoOne? || before.holder.ByCli?
    requires Claimable(before.row.(decision := Undecided))
    requires RowIs(w, before.row) && Quiet(before, w) && w.dropped == before.dropped
    requires before.died ==> w.died
    ensures UnknownIsPunitive(w) && Reclaimed(w) && Unsanctioned(w)
    ensures HoldFits(k, w) || w.dropped
    ensures w.row.decision.Enforcing? ==> Safe(w)
    ensures Clean(w) && w.present ==> ClaimedBoundary(k, w)
    ensures Clean(w) && w.live ==> w.row.state.SanctionUnknown?
  {
  }

  /** What a repeated report that may act comes to, for the row and for the sender. */
  predicate Repeated(k: Key, a: World, b: World, r: Report, acted: bool, failed: bool) {
    && JobEnd(k, b)
    && (b.dropped && !a.dropped ==> IsManual(r) && Leftover(a.row) && a.died)
    && (!acted && !failed ==> !Claimable(b.row) || !(IsManual(r) || a.row.action.Quarantine?))
    && (acted && !failed && !b.dead ==>
          && b.row.state.Done? && !b.row.dryRun && b.row.action == r.action
          && TookHold(k, a, b, r.action) && b.sanctions == a.sanctions + 1)
    && (Backed(k, a) ==> Backed(k, b))
  }

  /** override: the claim, then the moderator's order or the promoted review. */
  method Override(i: Incident, r: Report) returns (acted: bool, failed: bool)
    requires i.Valid() && i.w.present && Resting(i.key, i.w) && WellFormed(r)
    requires IsManual(r) || (!r.dryRun && !r.reviewOnly)
    requires Safe(i.w)
    modifies i
    ensures i.Valid() && Steps(old(i.w), i.w) && Repeated(i.key, old(i.w), i.w, r, acted, failed)
    ensures old(i.log) <= i.log
    ensures !IsManual(r) ==> EvidenceFirst(i.log, |old(i.log)|, r)
    ensures acted && !failed ==> Happened(i.log, |old(i.log)|, |i.log|, SourceDeleteIssued(true))
    ensures old(i.tick) <= i.tick
    ensures IsManual(r) && !old(i.w.dead) && i.nature(old(i.tick)).cli.CliIdle? && Smooth(i.nature, old(i.tick), i.tick) ==>
              !i.w.dead && !failed && acted == old(Claimable(i.w.row))
    ensures !IsManual(r) && !old(i.w.dead) && i.nature(old(i.tick)).cli.CliIdle? && Fine(i.nature(old(i.tick)))
            && PromotedWell(i.nature, old(i.tick) + 1, i.tick) ==>
              && !i.w.dead && acted == old(Claimable(i.w.row) && i.w.row.action.Quarantine?)
              && (failed <==> acted && !Copied(i.nature(old(i.tick) + 2)) && !ActsWithoutEvidence(r))
    ensures old(i.history) <= i.history
    ensures old(AllSafe(i.history)) ==> AllSafe(i.history)
  {
    hide AllSafe, ClaimsKept, AllConsistent, Safe, Smooth, EvidenceFirst, Happened, Promoted, Overridden, Repeated, Resting,
         Unsanctioned, Unmoved, Incident.Valid;
    ghost var before := i.w;
    LastSafe(i);
    var unreadable, claimed := i.ClaimManualOverride();
    LastSafe(i);
    ghost var mid, at := i.w, i.tick;
    SmoothParts(i.nature, old(i.tick), at, at);
    NotMoved(before, mid);
    if !claimed {
      StillResting(i.key, before, i.w);
      NotClaimedEnds(i.key, before, mid, r, unreadable);
      NothingEnforced(i.log, |old(i.log)|, r);
      return false, unreadable;
    }
    ClaimedRow(i.key, before, mid);
    if IsManual(r) {
      ghost var call;
      failed, call := ManualOverride(i, r);
      LastSafe(i);
      acted := true;
      SmoothParts(i.nature, old(i.tick), at, i.tick);
      OrderEnds(i.key, before, mid, i.w, r, failed, call);
    } else {
      acted, failed := PromoteReview(i, r);
      LastSafe(i);
      PromotedEnds(i.key, before, mid, i.w, r, acted, failed);
    }
  }

  lemma NotMoved(a: World, b: World)
    requires Quiet(a, b) && RowIs(b, a.row) && b.dropped == a.dropped
    ensures Unmoved(a, b)
  {
  }

  lemma NotClaimedEnds(k: Key, a: World, b: World, r: Report, failed: bool)
    requires JobEnd(k, b) && Unmoved(a, b) && (!failed ==> !Claimable(b.row))
    ensures Repeated(k, a, b, r, false, failed)
  {
  }

  lemma OrderEnds(k: Key, before: World, mid: World, b: World, r: Report, failed: bool, call: CallResult)
    requires Consistent(before) && Resting(k, before) && Safe(before) && Unmoved(before, mid) && Steps(before, mid) && Steps(mid, b)
    requires before.holder.NoOne? || before.holder.ByCli?
    requires Claimable(before.row.(decision := Undecided)) && JobClaim(mid) && IsManual(r)
    requires Consistent(b) && Overridden(k, mid, b, r, failed, call)
    ensures Repeated(k, before, b, r, true, failed)
  {
    ClaimedRow(k, before, mid);
  }

  lemma PromotedEnds(k: Key, before: World, mid: World, b: World, r: Report, acted: bool, failed: bool)
    requires Consistent(before) && Resting(k, before) && Safe(before) && Unmoved(before, mid) && Steps(before, mid) && Steps(mid, b)
    requires before.holder.NoOne? || before.holder.ByCli?
    requires Claimable(before.row.(decision := Undecided)) && JobClaim(mid) && !IsManual(r)
    requires Consistent(b) && Promoted(k, mid, b, r, acted, failed)
    ensures Repeated(k, before, b, r, acted, failed)
  {
    ClaimedRow(k, before, mid);
  }

  /** A repeated report that may act on an incident there already is: a moderator's order, or a
      live verdict on an edit. */
  predicate Overrides(r: Report) {
    IsManual(r) || (!r.dryRun && !r.reviewOnly && !r.action.NoAction? && !r.action.Quarantine?)
  }

  /** A first report in which nothing goes wrong, except perhaps the copying. */
  ghost predicate ReportedWell(nature: nat -> Choice, from: nat, to: nat) {
    && !nature(from).dies && !nature(from).writeFails
    && !nature(from + 1).dies && Smooth(nature, from + 2, to)
  }

  /** No `decide` command is at work when a repeated report is inserted and claims. */
  predicate UndisturbedClaim(nature: nat -> Choice, from: nat) {
    nature(from).cli.CliIdle? && nature(from + 1).cli.CliIdle?
  }

  predicate LiveReport(r: Report) {
    !r.dryRun && !r.reviewOnly
  }

  /** What a report comes to, for the row and for the sender. */
  predicate ReportDone(k: Key, a: World, b: World, r: Report, acted: bool, failed: bool) {
    && JobEnd(k, b)
    && (b.dropped && !a.dropped ==> IsManual(r) && Leftover(a.row) && a.died)
    && (!acted && !failed ==> a.present && (IsManual(r) || LiveReport(r) ==>
          !Claimable(b.row) || !(IsManual(r) || a.row.action.Quarantine?)))
    && (acted && !failed && !b.dead ==>
          && b.row.state.Done? && b.row.action == r.action
          && (a.present || LiveReport(r) ==> TookHold(k, a, b, r.action) && b.sanctions == a.sanctions + 1))
    && (if a.present then !IsManual(r) && !LiveReport(r) ==> !acted && Unmoved(a, b)
        else !LiveReport(r) ==> b.live == a.live && b.hold == a.hold && b.sanctions == a.sanctions)
    && (ReviewObserves(r) && Backed(k, a) ==> Backed(k, b))
  }

  /** handle: a message the detectors flagged, an edit, or a moderator's command. */
  method Handle(i: Incident, r: Report) returns (acted: bool, failed: bool)
    requires i.Valid() && !i.w.dead && Resting(i.key, i.w) && Safe(i.w) && WellFormed(r)
    modifies i
    ensures i.Valid() && Steps(old(i.w), i.w) && ReportDone(i.key, old(i.w), i.w, r, acted, failed)
    ensures old(i.log) <= i.log
    ensures !IsManual(r) || !old(i.w.present) ==> EvidenceFirst(i.log, |old(i.log)|, r)
    ensures acted && !failed && (old(i.w.present) || LiveReport(r)) ==>
              Happened(i.log, |old(i.log)|, |i.log|, SourceDeleteIssued(true))
    ensures old(i.w.present) && !IsManual(r) && !LiveReport(r) ==> i.log == old(i.log)
    ensures !old(i.w.present) && ReportedWell(i.nature, old(i.tick), i.tick) ==>
              !i.w.dead && acted && (failed <==> !Copied(i.nature(old(i.tick) + 1)) && !ActsWithoutEvidence(r))
    ensures old(i.w.present) && IsManual(r) && UndisturbedClaim(i.nature, old(i.tick)) && Smooth(i.nature, old(i.tick), i.tick) ==>
              !i.w.dead && !failed && acted == old(Claimable(i.w.row))
    ensures old(i.w.present) && !IsManual(r) && LiveReport(r) && UndisturbedClaim(i.nature, old(i.tick))
            && Fine(i.nature(old(i.tick))) && Fine(i.nature(old(i.tick) + 1)) && PromotedWell(i.nature, old(i.tick) + 2, i.tick) ==>
              && !i.w.dead && acted == old(Claimable(i.w.row) && i.w.row.action.Quarantine?)
              && (failed <==> acted && !Copied(i.nature(old(i.tick) + 3)) && !ActsWithoutEvidence(r))
    ensures old(i.tick) <= i.tick
    ensures old(i.history) <= i.history
    ensures old(AllSafe(i.history)) ==> AllSafe(i.history)
  {
    hide AllSafe, ClaimsKept, AllConsistent, Safe, Smooth, EvidenceFirst, Happened, Processed, Repeated, ReportDone, Resting, JobEnd,
         Unmoved, Incident.Valid;
    LastSafe(i);
    ghost var before := i.w;
    acted, failed := false, false;
    var inserted := i.InsertPending(r.dryRun, r.action);
    LastSafe(i);
    ghost var mid, at := i.w, i.tick;
    SmoothParts(i.nature, old(i.tick), at, at);
    match inserted
    case InsertFailed =>
      NotMoved(before, mid);
      StillResting(i.key, before, mid);
      StoppedEnds(i.key, before, mid, r);
      NothingEnforced(i.log, |old(i.log)|, r);
      return false, true;
    case Duplicate =>
      NotMoved(before, mid);
      StillResting(i.key, before, mid);
      NothingEnforced(i.log, |old(i.log)|, r);
      if Overrides(r) {
        acted, failed := Override(i, r);
        SmoothParts(i.nature, old(i.tick), at, i.tick);
        RepeatedEnds(i.key, before, mid, i.w, r, acted, failed);
      } else {
        KnownEnds(i.key, before, mid, r);
      }
    case Fresh =>
      FreshIsReady(before, mid, r);
      var sanctioned;
      sanctioned, failed := Process(i, r);
      LastSafe(i);
      acted := true;
      FreshEnds(i.key, before, mid, i.w, r, sanctioned, failed);
  }

  lemma StoppedEnds(k: Key, a: World, b: World, r: Report)
    requires JobEnd(k, b) && Unmoved(a, b)
    ensures ReportDone(k, a, b, r, false, true)
  {
  }

  lemma KnownEnds(k: Key, a: World, b: World, r: Report)
    requires a.present && JobEnd(k, b) && Unmoved(a, b) && WellFormed(r) && !Overrides(r)
    ensures ReportDone(k, a, b, r, false, false)
  {
  }

  lemma RepeatedEnds(k: Key, a: World, mid: World, b: World, r: Report, acted: bool, failed: bool)
    requires a.present && Unmoved(a, mid) && Steps(a, mid) && !mid.dead && WellFormed(r) && Overrides(r)
    requires Repeated(k, mid, b, r, acted, failed)
    ensures ReportDone(k, a, b, r, acted, failed)
  {
  }

  /** A row that was just inserted for this report. */
  predicate FreshRow(a: World, b: World, r: Report) {
    && Consistent(a) && Consistent(b) && !a.present && b.present && !b.dead && b.holder.NoOne? && b.dropped == a.dropped
    && b.live == a.live && b.ever == a.ever && b.hold == a.hold && b.sanctions == a.sanctions
    && RowIs(b, a.row.(state := Pending, dryRun := r.dryRun, action := r.action, card := None))
  }

  lemma FreshIsReady(a: World, b: World, r: Report)
    requires FreshRow(a, b, r)
    ensures Ready(b, r) && Unsanctioned(b) && Safe(b)
  {
  }

  lemma FreshEnds(k: Key, a: World, mid: World, b: World, r: Report, sanctioned: bool, failed: bool)
    requires FreshRow(a, mid, r) && Resting(k, a) && WellFormed(r)
    requires Consistent(b) && Steps(mid, b) && ClaimUntouched(mid, b) && Processed(k, mid, b, r, sanctioned, failed)
    ensures ReportDone(k, a, b, r, true, failed)
  {
  }
}
