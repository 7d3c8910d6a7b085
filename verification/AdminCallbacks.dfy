/** internal/admin: the buttons under an incident's card, as dispatch applies them once the
    presser is authorized. The claim is taken first and given back when nothing came of it. */
module AdminCallbacks {
  import opened Options
  import opened IncidentRow
  import opened IncidentStore
  import opened IncidentMachine

  datatype Button = FalsePositiveButton | LiftButton | ConfirmButton | EnforceButton

  function DecisionOf(b: Button): (d: Decision)
    ensures !d.Undecided?
  {
    match b
    case FalsePositiveButton => FalsePositive
    case LiftButton => LiftNoLearn
    case ConfirmButton => ConfirmSpam
    case EnforceButton => Enforcing
  }

  /** What came of a press. `Failed` gave its claim back; after `RecordedWithoutSample` the presser
      is told that it failed too, but it took effect. */
  datatype Answer = StaleCard | DecidedAlready(existing: Decision) | Failed | Recorded | RecordedWithoutSample
                  | NotAvailable | EnforcedAlready | Enforced(sanctioned: bool, deleted: bool)

  /** While a button holds the claim. */
  predicate ButtonClaim(w: World, b: Button) {
    w.present && w.holder.ByJob? && w.row.decision == DecisionOf(b)
  }

  /** A claimed row of a process that never died, as the buttons find it. */
  predicate PressedBoundary(k: Key, w: World) {
    && (w.live ==> Sanctioned(k, w.row))
    && HoldFits(k, w)
    && !w.row.state.Pending? && !w.row.state.Evidenced?
  }

  predicate HasSubject(k: Key) {
    k.userId != 0 || k.senderChatId != 0
  }

  predicate Liftable(k: Key, w: World) {
    HoldFits(k, w) && (w.live ==> Sanctioned(k, w.row))
  }

  /** undo: lifts what the row says was applied. A sanction whose outcome is unknown may be
      either kind, so both are lifted. */
  method Undo(i: Incident, inc: Row) returns (failed: bool)
    requires i.Valid() && i.w.present && i.w.holder.ByJob? && i.w.row == inc
    modifies i
    ensures i.Valid() && Steps(old(i.w), i.w) && ClaimUntouched(old(i.w), i.w)
    ensures i.w.row == old(i.w.row) && i.w.dropped == old(i.w.dropped) && i.w.sanctions == old(i.w.sanctions)
    ensures OnlyLifts(old(i.log), i.log)
    ensures i.w.live ==> old(i.w.live)
    ensures i.w.hold == Nothing || i.w.hold == old(i.w.hold)
    ensures failed ==> i.w.live == old(i.w.live)
    ensures !Sanctioned(i.key, inc) ==> !failed && i.w == old(i.w) && i.log == old(i.log)
    ensures !failed && HasSubject(i.key) && old(Liftable(i.key, i.w)) ==> i.w.hold == Nothing && !i.w.live
    ensures old(i.tick) <= i.tick
    ensures i.w.ever == old(i.w.ever)
    ensures !old(i.w.dead) && Smooth(i.nature, old(i.tick), i.tick) ==> !i.w.dead && !failed
    ensures old(i.history) <= i.history
    ensures old(AllSafe(i.history)) && (old(i.w.live) ==> Protects(i.w.row) || i.w.dropped) ==> AllSafe(i.history)
  {
    hide AllSafe, ClaimsKept, AllConsistent, Protects, Incident.Valid, Consistent;
    LastSafe(i);
    if !Sanctioned(i.key, inc) {
      return false;
    }
    if i.key.senderChatId != 0 {
      var ok := i.LiftCall(ChannelBanned);
      failed := !ok;
    } else if i.key.userId == 0 {
      return false;
    } else if inc.state.SanctionUnknown? {
      failed := UndoUnknown(i);
    } else {
      var ok := i.LiftCall(if inc.action.Ban? then MemberBanned else MemberMuted);
      failed := !ok;
    }
    if !failed {
      i.NoteLifted();
    }
  }

  /** Nothing but lifts was issued. */
  predicate OnlyLifts(a: seq<Event>, b: seq<Event>) {
    a <= b && forall k :: |a| <= k < |b| ==> b[k].LiftIssued?
  }

  predicate NoLift(a: seq<Event>, b: seq<Event>) {
    a <= b && forall k :: |a| <= k < |b| ==> !b[k].LiftIssued?
  }

  /** A sample was saved in between. */
  predicate Sampled(a: seq<Event>, b: seq<Event>) {
    Happened(b, |a|, |b|, SampleSaved)
  }

  method UndoUnknown(i: Incident) returns (failed: bool)
    requires i.Valid() && i.w.present && i.w.holder.ByJob?
    modifies i
    ensures i.Valid() && Steps(old(i.w), i.w) && ClaimUntouched(old(i.w), i.w)
    ensures i.w.row == old(i.w.row) && i.w.dropped == old(i.w.dropped) && i.w.sanctions == old(i.w.sanctions)
    ensures i.w.present == old(i.w.present) && i.w.live == old(i.w.live)
    ensures OnlyLifts(old(i.log), i.log)
    ensures i.w.hold == Nothing || i.w.hold == old(i.w.hold)
    ensures !failed && !old(i.w.hold).ChannelBanned? ==> i.w.hold == Nothing
    ensures old(i.tick) <= i.tick
    ensures i.w.ever == old(i.w.ever)
    ensures !old(i.w.dead) && Smooth(i.nature, old(i.tick), i.tick) ==> !i.w.dead && !failed
    ensures old(i.history) <= i.history
    ensures old(AllSafe(i.history)) && (old(i.w.live) ==> Protects(i.w.row) || i.w.dropped) ==> AllSafe(i.history)
  {
    LastSafe(i);
    var unbanned := i.LiftCall(MemberBanned);
    if !unbanned {
      return true;
    }
    var unmuted := i.LiftCall(MemberMuted);
    return !unmuted;
  }

  /** The claim goes back, and the button can be pressed again. */
  method Release(i: Incident, b: Button)
    requires i.Valid() && ButtonClaim(i.w, b)
    modifies i
    ensures i.Valid() && Steps(old(i.w), i.w) && Quiet(old(i.w), i.w) && i.log == old(i.log)
    ensures i.w.dropped == old(i.w.dropped)
    ensures i.w.row == if i.w.dead then old(i.w.row) else old(i.w.row).(decision := Undecided)
    ensures i.w.holder == if i.w.dead then ByJob else NoOne
    ensures i.w.dead == (old(i.w.dead) || i.nature(old(i.tick)).dies) && i.tick == old(i.tick) + 1
    ensures old(i.history) <= i.history
    ensures old(AllSafe(i.history)) && Safe(i.w) ==> AllSafe(i.history)
  {
    i.ReleaseDecision(DecisionOf(b));
  }

  /** A button's claim that takes effect is final. */
  method Settle(i: Incident, b: Button)
    requires i.Valid() && ButtonClaim(i.w, b) && !b.EnforceButton?
    modifies i
    ensures i.Valid() && Steps(old(i.w), i.w) && Quiet(old(i.w), i.w) && i.log == old(i.log)
    ensures i.w.dropped == old(i.w.dropped) && i.w.row == old(i.w.row)
    ensures i.w.holder.ByJob? ==> i.w.dead
    ensures !i.w.dead ==> i.w.holder.Settled?
    ensures i.tick == old(i.tick) && i.w.dead == old(i.w.dead)
    ensures old(i.history) <= i.history
    ensures old(AllSafe(i.history)) && Safe(i.w) ==> AllSafe(i.history)
  {
    i.NoteSettled();
  }

  /** A write at this step succeeds. */
  predicate Writes(dead: bool, c: Choice) {
    !dead && !c.dies && !c.writeFails
  }

  /** What follows a lift that worked: a false positive also relabels the sample, and whether or
      not that is written the decision stands. */
  method Conclude(i: Incident, b: Button) returns (answer: Answer)
    requires i.Valid() && ButtonClaim(i.w, b) && !b.EnforceButton?
    modifies i
    ensures i.Valid() && Steps(old(i.w), i.w) && Quiet(old(i.w), i.w)
    ensures i.w.dropped == old(i.w.dropped) && i.w.row == old(i.w.row)
    ensures i.w.holder.ByJob? ==> i.w.dead
    ensures !i.w.dead ==> i.w.holder.Settled?
    ensures i.log == old(i.log) + (if answer.Recorded? && b.FalsePositiveButton? then [SampleSaved] else [])
    ensures answer.Recorded? || (answer.RecordedWithoutSample? && b.FalsePositiveButton?)
    ensures answer.Recorded? <==> !b.FalsePositiveButton? || Writes(old(i.w.dead), i.nature(old(i.tick)))
    ensures old(i.tick) <= i.tick
    ensures !old(i.w.dead) && Smooth(i.nature, old(i.tick), i.tick) ==> !i.w.dead && answer.Recorded?
    ensures old(i.history) <= i.history
    ensures old(AllSafe(i.history)) && Safe(i.w) ==> AllSafe(i.history)
  {
    answer := Recorded;
    if b.FalsePositiveButton? {
      var written := i.SaveSample();
      answer := if written then Recorded else RecordedWithoutSample;
    }
    Settle(i, b);
  }

  /** False positive and lift: the sanction goes first, the decision is recorded only then. */
  method PressUndo(i: Incident, b: Button) returns (answer: Answer)
    requires i.Valid() && ButtonClaim(i.w, b) && (b.FalsePositiveButton? || b.LiftButton?)
    requires UnknownIsPunitive(i.w)
    modifies i
    ensures i.Valid() && Steps(old(i.w), i.w) && JobEndWith(i.key, old(i.w), i.w)
    ensures answer.Failed? || answer.Recorded? || answer.RecordedWithoutSample?
    ensures !Sanctioned(i.key, old(i.w.row)) ==> !answer.Failed? && i.w.hold == old(i.w.hold) && i.w.live == old(i.w.live)
    ensures !i.w.dead && answer.Failed? ==> i.w.holder.NoOne? && i.w.row.decision.Undecided? && i.w.live == old(i.w.live)
    ensures !i.w.dead && !answer.Failed? ==>
              && i.w.holder.Settled? && i.w.row.decision == DecisionOf(b)
              && (HasSubject(i.key) && old(Liftable(i.key, i.w)) ==> i.w.hold == Nothing && !i.w.live)
    ensures i.w.dropped == old(i.w.dropped)
    ensures old(i.tick) <= i.tick
    ensures i.w.ever == old(i.w.ever) && i.w.sanctions == old(i.w.sanctions) && RowIs(i.w, old(i.w.row))
    ensures i.w.hold == Nothing || i.w.hold == old(i.w.hold)
    ensures Sampled(old(i.log), i.log) <==> answer.Recorded? && b.FalsePositiveButton?
    ensures old(i.log) <= i.log && (!Sanctioned(i.key, old(i.w.row)) ==> NoLift(old(i.log), i.log))
    ensures !old(i.w.dead) && Smooth(i.nature, old(i.tick), i.tick) ==> !i.w.dead && answer.Recorded?
    ensures old(i.history) <= i.history
    ensures old(AllSafe(i.history)) ==> AllSafe(i.history)
  {
    hide AllSafe, ClaimsKept, AllConsistent, Happened, Sampled, NoLift, OnlyLifts, Liftable, Smooth, Incident.Valid;
    LastSafe(i);
    var failed := Undo(i, i.w.row);
    ghost var log, at := i.log, i.tick;
    SmoothParts(i.nature, old(i.tick), at, at);
    if failed {
      Release(i, b);
      SmoothParts(i.nature, old(i.tick), at, i.tick);
      UndoLog(old(i.log), log, i.log, false);
      return Failed;
    }
    answer := Conclude(i, b);
    SmoothParts(i.nature, old(i.tick), at, i.tick);
    UndoLog(old(i.log), log, i.log, answer.Recorded? && b.FalsePositiveButton?);
  }

  /** What the log of an undo tells. */
  lemma UndoLog(a: seq<Event>, mid: seq<Event>, b: seq<Event>, sampled: bool)
    requires OnlyLifts(a, mid) && b == mid + if sampled then [SampleSaved] else []
    ensures Sampled(a, b) <==> sampled
    ensures a <= b && (mid == a ==> NoLift(a, b))
  {
    if sampled {
      assert b[|mid|] == SampleSaved;
    }
  }

  /** The boundary, once pressed, is kept unless this press dropped the record. */
  predicate JobEndWith(k: Key, a: World, b: World) {
    && (b.holder.ByJob? ==> b.dead)
    && UnknownIsPunitive(b)
    && (OneSanction(a) ==> OneSanction(b))
    && (HoldFits(k, a) || a.dropped ==> HoldKnown(k, b))
    && (Clean(b) && PressedBoundary(k, a) ==> Boundary(k, b))
  }

  /** Confirm spam: nothing reaches Telegram, so a failed write gives the claim back. */
  method PressConfirm(i: Incident) returns (answer: Answer)
    requires i.Valid() && ButtonClaim(i.w, ConfirmButton)
    requires UnknownIsPunitive(i.w)
    modifies i
    ensures i.Valid() && Steps(old(i.w), i.w) && JobEndWith(i.key, old(i.w), i.w) && Quiet(old(i.w), i.w)
    ensures answer.Failed? || answer.Recorded?
    ensures !i.w.dead && answer.Failed? ==> i.w.holder.NoOne? && i.w.row.decision.Undecided?
    ensures !i.w.dead && answer.Recorded? ==> i.w.holder.Settled? && i.w.row.decision.ConfirmSpam?
    ensures i.w.dropped == old(i.w.dropped)
    ensures answer.Recorded? <==> Writes(old(i.w.dead), i.nature(old(i.tick)))
    ensures old(i.tick) <= i.tick
    ensures RowIs(i.w, old(i.w.row)) && i.log == old(i.log) + if answer.Recorded? then [SampleSaved] else []
    ensures !old(i.w.dead) && Smooth(i.nature, old(i.tick), i.tick) ==> !i.w.dead && answer.Recorded?
    ensures old(i.history) <= i.history
    ensures old(AllSafe(i.history)) ==> AllSafe(i.history)
  {
    hide AllSafe, ClaimsKept, AllConsistent;
    LastSafe(i);
    var written := i.SaveSample();
    if !written {
      Release(i, ConfirmButton);
      return Failed;
    }
    Settle(i, ConfirmButton);
    return Recorded;
  }

  /** What an enforce press finds: an observed row, whose sanction, if any, is recorded as unknown. */
  predicate Observed(k: Key, w: World) {
    && UnknownIsPunitive(w)
    && (w.row.dryRun ==> Unsanctioned(w))
    && (w.row.dryRun && !w.dropped && w.live ==> w.row.state.SanctionUnknown?)
  }

  /** The enforcer behind the button: the machine's Enforce with the configured action, then
      the row marked as enforced. */
  method Enforcer(i: Incident, action: Action) returns (out: Outcome)
    requires i.Valid() && JobClaim(i.w) && i.w.row.dryRun && Observed(i.key, i.w)
    modifies i
    ensures i.Valid() && i.w.present && Steps(old(i.w), i.w) && ClaimUntouched(old(i.w), i.w)
    ensures EnforcerLeft(i.key, old(i.w), i.w, action, out)
    ensures OnlyDestroys(old(i.log), i.log) && (out.deleted <==> Deleted(old(i.log), i.log))
    ensures old(i.tick) <= i.tick
    ensures !old(i.w.dead) && Smooth(i.nature, old(i.tick), i.tick) ==> !i.w.dead && out.sanctioned && out.deleted
    ensures old(i.history) <= i.history
    ensures old(AllSafe(i.history)) ==> AllSafe(i.history)
  {
    hide AllSafe, ClaimsKept, AllConsistent, Safe, Smooth, Enforcement, EnforcerLeft, Observed, Steps, ClaimUntouched,
         Consistent, Covered, Happened;
    LastSafe(i);
    ObservedIsCovered(i.key, i.w, action);
    out := Enforce(i, action);
    LastSafe(i);
    ghost var mid, at := i.w, i.tick;
    DeleteLogged(old(i.log), i.log, out.deleted, !mid.dead);
    if out.sanctioned {
      var _ := i.MarkIncidentEnforced(action);
      LastSafe(i);
      Through(old(i.w), mid, i.w);
    }
    SmoothParts(i.nature, old(i.tick), at, i.tick);
    EnforcerDone(i.key, old(i.w), mid, i.w, action, out);
  }

  lemma ObservedIsCovered(k: Key, w: World, action: Action)
    requires JobClaim(w) && w.row.dryRun && Observed(k, w)
    ensures Covered(w, action) && Unsanctioned(w)
  {
  }

  /** What the enforcer leaves, however far its process got. */
  predicate EnforcerLeft(k: Key, a: World, b: World, action: Action, out: Outcome) {
    && UnknownIsPunitive(b)
    && (b.dropped ==> a.dropped || (a.live && !Punitive(action)))
    && (out.sanctioned && !b.dead ==> !b.row.dryRun)
    && (Sanctioned(k, b.row) ==> b.ever || Sanctioned(k, a.row))
    && (!b.dead ==>
          && EnforcerCount(k, a, b, action, out)
          && (a.live && !Punitive(action) ==> b.dropped)
          && (!b.dropped ==> EnforcerEnd(k, a, b, action, out)))
  }

  lemma EnforcerDone(k: Key, a: World, mid: World, b: World, action: Action, out: Outcome)
    requires JobClaim(a) && a.row.dryRun && Observed(k, a) && Consistent(a) && Consistent(mid) && Consistent(b)
    requires Steps(a, mid) && ClaimUntouched(a, mid) && Enforcement(k, a, mid, action, out) && out.sanctioned == out.call.CallOk?
    requires if out.sanctioned
             then Steps(mid, b) && ClaimUntouched(mid, b) && Quiet(mid, b)
                  && RowIs(b, if b.dead then mid.row else mid.row.(dryRun := false, action := action))
                  && b.dropped == (mid.dropped || (!b.dead && mid.live && !Punitive(action)))
             else b == mid
    ensures EnforcerLeft(k, a, b, action, out)
    ensures Safe(mid) ==> Safe(b)
  {
  }

  /** The originals were deleted in between. */
  predicate Deleted(a: seq<Event>, b: seq<Event>) {
    Happened(b, |a|, |b|, SourceDeleteIssued(true))
  }

  /** Nothing but sanction calls and deletes was issued. */
  predicate OnlyDestroys(a: seq<Event>, b: seq<Event>) {
    a <= b && forall k :: |a| <= k < |b| ==> Destructive(b[k])
  }

  predicate EnforcerCount(k: Key, a: World, b: World, action: Action, out: Outcome) {
    && b.sanctions == a.sanctions + (if out.sanctioned then 1 else 0)
    && (out.sanctioned && (Punitive(action) || action.DeleteOnly?) ==> Closed(b.row))
    && (out.sanctioned ==> !b.row.dryRun && b.row.action == action && TookHold(k, a, b, action))
    && (!Punitive(action) ==> out.sanctioned && b.live == a.live && b.hold == a.hold)
  }

  predicate EnforcerEnd(k: Key, a: World, b: World, action: Action, out: Outcome) {
    && (b.live ==> Sanctioned(k, b.row) && Protects(b.row.(decision := Undecided)))
    && (HoldFits(k, a) ==> HoldFits(k, b))
    && (!a.row.state.Pending? && !a.row.state.Evidenced? ==> !b.row.state.Pending? && !b.row.state.Evidenced?)
  }

  /** The enforce press sanctioned, whether or not its sample was written. */
  predicate TookEffect(answer: Answer) {
    (answer.Enforced? && answer.sanctioned) || answer.RecordedWithoutSample?
  }

  /** What a press that reached the enforcer leaves. */
  predicate EnforceOutcome(k: Key, a: World, w: World, action: Action, answer: Answer) {
    && !w.row.decision.Enforcing? && !w.holder.ByJob?
    && w.sanctions == a.sanctions + (if TookEffect(answer) then 1 else 0)
    && (TookEffect(answer) ==> Closed(w.row) && w.row.action == action && TookHold(k, a, w, action))
    && (!w.dropped ==>
          && (w.live ==> Sanctioned(k, w.row))
          && (HoldFits(k, a) ==> HoldFits(k, w))
          && (!a.row.state.Pending? && !a.row.state.Evidenced? ==> !w.row.state.Pending? && !w.row.state.Evidenced?))
  }

  /** Enforcing with an action that makes no sanction call: whatever was in force still is, and the
      row no longer protects it. */
  predicate ActedWithout(a: World, b: World) {
    && b.live == a.live && b.hold == a.hold && !Protects(b.row)
    && (a.live ==> b.dropped)
  }

  /** The press sanctions, and its claim goes back: the row now refuses a second one. */
  method EnforceNow(i: Incident, action: Action) returns (answer: Answer)
    requires i.Valid() && ButtonClaim(i.w, EnforceButton) && i.w.row.dryRun && Observed(i.key, i.w)
    requires Punitive(action) || action.DeleteOnly?
    modifies i
    ensures i.Valid() && i.w.present && Steps(old(i.w), i.w)
    ensures EnforceDone(i.key, old(i.w), i.w, action, answer)
    ensures answer.Enforced? || answer.RecordedWithoutSample? || answer.Failed?
    ensures answer.Enforced? ==> (answer.deleted <==> Deleted(old(i.log), i.log))
    ensures answer.Failed? ==> !Deleted(old(i.log), i.log)
    ensures old(i.log) <= i.log && (Sampled(old(i.log), i.log) <==> answer.Enforced? && answer.sanctioned)
    ensures old(i.tick) <= i.tick
    ensures !old(i.w.dead) && Smooth(i.nature, old(i.tick), i.tick) ==> !i.w.dead && answer == Enforced(true, true)
    ensures old(i.history) <= i.history
    ensures old(AllSafe(i.history)) ==> AllSafe(i.history)
  {
    hide AllSafe, ClaimsKept, AllConsistent, Safe, Smooth, EnforcerLeft, EnforceDone, Observed, Steps, Deleted, Happened, Returned;
    var out := Enforcer(i, action);
    LastSafe(i);
    SanctionMarked(i.key, old(i.w), i.w, action, out);
    ghost var mid, log, at := i.w, i.log, i.tick;
    var took := ReturnClaim(i, out);
    LastSafe(i);
    Through(old(i.w), mid, i.w);
    EnforceEnds(i.key, old(i.w), mid, i.w, action, out);
    ghost var back, later := i.w, i.tick;
    SmoothParts(i.nature, old(i.tick), at, i.tick);
    EnforceLog(old(i.log), log, log, false);
    if !took {
      return if out.deleted then Enforced(false, true) else Failed;
    }
    answer := Sample(i, out.deleted);
    LastSafe(i);
    EnforceLog(old(i.log), log, i.log, answer.Enforced?);
    Through(old(i.w), back, i.w);
    SmoothParts(i.nature, old(i.tick), later, i.tick);
    SampleKeeps(i.key, old(i.w), back, i.w, action, out, answer);
  }

  /** What the log of an enforce press tells. */
  lemma EnforceLog(a: seq<Event>, mid: seq<Event>, b: seq<Event>, sampled: bool)
    requires OnlyDestroys(a, mid) && b == mid + if sampled then [SampleSaved] else []
    ensures Sampled(a, b) <==> sampled
    ensures Deleted(a, b) <==> Deleted(a, mid)
  {
    if sampled {
      assert b[|mid|] == SampleSaved;
    }
    if Deleted(a, mid) {
      HappenedOn(mid, b, |a|, SourceDeleteIssued(true));
    }
  }

  lemma SanctionMarked(k: Key, a: World, b: World, action: Action, out: Outcome)
    requires EnforcerLeft(k, a, b, action, out)
    ensures out.sanctioned && !b.dead ==> !b.row.dryRun
  {
  }

  /** The claim goes back, except over a row a dead process could not mark. */
  method ReturnClaim(i: Incident, out: Outcome) returns (took: bool)
    requires i.Valid() && ButtonClaim(i.w, EnforceButton) && (out.sanctioned && !i.w.dead ==> !i.w.row.dryRun)
    modifies i
    ensures i.Valid() && i.w.present && Returned(old(i.w), i.w) && i.log == old(i.log) && took == out.sanctioned
    ensures old(i.tick) <= i.tick
    ensures !old(i.w.dead) && Smooth(i.nature, old(i.tick), i.tick) ==> !i.w.dead
    ensures old(i.history) <= i.history
    ensures old(AllSafe(i.history)) && Safe(i.w) ==> AllSafe(i.history)
  {
    took := out.sanctioned;
    if !took || !i.w.row.dryRun {
      Release(i, EnforceButton);
    }
  }

  /** The enforce claim went back, or its process died holding it. */
  predicate Returned(a: World, b: World) {
    && Steps(a, b) && Quiet(a, b) && b.dropped == a.dropped && RowIs(b, a.row)
    && (if b.holder.ByJob? then b.dead && b.row == a.row else !b.row.decision.Enforcing?)
    && (a.dead ==> b.holder == a.holder && b.row == a.row)
  }

  /** What an enforce press that reached the enforcer leaves, however far it got. */
  predicate EnforceDone(k: Key, a: World, b: World, action: Action, answer: Answer) {
    && UnknownIsPunitive(b) && (b.holder.ByJob? ==> b.dead)
    && (HoldFits(k, a) ==> HoldKnown(k, b))
    && (b.dropped ==> a.dropped || (a.live && !Punitive(action)))
    && (Sanctioned(k, b.row) ==> b.ever || Sanctioned(k, a.row))
    && (!b.dead ==> EnforceOutcome(k, a, b, action, answer) && (!Punitive(action) ==> ActedWithout(a, b)))
  }

  lemma EnforceEnds(k: Key, a: World, mid: World, b: World, action: Action, out: Outcome)
    requires ButtonClaim(a, EnforceButton) && ClaimUntouched(a, mid) && Consistent(mid) && Consistent(b)
    requires EnforcerLeft(k, a, mid, action, out) && Returned(mid, b) && (Punitive(action) || action.DeleteOnly?)
    ensures EnforceDone(k, a, b, action, if out.sanctioned then Enforced(true, out.deleted) else if out.deleted then Enforced(false, true) else Failed)
    ensures Safe(mid) ==> Safe(b)
  {
  }

  lemma SampleKeeps(k: Key, a: World, mid: World, b: World, action: Action, out: Outcome, answer: Answer)
    requires EnforceDone(k, a, mid, action, Enforced(true, out.deleted)) && Consistent(mid) && Consistent(b)
    requires Steps(mid, b) && ClaimUntouched(mid, b) && Quiet(mid, b) && b.dropped == mid.dropped && RowIs(b, mid.row)
    requires answer == Enforced(true, out.deleted) || answer == RecordedWithoutSample
    ensures EnforceDone(k, a, b, action, answer)
    ensures Safe(mid) ==> Safe(b)
  {
  }

  /** The sample of an enforce press, once its claim is back. */
  method Sample(i: Incident, deleted: bool) returns (answer: Answer)
    requires i.Valid() && i.w.present
    modifies i
    ensures i.Valid() && Steps(old(i.w), i.w) && ClaimUntouched(old(i.w), i.w) && Quiet(old(i.w), i.w)
    ensures i.w.dropped == old(i.w.dropped) && RowIs(i.w, old(i.w.row))
    ensures answer == Enforced(true, deleted) || answer == RecordedWithoutSample
    ensures answer.Enforced? <==> Writes(old(i.w.dead), i.nature(old(i.tick)))
    ensures old(i.tick) <= i.tick
    ensures i.log == old(i.log) + if answer.Enforced? then [SampleSaved] else []
    ensures !old(i.w.dead) && Smooth(i.nature, old(i.tick), i.tick) ==> !i.w.dead && answer == Enforced(true, deleted)
    ensures old(i.history) <= i.history
    ensures old(AllSafe(i.history)) && Safe(i.w) ==> AllSafe(i.history)
  {
    var written := i.SaveSample();
    answer := if written then Enforced(true, deleted) else RecordedWithoutSample;
  }

  /** The enforce button, once its claim and its card are good. */
  method PressEnforce(i: Incident, enforcer: Option<Action>) returns (answer: Answer)
    requires i.Valid() && ButtonClaim(i.w, EnforceButton) && Observed(i.key, i.w)
    requires enforcer.Some? ==> Punitive(enforcer.value) || enforcer.value.DeleteOnly?
    requires PressedSafe(i.w)
    modifies i
    ensures i.Valid() && Steps(old(i.w), i.w) && JobEndWith(i.key, old(i.w), i.w)
    ensures answer.NotAvailable? || answer.EnforcedAlready? || answer.Enforced? || answer.RecordedWithoutSample? || answer.Failed?
    ensures answer.NotAvailable? <==> enforcer.None?
    ensures answer.EnforcedAlready? <==> enforcer.Some? && !old(i.w.row.dryRun)
    ensures !i.w.dead ==> !i.w.row.decision.Enforcing?
    ensures !i.w.dead ==> i.w.sanctions == old(i.w.sanctions) + (if TookEffect(answer) then 1 else 0)
    ensures !i.w.dead && TookEffect(answer) ==> Closed(i.w.row)
    ensures i.w.dropped && !old(i.w.dropped) ==> ForgetsByConfig(old(i.w), enforcer)
    ensures !i.w.dead && ForgetsByConfig(old(i.w), enforcer) ==> ActedWithout(old(i.w), i.w)
    ensures old(i.tick) <= i.tick
    ensures !old(i.w.dead) && Smooth(i.nature, old(i.tick), i.tick) ==>
              !i.w.dead && answer == EnforceReply(old(i.w.row), enforcer)
    ensures !i.w.dead && TookEffect(answer) ==> i.w.row.action == enforcer.value && TookHold(i.key, old(i.w), i.w, enforcer.value)
    ensures answer.Enforced? ==> (answer.deleted <==> Deleted(old(i.log), i.log))
    ensures Sanctioned(i.key, i.w.row) ==> i.w.ever || old(Sanctioned(i.key, i.w.row))
    ensures old(i.log) <= i.log && (Sampled(old(i.log), i.log) <==> answer.Enforced? && answer.sanctioned)
    ensures old(i.history) <= i.history
    ensures old(AllSafe(i.history)) ==> AllSafe(i.history)
  {
    if enforcer == None {
      Release(i, EnforceButton);
      return NotAvailable;
    }
    if !i.w.row.dryRun {
      Release(i, EnforceButton);
      return EnforcedAlready;
    }
    answer := EnforceNow(i, enforcer.value);
  }

  /** A claimed row without its claim is still seen by SanctionSince. */
  predicate PressedSafe(w: World) {
    w.dropped || (w.live ==> Protects(w.row.(decision := Undecided)))
  }

  /** Enforcing with an action that makes no sanction call, over a sanction whose outcome is unknown. */
  predicate ForgetsByConfig(w: World, enforcer: Option<Action>) {
    enforcer.Some? && !Punitive(enforcer.value) && w.row.dryRun && w.live && !w.dropped
  }

  /** The claim is ours: the row is read again, and a retired card gives the claim back. */
  method CheckCard(i: Incident, b: Button, card: int) returns (go: bool, answer: Answer)
    requires i.Valid() && ButtonClaim(i.w, b) && PressedSafe(i.w)
    modifies i
    ensures i.Valid() && Steps(old(i.w), i.w) && Quiet(old(i.w), i.w) && i.log == old(i.log)
    ensures i.w.dropped == old(i.w.dropped) && RowIs(i.w, old(i.w.row))
    ensures go ==> ButtonClaim(i.w, b) && CurrentCard(i.w.row, card)
    ensures !go ==> if i.w.dead then i.w.row == old(i.w.row) else i.w.row.decision.Undecided? && i.w.holder.NoOne?
    ensures !go ==> answer.Failed? || (answer.StaleCard? && !CurrentCard(i.w.row, card))
    ensures old(i.tick) < i.tick
    ensures !old(i.w.dead) && Smooth(i.nature, old(i.tick), i.tick) ==> !i.w.dead && (go <==> CurrentCard(old(i.w.row), card)) && (!go ==> answer.StaleCard?)
    ensures old(i.history) <= i.history
    ensures old(AllSafe(i.history)) ==> AllSafe(i.history)
  {
    hide AllSafe, ClaimsKept, AllConsistent, Smooth, Safe, PressedSafe, Consistent, Incident.Valid;
    LastSafe(i);
    var read := ReadTwice(i);
    LastSafe(i);
    ghost var mid, at := i.w, i.tick;
    go := read && CurrentCard(i.w.row, card);
    answer := if read then StaleCard else Failed;
    if !go {
      Release(i, b);
    }
    PressedStaysSafe(old(i.w), mid);
    PressedStaysSafe(old(i.w), i.w);
    SmoothParts(i.nature, old(i.tick), at, i.tick);
  }

  /** The row and the current card, read again under the claim. */
  method ReadTwice(i: Incident) returns (read: bool)
    requires i.Valid() && i.w.present
    modifies i
    ensures i.Valid() && Steps(old(i.w), i.w) && ClaimUntouched(old(i.w), i.w) && Quiet(old(i.w), i.w) && i.log == old(i.log)
    ensures i.w.dropped == old(i.w.dropped) && RowIs(i.w, old(i.w.row))
    ensures read ==> !i.w.dead
    ensures old(i.tick) < i.tick
    ensures !old(i.w.dead) && Smooth(i.nature, old(i.tick), i.tick) ==> !i.w.dead && read
    ensures old(i.history) <= i.history
    ensures old(AllSafe(i.history)) && Safe(i.w) && old(PressedSafe(i.w)) ==> AllSafe(i.history)
  {
    hide AllSafe, ClaimsKept, AllConsistent, Incident.Valid;
    LastSafe(i);
    read := i.Touch();
    if read {
      read := i.Touch();
    }
  }

  /** Whatever becomes of its claim, a pressed row stays protected. */
  lemma PressedStaysSafe(a: World, b: World)
    requires PressedSafe(a) && Steps(a, b) && Quiet(a, b) && RowIs(b, a.row) && b.dropped == a.dropped
    ensures Safe(a) ==> Safe(b)
  {
  }

  /** Somebody else's decision stands: the presser of a retired card is told that instead. */
  method AnswerDecided(i: Incident, existing: Decision, card: int) returns (answer: Answer)
    requires i.Valid() && i.w.present
    modifies i
    ensures i.Valid() && Steps(old(i.w), i.w) && ClaimUntouched(old(i.w), i.w) && Quiet(old(i.w), i.w)
    ensures i.log == old(i.log) && i.w.dropped == old(i.w.dropped) && RowIs(i.w, old(i.w.row))
    ensures answer == DecidedAlready(existing) || (!existing.Enforcing? && (answer.Failed? || answer.StaleCard?))
    ensures answer.StaleCard? ==> !CurrentCard(old(i.w.row), card)
    ensures old(i.tick) <= i.tick
    ensures !old(i.w.dead) && Smooth(i.nature, old(i.tick), i.tick) ==>
              !i.w.dead && answer == if existing.Enforcing? || CurrentCard(old(i.w.row), card) then DecidedAlready(existing) else StaleCard
    ensures old(i.history) <= i.history
    ensures old(AllSafe(i.history)) && Safe(i.w) ==> AllSafe(i.history)
  {
    answer := DecidedAlready(existing);
    if !existing.Enforcing? {
      var read := i.Touch();
      if !read {
        answer := Failed;
      } else if !CurrentCard(i.w.row, card) {
        answer := StaleCard;
      }
    }
  }

  /** Everything dispatch does before the button acts: one decision per incident, and only
      from the current card. */
  method ClaimPress(i: Incident, b: Button, card: int) returns (go: bool, answer: Answer)
    requires i.Valid() && i.w.present && Resting(i.key, i.w) && Safe(i.w)
    modifies i
    ensures i.Valid() && Steps(old(i.w), i.w) && Unmoved(old(i.w), i.w) && i.log == old(i.log)
    ensures if go then Granted(old(i.w), i.w, b, card) else NotGranted(i.key, old(i.w), i.w, card, answer)
    ensures old(i.tick) < i.tick
    ensures !old(i.w.dead) && Smooth(i.nature, old(i.tick), i.tick) && i.nature(old(i.tick)).cli.CliIdle? ==>
              && !i.w.dead && (go <==> old(i.w.row.decision).Undecided? && CurrentCard(old(i.w.row), card))
              && (!go ==> answer == Refusal(old(i.w.row), card))
    ensures old(i.history) <= i.history
    ensures old(AllSafe(i.history)) ==> AllSafe(i.history)
  {
    hide AllSafe, ClaimsKept, AllConsistent, Safe, Smooth, Resting, PressedSafe, Observed, UnknownIsPunitive, NotGranted, Unmoved, Quiet,
         RowIs, ClaimUntouched, Consistent, CurrentRow, HoldKnown, JobEnd, ButtonClaim, Steps, Incident.Valid;
    LastSafe(i);
    go := false;
    ghost var before := i.w;
    var claim := i.RecordDecision(DecisionOf(b));
    LastSafe(i);
    ghost var mid, at := i.w, i.tick;
    Alive(before, mid);
    UnmovedThrough(before, mid, mid);
    SmoothParts(i.nature, old(i.tick), at, at);
    match claim
    case ClaimFailed =>
      answer := Failed;
      StillResting(i.key, before, mid);
      NotClaimed(i.key, before, mid, card, answer);
    case AlreadyDecided(existing) =>
      StillResting(i.key, before, mid);
      RowsAlike(before, mid, card);
      answer := Refuse(i, before, existing, card);
      SmoothParts(i.nature, old(i.tick), at, i.tick);
    case Claimed =>
      ClaimIsButtons(mid, b);
      PressedRow(i.key, before, mid);
      go, answer := CheckCard(i, b, card);
      LastSafe(i);
      SmoothParts(i.nature, old(i.tick), at, i.tick);
      Through(before, mid, i.w);
      UnmovedThrough(before, mid, i.w);
      if !go {
        GivenBack(i.key, before, i.w, card, answer);
      }
  }

  /** The claim of another decision, or of nobody any more, stands. */
  method Refuse(i: Incident, ghost before: World, existing: Decision, card: int) returns (answer: Answer)
    requires i.Valid() && i.w.present && Consistent(before) && Resting(i.key, before) && Safe(before)
    requires Steps(before, i.w) && ClaimUntouched(before, i.w) && Unmoved(before, i.w)
    requires !existing.Undecided? && existing == i.w.row.decision
    modifies i
    ensures i.Valid() && Steps(before, i.w) && Unmoved(before, i.w) && i.log == old(i.log)
    ensures NotGranted(i.key, before, i.w, card, answer)
    ensures old(i.tick) <= i.tick
    ensures !old(i.w.dead) && Smooth(i.nature, old(i.tick), i.tick) ==> !i.w.dead && answer == Refusal(old(i.w.row), card)
    ensures old(i.history) <= i.history
    ensures old(AllSafe(i.history)) ==> AllSafe(i.history)
  {
    hide AllSafe, ClaimsKept, AllConsistent, Safe, Smooth, Resting, NotGranted, JobEnd, Incident.Valid, Consistent;
    answer := AnswerDecided(i, existing, card);
    LastSafe(i);
    StillResting(i.key, before, i.w);
    DecidedBefore(i.key, before, old(i.w), i.w, existing, card, answer);
  }

  lemma Alive(a: World, b: World)
    requires Steps(a, b) && a.present
    ensures b.present && (!b.dead ==> !a.dead) && (a.died ==> b.died)
  {
  }

  /** The press may act. */
  predicate Granted(a: World, w: World, b: Button, card: int) {
    ButtonClaim(w, b) && CurrentCard(w.row, card) && (a.holder.NoOne? || a.holder.ByCli?)
  }

  /** The press may not act, and says why. */
  predicate NotGranted(k: Key, a: World, w: World, card: int, answer: Answer) {
    && (w.holder.ByJob? ==> w.dead) && HoldKnown(k, w)
    && (!w.dead ==> w.row.decision.Undecided? || w.row.decision.ConfirmSpam? || w.row.decision == a.row.decision)
    && (answer.StaleCard? || answer.DecidedAlready? || answer.Failed?)
    && (answer.StaleCard? ==> !CurrentCard(a.row, card))
    && (answer.DecidedAlready? ==>
          !answer.existing.Undecided? && (answer.existing == a.row.decision || answer.existing.ConfirmSpam?))
  }

  /** What a press that may not act is told if nothing goes wrong. */
  function Refusal(row: Row, card: int): Answer {
    if !row.decision.Undecided? && (row.decision.Enforcing? || CurrentCard(row, card)) then DecidedAlready(row.decision) else StaleCard
  }

  lemma UnmovedThrough(a: World, b: World, c: World)
    requires Quiet(a, b) && RowIs(b, a.row) && b.dropped == a.dropped
    requires b == c || (Quiet(b, c) && RowIs(c, b.row) && c.dropped == b.dropped)
    ensures Unmoved(a, c) && CurrentRow(b.row, a.row)
  {
  }

  ghost predicate CurrentRow(a: Row, b: Row) {
    forall card :: CurrentCard(a, card) <==> CurrentCard(b, card)
  }

  lemma ClaimIsButtons(w: World, b: Button)
    requires w.present && w.holder.ByJob? && w.row.decision == DecisionOf(b)
    ensures ButtonClaim(w, b)
  {
  }

  lemma RowsAlike(a: World, b: World, card: int)
    requires Unmoved(a, b)
    ensures a.row.decision == b.row.decision ==> Refusal(b.row, card) == Refusal(a.row, card)
  {
  }

  lemma NotClaimed(k: Key, a: World, w: World, card: int, answer: Answer)
    requires JobEnd(k, w) && Consistent(a) && Resting(k, a) && ClaimUntouched(a, w) && answer.Failed?
    ensures NotGranted(k, a, w, card, answer)
  {
  }

  lemma DecidedBefore(k: Key, a: World, mid: World, w: World, existing: Decision, card: int, answer: Answer)
    requires JobEnd(k, w) && Consistent(a) && Resting(k, a) && ClaimUntouched(a, mid) && ClaimUntouched(a, w)
    requires !existing.Undecided? && existing == mid.row.decision && CurrentRow(mid.row, a.row)
    requires answer == DecidedAlready(existing) || (!existing.Enforcing? && (answer.Failed? || answer.StaleCard?))
    requires answer.StaleCard? ==> !CurrentCard(mid.row, card)
    ensures NotGranted(k, a, w, card, answer)
  {
  }

  lemma GivenBack(k: Key, a: World, w: World, card: int, answer: Answer)
    requires Consistent(a) && Resting(k, a) && (a.holder.NoOne? || a.holder.ByCli?) && Unmoved(a, w)
    requires if w.dead then true else w.row.decision.Undecided? && w.holder.NoOne?
    requires answer.Failed? || (answer.StaleCard? && !CurrentCard(w.row, card))
    ensures NotGranted(k, a, w, card, answer)
  {
  }

  lemma PressedRow(k: Key, before: World, w: World)
    requires Consistent(before) && Resting(k, before) && Safe(before)
    requires before.holder.NoOne? || before.holder.ByCli?
    requires RowIs(w, before.row) && Quiet(before, w) && w.dropped == before.dropped
    requires before.died ==> w.died
    ensures UnknownIsPunitive(w) && PressedSafe(w) && Observed(k, w)
    ensures OneSanction(w) && Safe(w)
    ensures HoldFits(k, w) || w.dropped
    ensures !w.dropped && !Leftover(before.row) ==> Liftable(k, w)
    ensures Leftover(before.row) ==> !Sanctioned(k, w.row)
    ensures Clean(w) && w.present ==> PressedBoundary(k, w) && Liftable(k, w)
  {
  }

  /** A press that does not get to act leaves the incident as it found it. */
  lemma Unpressed(k: Key, before: World, w: World, b: Button, card: int, enforcer: Option<Action>, answer: Answer)
    requires Resting(k, before) && Consistent(w) && Steps(before, w) && Unmoved(before, w)
    requires NotGranted(k, before, w, card, answer)
    ensures !answer.Enforced? && !answer.Recorded?
    ensures Dispatched(k, before, w, b, card, enforcer, answer)
  {
  }

  predicate Decided(b: Button, w: World) {
    w.holder.Settled? && w.row.decision == if b.FalsePositiveButton? then FalsePositive else LiftNoLearn
  }

  /** What a false-positive or lift press on the current card achieves, in a process that lives. */
  predicate UndoOutcome(b: Button, a: World, w: World, answer: Answer) {
    match answer
    case Recorded => w.hold == Nothing && !w.live && Decided(b, w)
    case RecordedWithoutSample => w.hold == Nothing && !w.live && Decided(b, w)
    case Failed =>
      && w.live == a.live
      && (w.row.decision.Undecided? || w.row.decision.ConfirmSpam? || w.row.decision == a.row.decision)
    case DecidedAlready(d) => !d.Undecided? && (d == a.row.decision || d.ConfirmSpam?) && w.live == a.live
    case _ => false
  }

  /** The same press on a row whose job died before it recorded its sanction: it is recorded all the
      same, and lifts nothing. */
  predicate NothingLifted(a: World, w: World, answer: Answer) {
    && w.hold == a.hold && w.live == a.live
    && (answer.Recorded? || answer.RecordedWithoutSample? ==> w.holder.Settled?)
  }

  function EnforceReply(row: Row, enforcer: Option<Action>): Answer {
    if enforcer.None? then NotAvailable else if !row.dryRun then EnforcedAlready else Enforced(true, true)
  }

  /** The answer to a press in which nothing goes wrong. */
  function Expected(b: Button, row: Row, card: int, enforcer: Option<Action>): Answer {
    if !row.decision.Undecided? then
      if row.decision.Enforcing? || CurrentCard(row, card) then DecidedAlready(row.decision) else StaleCard
    else if !CurrentCard(row, card) then StaleCard
    else if !b.EnforceButton? then Recorded
    else EnforceReply(row, enforcer)
  }

  /** What a press leaves once its claim and its card are good. */
  predicate ActedOn(k: Key, a: World, w: World, b: Button, enforcer: Option<Action>, answer: Answer) {
    && JobEndWith(k, a, w)
    && (Sanctioned(k, w.row) ==> w.ever || Sanctioned(k, a.row))
    && !answer.StaleCard? && !answer.DecidedAlready?
    && (match b
        case EnforceButton =>
          && (w.dropped && !a.dropped ==> ForgetsByConfig(a, enforcer))
          && (!w.dead && TookEffect(answer) ==>
                && enforcer.Some? && Closed(w.row) && w.row.action == enforcer.value
                && TookHold(k, a, w, enforcer.value) && w.sanctions == a.sanctions + 1)
        case ConfirmButton =>
          && Quiet(a, w) && RowIs(w, a.row) && w.dropped == a.dropped
          && (!w.dead && answer.Recorded? ==> w.holder.Settled? && w.row.decision.ConfirmSpam?)
        case _ =>
          && RowIs(w, a.row) && w.sanctions == a.sanctions && w.dropped == a.dropped && (w.hold == Nothing || w.hold == a.hold)
          && (answer.Failed? || answer.Recorded? || answer.RecordedWithoutSample?)
          && (!Sanctioned(k, a.row) ==> !answer.Failed? && w.hold == a.hold && w.live == a.live)
          && (!w.dead && answer.Failed? ==> w.holder.NoOne? && w.row.decision.Undecided? && w.live == a.live)
          && (!w.dead && !answer.Failed? ==>
                && w.holder.Settled? && w.row.decision == DecisionOf(b)
                && (HasSubject(k) && Liftable(k, a) ==> w.hold == Nothing && !w.live)))
  }

  /** The answers that stand for a saved sample: a decision that took effect teaches, a lift never does. */
  predicate Teaches(b: Button, answer: Answer) {
    || (answer.Recorded? && (b.FalsePositiveButton? || b.ConfirmButton?))
    || (answer.Enforced? && answer.sanctioned)
  }

  /** The button acts. */
  method ActOn(i: Incident, b: Button, enforcer: Option<Action>) returns (answer: Answer)
    requires i.Valid() && ButtonClaim(i.w, b) && UnknownIsPunitive(i.w) && PressedSafe(i.w) && Observed(i.key, i.w)
    requires enforcer.Some? ==> Punitive(enforcer.value) || enforcer.value.DeleteOnly?
    modifies i
    ensures i.Valid() && Steps(old(i.w), i.w) && ActedOn(i.key, old(i.w), i.w, b, enforcer, answer)
    ensures old(i.tick) <= i.tick
    ensures !old(i.w.dead) && Smooth(i.nature, old(i.tick), i.tick) ==>
              !i.w.dead && answer == if !b.EnforceButton? then Recorded else EnforceReply(old(i.w.row), enforcer)
    ensures answer.Enforced? ==> (answer.deleted <==> Deleted(old(i.log), i.log))
    ensures !b.EnforceButton? && (b.ConfirmButton? || !Sanctioned(i.key, old(i.w.row))) ==> NoLift(old(i.log), i.log)
    ensures old(i.log) <= i.log && (Sampled(old(i.log), i.log) <==> Teaches(b, answer))
    ensures old(i.history) <= i.history
    ensures old(AllSafe(i.history)) ==> AllSafe(i.history)
  {
    hide AllSafe, ClaimsKept, AllConsistent, Smooth, Deleted, Happened, JobEndWith, TookHold, Closed, Liftable, PressedSafe,
         Observed, Incident.Valid;
    match b
    case EnforceButton => answer := PressEnforce(i, enforcer);
    case ConfirmButton =>
      answer := PressConfirm(i);
      UndoLog(old(i.log), old(i.log), i.log, answer.Recorded?);
    case _ => answer := PressUndo(i, b);
  }

  /** dispatch for the buttons that decide. */
  method Dispatch(i: Incident, b: Button, card: int, enforcer: Option<Action>) returns (answer: Answer)
    requires i.Valid() && i.w.present && !i.w.dead && Resting(i.key, i.w) && Safe(i.w)
    requires enforcer.Some? ==> Punitive(enforcer.value) || enforcer.value.DeleteOnly?
    modifies i
    ensures i.Valid() && Steps(old(i.w), i.w)
    ensures Dispatched(i.key, old(i.w), i.w, b, card, enforcer, answer)
    ensures old(i.tick) <= i.tick
    ensures !old(i.w.dead) && Smooth(i.nature, old(i.tick), i.tick) && i.nature(old(i.tick)).cli.CliIdle? ==>
              !i.w.dead && answer == Expected(b, old(i.w.row), card, enforcer)
    ensures answer.Enforced? ==> (answer.deleted <==> Deleted(old(i.log), i.log))
    ensures b.ConfirmButton? ==> NoLift(old(i.log), i.log)
    ensures old(Backed(i.key, i.w)) && !old(i.w.ever) && !b.EnforceButton? ==> NoLift(old(i.log), i.log)
    ensures Sampled(old(i.log), i.log) <==> Teaches(b, answer)
    ensures old(i.history) <= i.history
    ensures old(AllSafe(i.history)) ==> AllSafe(i.history)
  {
    hide AllSafe, ClaimsKept, AllConsistent, Safe, Smooth, Deleted, Happened, ActedOn, Dispatched, JobEnd, Resting, Backed, Sanctioned,
         HoldFits, PressedSafe, Observed, UnknownIsPunitive, NotGranted, Granted, Unmoved, Steps, ButtonClaim, Consistent,
         Incident.Valid;
    LastSafe(i);
    ghost var before := i.w;
    var go;
    go, answer := ClaimPress(i, b, card);
    LastSafe(i);
    ghost var mid, at := i.w, i.tick;
    if !go {
      Unpressed(i.key, before, mid, b, card, enforcer, answer);
      UndoLog(i.log, i.log, i.log, false);
      return;
    }
    GrantedRow(i.key, before, mid, b, card);
    answer := ActOn(i, b, enforcer);
    LastSafe(i);
    Through(before, mid, i.w);
    SmoothParts(i.nature, old(i.tick), at, i.tick);
    PressEnds(i.key, before, mid, i.w, b, card, enforcer, answer);
  }

  /** What a press leaves, whether or not it got to act. */
  predicate Dispatched(k: Key, a: World, w: World, b: Button, card: int, enforcer: Option<Action>, answer: Answer) {
    && JobEnd(k, w)
    && ((b.FalsePositiveButton? || b.LiftButton?) && CurrentCard(a.row, card) && HasSubject(k) && !w.dead && !a.dropped
        ==> if Leftover(a.row) then NothingLifted(a, w, answer) else UndoOutcome(b, a, w, answer))
    && (b.ConfirmButton? && !w.dead && answer.Recorded? ==>
          w.holder.Settled? && w.row.decision.ConfirmSpam? && w.live == a.live)
    && (answer.StaleCard? ==> !CurrentCard(a.row, card))
    && (w.dropped && !a.dropped ==> b.EnforceButton? && ForgetsByConfig(a, enforcer))
    && (b.EnforceButton? && !w.dead && TookEffect(answer) ==>
          && enforcer.Some? && Closed(w.row) && w.row.action == enforcer.value
          && TookHold(k, a, w, enforcer.value) && w.sanctions == a.sanctions + 1)
    && (!b.EnforceButton? ==> RowIs(w, a.row) && w.sanctions == a.sanctions && (w.hold == Nothing || w.hold == a.hold))
    && (b.ConfirmButton? ==> w.live == a.live && w.hold == a.hold)
    && (Backed(k, a) ==> Backed(k, w))
  }

  lemma GrantedRow(k: Key, before: World, mid: World, b: Button, card: int)
    requires Consistent(before) && Resting(k, before) && Safe(before) && Steps(before, mid)
    requires Granted(before, mid, b, card) && Unmoved(before, mid)
    ensures ButtonClaim(mid, b) && UnknownIsPunitive(mid) && PressedSafe(mid) && Observed(k, mid)
    ensures mid.row.dryRun == before.row.dryRun
  {
    PressedRow(k, before, mid);
  }

  lemma PressEnds(k: Key, before: World, mid: World, w: World, b: Button, card: int, enforcer: Option<Action>, answer: Answer)
    requires Consistent(before) && Resting(k, before) && Safe(before) && Steps(before, mid) && Steps(mid, w)
    requires Granted(before, mid, b, card) && Unmoved(before, mid)
    requires Consistent(w) && ActedOn(k, mid, w, b, enforcer, answer)
    ensures Dispatched(k, before, w, b, card, enforcer, answer)
    ensures Sanctioned(k, mid.row) ==> Sanctioned(k, before.row)
    ensures Backed(k, before) && !before.ever ==> !Sanctioned(k, before.row)
  {
    PressedRow(k, before, mid);
  }
}
