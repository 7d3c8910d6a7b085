/** Whole runs of one incident: any number of jobs of its chat, one after another, with the
    process dying anywhere, and what they mean for SanctionSince and for the moderators. */
module IncidentRuns {
  import opened Options
  import opened IncidentRow
  import opened IncidentStore
  import opened IncidentMachine
  import opened AdminCallbacks

  datatype JobOf = Message(report: Report) | Press(button: Button, card: int, enforcer: Option<Action>)

  predicate Plausible(j: JobOf) {
    match j
    case Message(r) => WellFormed(r)
    case Press(_, _, e) => e.Some? ==> Punitive(e.value) || e.value.DeleteOnly?
  }

  /** The two kinds of job that can lose the record of a sanction in force. */
  predicate Retries(j: JobOf) {
    j.Message? && IsManual(j.report)
  }

  predicate PressesDeleteOnly(j: JobOf) {
    j.Press? && j.button.EnforceButton? && j.enforcer == Some(DeleteOnly)
  }

  /** The jobs of one incident in the order its chat's sequencer runs them. A press on an
      incident that has no row yet is answered "not found". */
  method Run(i: Incident, jobs: seq<JobOf>)
    requires i.Valid() && !i.w.dead && Resting(i.key, i.w) && AllSafe(i.history)
    requires forall j :: j in jobs ==> Plausible(j)
    modifies i
    ensures i.Valid() && Resting(i.key, i.w) && !i.w.dead
    ensures old(i.history) <= i.history && AllSafe(i.history)
    ensures (forall j :: j in jobs && j.Message? ==> ReviewObserves(j.report)) && old(Backed(i.key, i.w)) ==> Backed(i.key, i.w)
    ensures i.w.dropped && !old(i.w.dropped) ==>
              || (i.w.died && exists j :: j in jobs && Retries(j))
              || (exists j :: j in jobs && PressesDeleteOnly(j))
  {
    hide AllSafe, ClaimsKept, AllConsistent, Resting, JobEnd, Backed, Safe, NeverDies;
    for n := 0 to |jobs|
      invariant i.Valid() && Resting(i.key, i.w) && !i.w.dead
      invariant old(i.history) <= i.history && AllSafe(i.history)
      invariant (forall j :: j in jobs && j.Message? ==> ReviewObserves(j.report)) && old(Backed(i.key, i.w)) ==> Backed(i.key, i.w)
      invariant i.w.dropped && !old(i.w.dropped) ==>
                  || (i.w.died && exists j :: j in jobs && Retries(j))
                  || (exists j :: j in jobs && PressesDeleteOnly(j))
    {
      assert jobs[n] in jobs;
      LastSafe(i);
      match jobs[n] {
        case Message(r) =>
          var _, _ := Handle(i, r);
        case Press(b, card, enforcer) =>
          if i.w.present {
            var _ := Dispatch(i, b, card, enforcer);
          }
      }
      ghost var end := i.w;
      i.NextJob();
      NextRests(i.key, end, i.w);
    }
  }

  /** What a job leaves is what the next one finds. */
  lemma NextRests(k: Key, a: World, b: World)
    requires JobEnd(k, a) || Resting(k, a)
    requires b == a.(dead := false, holder := b.holder, actor := Restart) && !b.holder.ByJob?
    ensures Resting(k, b) && (Backed(k, a) ==> Backed(k, b))
  {
  }

  /** A whole run of one incident: every state it went through, and the jobs that ran. */
  datatype RunRecord = RunRecord(history: seq<World>, jobs: seq<JobOf>)

  /** The only two ways to lose the record of a sanction: a moderator's retry after a death, and
      the enforce button with delete_only. */
  ghost predicate MayForget(r: RunRecord)
    requires r.history != []
  {
    || (r.history[|r.history|-1].died && exists j :: j in r.jobs && Retries(j))
    || (exists j :: j in r.jobs && PressesDeleteOnly(j))
  }

  /** What every run of an incident satisfies. */
  ghost predicate RunLaws(r: RunRecord) {
    && r.history != []
    && AllSafe(r.history) && ClaimsKept(r.history) && AllConsistent(r.history)
    && (r.history[|r.history|-1].dropped ==> MayForget(r))
    && !r.history[0].ever
  }

  /** A run from the first report on: its history of states satisfies every law below. */
  method RunFromStart(nature: nat -> Choice, key: Key, jobs: seq<JobOf>) returns (i: Incident)
    requires forall j :: j in jobs ==> Plausible(j)
    ensures i.Valid() && i.key == key && i.w == i.history[|i.history|-1]
    ensures RunLaws(RunRecord(i.history, jobs))
    ensures !i.w.dropped && i.w.live ==> Sanctioned(key, i.w.row) || Leftover(i.w.row) || i.w.row.decision.Enforcing?
    ensures !i.w.dropped && !i.w.row.decision.Enforcing? ==> HoldFits(key, i.w)
    ensures (forall j :: j in jobs && j.Message? ==> ReviewObserves(j.report)) && Sanctioned(key, i.w.row) ==>
              exists k :: 0 <= k < |i.history| && i.history[k].live
    ensures NeverDies(nature) ==> !i.w.died
    ensures !i.w.died && (forall j :: j in jobs ==> !PressesDeleteOnly(j)) ==> !i.w.dropped && Boundary(key, i.w)
  {
    i := new Incident(nature, key);
    ghost var first := i.history;
    Run(i, jobs);
    LastSafe(i);
    assert i.history[0] == first[0];
    if i.w.ever {
      var _ := EverLive(i.history, |i.history| - 1);
    }
  }

  // Laws of the histories such runs leave behind.

  lemma {:induction false} FlagsStay(h: seq<World>, i: nat, j: nat)
    requires ClaimsKept(h) && i <= j < |h|
    ensures h[i].died ==> h[j].died
    ensures h[i].dropped ==> h[j].dropped
  {
    if i < j {
      FlagsStay(h, i, j - 1);
      assert ClaimStep(h[j-1], h[j]);
    }
  }

  /** What once landed or may have landed was in force, or may have been, at some state before. */
  lemma {:induction false} EverLive(h: seq<World>, k: nat) returns (j: nat)
    requires ClaimsKept(h) && k < |h| && !h[0].ever && h[k].ever
    ensures j <= k && h[j].live
    decreases k
  {
    assert ClaimStep(h[k-1], h[k]);
    j := k;
    if h[k-1].ever {
      j := EverLive(h, k - 1);
    }
  }

  /** A live sanction is seen at every intermediate state up to the loss of its record, also where
      the process died; what was lost stays lost. */
  lemma ProtectedThroughout(h: seq<World>, k: nat)
    requires ClaimsKept(h) && AllSafe(h) && k < |h| && !h[k].dropped
    ensures h[k].live ==> Protects(h[k].row)
    ensures forall j :: 0 <= j <= k ==> !h[j].dropped && (h[j].live ==> Protects(h[j].row))
  {
    forall j | 0 <= j <= k
      ensures !h[j].dropped && (h[j].live ==> Protects(h[j].row))
    {
      FlagsStay(h, j, k);
      assert Safe(h[j]);
    }
  }

  /** Unless a job died, at most one Enforce ever reported its sanction. */
  lemma SanctionedOnce(h: seq<World>, k: nat)
    requires ClaimsKept(h) && AllSafe(h) && k < |h| && !h[|h|-1].died
    ensures h[k].sanctions <= 1
  {
    FlagsStay(h, k, |h| - 1);
    assert Safe(h[k]);
  }

  /** A settled decision is the last word on the incident; so is a claim whose process died. */
  lemma {:induction false} SettledForever(h: seq<World>, i: nat, j: nat)
    requires ClaimsKept(h) && i <= j < |h| && (h[i].holder.Settled? || h[i].holder.Orphan?)
    ensures h[j].holder == h[i].holder && h[j].row.decision == h[i].row.decision
  {
    if i < j {
      SettledForever(h, i, j - 1);
      assert ClaimStep(h[j-1], h[j]);
    }
  }

  predicate Held(holder: Holder) {
    holder.ByJob? || holder.ByCli?
  }

  /** A claim is held by one actor at a time: before another holder or another decision, the
      one who held it gave it back. */
  lemma {:induction false} ReleasedInBetween(h: seq<World>, i: nat, j: nat) returns (k: nat)
    requires ClaimsKept(h) && AllConsistent(h) && i < j < |h| && !h[i].holder.NoOne?
    requires h[j].row.decision != h[i].row.decision
             || (h[j].holder != h[i].holder && (Held(h[j].holder) || h[j].holder.NoOne?))
    ensures i <= k < j && h[k].holder == h[i].holder && h[k].row.decision == h[i].row.decision
    ensures h[k+1].holder.NoOne? && h[k+1].row.decision.Undecided?
    ensures (h[k+1].actor.Job? && h[k].holder.ByJob?) || (h[k+1].actor.Cli? && h[k].holder.ByCli?)
    decreases j - i
  {
    k := i;
    assert ClaimStep(h[i], h[i+1]);
    if h[i+1].holder == h[i].holder {
      k := ReleasedInBetween(h, i + 1, j);
    } else if h[i+1].holder.Settled? || h[i+1].holder.Orphan? {
      SettledForever(h, i + 1, j);
    }
  }

  /** Two jobs never share a claim either: the first gave it back before the second took it. */
  lemma OneJobHolds(h: seq<World>, i: nat, r: nat, j: nat) returns (k: nat)
    requires ClaimsKept(h) && AllConsistent(h) && i < r < j < |h|
    requires h[i].holder.ByJob? && h[r].actor.Restart? && h[j].holder.ByJob?
    ensures i <= k < r && h[k].holder.ByJob? && h[k+1].holder.NoOne? && h[k+1].actor.Job?
  {
    assert ClaimStep(h[r-1], h[r]);
    if h[r].holder.Settled? || h[r].holder.Orphan? {
      SettledForever(h, r, j);
    }
    k := ReleasedInBetween(h, i, r);
  }

  /** Wherever a run stands before it lost a record, an incident SanctionSince does not see holds nothing. */
  lemma UnseenHoldsNothing(r: RunRecord, w: World)
    requires RunLaws(r) && w in r.history && !w.dropped && !Protects(w.row)
    ensures !w.live && w.hold.Nothing?
  {
    var k :| 0 <= k < |r.history| && r.history[k] == w;
    assert Safe(r.history[k]) && Consistent(r.history[k]);
  }

  /** What SanctionSince answers about a member while incidents of his run. */
  lemma LiveSanctionSeen(keys: seq<Key>, worlds: seq<World>, n: nat, chatId: int, userId: int, since: int)
    requires |keys| == |worlds| && n < |keys|
    requires keys[n].chatId == chatId && keys[n].userId == userId && keys[n].createdAt >= since
    requires Safe(worlds[n]) && !worlds[n].dropped && worlds[n].live
    ensures SanctionSince(seq(|keys|, m requires 0 <= m < |keys| => (keys[m], worlds[m].row)), chatId, userId, since)
  {
    var rows := seq(|keys|, m requires 0 <= m < |keys| => (keys[m], worlds[m].row));
    assert rows[n] == (keys[n], worlds[n].row);
  }

  // Where the code loses the record, and only there.

  /** A refused retry of a claimable row keeps its protection exactly when the row does not
      come from a job that died before it recorded its sanction. */
  lemma RefusedRetry(r: Row, action: Action)
    requires Claimable(r) && Protects(r)
    ensures var after := OverrideFinished(SanctionRefused(r.(decision := Enforcing)), action, false);
            Protects(after) <==> !Leftover(r)
  {
  }

  /** A script that shows the loss: all goes well until the process dies right after its sanction
      call landed; from the next process on, Telegram refuses every call. */
  function CrashScript(): nat -> Choice {
    n => Choice(n == 7, CliIdle, if n > 7 then Refused else Landed, false, 1)
  }

  /** A first job whose report and evidence all go well: insert, copy, card, evidence, in the
      machine's order. */
  method ReportedFresh(nature: nat -> Choice, key: Key, dryRun: bool) returns (i: Incident)
    requires forall n :: 0 <= n < 6 ==> nature(n) == Choice(false, CliIdle, Landed, false, 1)
    ensures i.Valid() && fresh(i) && i.nature == nature && i.tick == 6 && i.key == key && AllSafe(i.history)
    ensures i.w == World(true, Row(Evidenced, dryRun, Undecided, DeleteMute, i.w.row.card),
                         NoOne, false, false, false, Nothing, 0, false, false, i.w.actor)
  {
    hide AllSafe, ClaimsKept, AllConsistent, NeverDies;
    i := new Incident(nature, key);
    var inserted := i.InsertPending(dryRun, DeleteMute);
    assert inserted.Fresh?;
    var copies := i.CopyMessages();
    var sent, messageId := i.SendAdmin();
    var registered := i.SaveIncidentCard(messageId);
    var saved := i.AddEvidence();
    var evidenced := i.SetIncidentState(Evidenced);
    assert copies == 1 && sent && registered && saved && evidenced;
  }

  /** The first job up to its death: the sanction lands, the record of it is never written. */
  method MutedThenDead(key: Key) returns (i: Incident)
    requires key.senderChatId == 0
    ensures i.Valid() && fresh(i) && i.nature == CrashScript() && i.tick == 8 && i.key == key
    ensures i.w.dead && i.w.present && i.w.live && i.w.hold == MemberMuted && i.w.holder.NoOne? && !i.w.dropped
    ensures Leftover(i.w.row) && Protects(i.w.row) && i.w.row.decision.Undecided?
    ensures AllSafe(i.history)
  {
    i := ReportedFresh(CrashScript(), key, false);
    var call := i.SanctionCall(HoldFor(key, DeleteMute));
    assert call.CallOk?;
    var acted := i.SetIncidentState(Acted);
    assert !acted;
  }

  /** The retry itself, once claimed. */
  method RetryRefused(i: Incident)
    requires i.Valid() && i.nature == CrashScript() && i.tick == 10 && i.key.senderChatId == 0
    requires JobClaim(i.w) && !i.w.dead && i.w.live && i.w.hold == MemberMuted && Leftover(i.w.row)
    modifies i
    ensures i.Valid() && old(i.history) <= i.history
    ensures i.w.hold == MemberMuted && i.w.live && !Protects(i.w.row) && i.w.dropped
  {
    hide AllSafe, ClaimsKept, AllConsistent;
    var call := i.SanctionCall(HoldFor(i.key, DeleteMute));
    assert call.CallRefused?;
    var refused := i.MarkSanctionRefused();
    var deleted := i.DeleteOriginals();
    var sent, _ := i.SendAdmin();
    var finished := i.FinishManualOverride(DeleteMute, false);
  }

  /** The next process carries out a moderator's /spam on the same message, and is refused. */
  method SpamRefused(i: Incident)
    requires i.Valid() && i.nature == CrashScript() && i.tick == 8 && i.key.senderChatId == 0
    requires i.w.present && !i.w.dead && i.w.live && i.w.hold == MemberMuted && i.w.holder.NoOne?
    requires Leftover(i.w.row) && i.w.row.decision.Undecided?
    modifies i
    ensures i.Valid() && old(i.history) <= i.history
    ensures i.w.hold == MemberMuted && i.w.live && !Protects(i.w.row) && i.w.dropped
  {
    var inserted := i.InsertPending(false, DeleteMute);
    assert inserted.Duplicate?;
    var failed, claimed := i.ClaimManualOverride();
    assert claimed;
    RetryRefused(i);
  }

  /** The whole run, from no row to a mute nobody sees. */
  method CrashThenRefusal(key: Key) returns (i: Incident)
    requires key.senderChatId == 0
    ensures i.Valid() && i.nature == CrashScript()
    ensures i.w.hold == MemberMuted && i.w.live && !Protects(i.w.row) && i.w.dropped
    ensures exists k :: 0 <= k < |i.history| && i.history[k].live && Protects(i.history[k].row)
  {
    i := MutedThenDead(key);
    ghost var k := |i.history| - 1;
    i.NextJob();
    SpamRefused(i);
    assert i.history[k].live && Protects(i.history[k].row);
  }

  /** Enforcing an observed row keeps the record of a sanction whose outcome is unknown exactly
      when the configured action sanctions. */
  lemma EnforcedOverUnknown(r: Row, action: Action, deleted: bool)
    requires r.dryRun && r.state.SanctionUnknown? && Punitive(r.action)
    ensures var acted := r.(state := if deleted then Cleaned else Acted, decision := Undecided);
            var marked := acted.(dryRun := false, action := action);
            Protects(marked) <==> Punitive(action)
  {
  }

  /** A script that shows the other loss, without any death: one call's answer is lost, though the
      call was applied. */
  function LostScript(): nat -> Choice {
    n => Choice(false, CliIdle, if n == 9 then LostApplied else Landed, false, 1)
  }

  /** An incident that is only observed: reported, nothing done. */
  method ObservedOnly(key: Key) returns (i: Incident)
    ensures i.Valid() && fresh(i) && i.nature == LostScript() && i.tick == 7 && i.key == key
    ensures i.w == World(true, Row(Done, true, Undecided, DeleteMute, i.w.row.card), NoOne, false, false, false, Nothing, 0, false, false, Restart)
  {
    i := ReportedFresh(LostScript(), key, true);
    var done := i.SetIncidentState(Done);
    i.NextJob();
  }

  /** The sanction half of the takeover, once claimed. */
  method SanctionLostOnce(i: Incident)
    requires i.Valid() && i.nature == LostScript() && i.tick == 9 && i.key.senderChatId == 0
    requires JobClaim(i.w) && !i.w.dead && i.w.row.dryRun && i.w.hold.Nothing?
    modifies i
    ensures i.Valid() && old(i.history) <= i.history && i.tick == 11
    ensures i.w == old(i.w).(row := SanctionLost(old(i.w.row), DeleteMute), live := true, ever := true, hold := MemberMuted, actor := i.w.actor)
  {
    hide AllSafe, ClaimsKept, AllConsistent;
    var call := i.SanctionCall(HoldFor(i.key, DeleteMute));
    assert call.CallLost?;
    var noted := i.MarkSanctionUnknown(DeleteMute);
  }

  /** A moderator's /spam on it mutes the sender, but its answer is lost. */
  method SpamLost(i: Incident)
    requires i.Valid() && i.nature == LostScript() && i.tick == 7 && i.key.senderChatId == 0
    requires i.w == World(true, Row(Done, true, Undecided, DeleteMute, i.w.row.card), NoOne, false, false, false, Nothing, 0, false, false, Restart)
    modifies i
    ensures i.Valid() && old(i.history) <= i.history && i.tick == 15
    ensures i.w == World(true, Row(SanctionUnknown, true, Undecided, DeleteMute, i.w.row.card),
                         NoOne, false, true, true, MemberMuted, 0, false, false, Restart)
  {
    hide AllSafe, ClaimsKept, AllConsistent;
    var inserted := i.InsertPending(false, DeleteMute);
    assert inserted.Duplicate?;
    var failed, claimed := i.ClaimManualOverride();
    assert claimed;
    SanctionLostOnce(i);
    var deleted := i.DeleteOriginals();
    var sent, messageId := i.SendAdmin();
    var registered := i.SaveIncidentCard(messageId);
    var finished := i.FinishManualOverride(DeleteMute, false);
    i.NextJob();
  }

  /** The enforce button, configured to delete only, on the card that /spam sent. */
  method EnforcePressed(i: Incident)
    requires i.Valid() && i.nature == LostScript() && i.tick == 15
    requires i.w == World(true, Row(SanctionUnknown, true, Undecided, DeleteMute, i.w.row.card),
                          NoOne, false, true, true, MemberMuted, 0, false, false, Restart)
    modifies i
    ensures i.Valid() && old(i.history) <= i.history
    ensures i.w.hold == MemberMuted && i.w.live && !Protects(i.w.row) && i.w.dropped && !i.w.died
  {
    hide AllSafe, ClaimsKept, AllConsistent;
    assert NeverDies(i.nature);
    var claim := i.RecordDecision(Enforcing);
    assert claim.Claimed?;
    var read := i.Touch();
    read := i.Touch();
    var answer := PressEnforce(i, Some(DeleteOnly));
  }

  /** The whole run, from no row to a mute nobody sees. */
  method LostThenDeleteOnly(key: Key) returns (i: Incident)
    requires key.senderChatId == 0
    ensures i.Valid() && i.nature == LostScript() && NeverDies(i.nature)
    ensures i.w.hold == MemberMuted && i.w.live && !Protects(i.w.row) && i.w.dropped
    ensures exists k :: 0 <= k < |i.history| && i.history[k].live && Protects(i.history[k].row)
  {
    i := ObservedOnly(key);
    SpamLost(i);
    ghost var k := |i.history| - 1;
    assert i.history[k] == i.w;
    EnforcePressed(i);
    assert i.history[k].live && Protects(i.history[k].row);
  }
}
