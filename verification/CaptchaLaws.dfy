/** What every history of a challenge satisfies, whatever interleaving produced it, and what
    it means together with the incidents' own laws. */
module CaptchaLaws {
  import opened Options
  import opened CaptchaStore
  import opened CaptchaWatch
  import I = IncidentStore
  import R = IncidentRow
  import Runs = IncidentRuns

  predicate Punishes(r: CaptchaRow) {
    r.state.Failing? && (r.failAction.Kick? || r.failAction.KeepMuted? || r.failAction.Decline?)
  }

  /** Attempts never decrease; within one the state only moves forward, and a pass is final. */
  lemma NeverBack(h: seq<World>, i: nat, j: nat)
    requires LegalHistory(h) && i <= j < |h| && h[i].row.Some?
    ensures h[j].row.Some? && h[i].row.value.attempt <= h[j].row.value.attempt
    ensures h[i].row.value.attempt == h[j].row.value.attempt ==>
              Leads(h[i].row.value.state, h[j].row.value.state) && h[i].row.value.createdAt == h[j].row.value.createdAt
    ensures h[i].row.value.state.Passed? ==> h[j].row.value.state.Passed? && h[j].row.value.attempt == h[i].row.value.attempt
  {
    LegalThroughout(h, i, j);
  }

  /** Nobody is recorded as passed without a lift of that very attempt, of its kind, answered
      with success; nobody as failed without the punishment carried out or given up after five
      tries; and nobody is punished who has no recorded button. */
  lemma RecordsAreEarned(h: seq<World>, k: nat)
    requires LegalHistory(h) && k < |h| && h[k].row.Some?
    ensures h[k].row.value.state.Passed? ==> (h[k].row.value.attempt, LiftOf(h[k].row.value.mode)) in h[k].done
    ensures h[k].row.value.state.Failed? ==> Served(h[k].row.value, h[k].done)
    ensures Punishes(h[k].row.value) ==> Prompted(h[k].row.value)
  {
    LegalThroughout(h, 0, k);
  }

  /** Who was seen with a button is not punished before its deadline: if that attempt failed with a
      punishment, now or by the time another one replaced it, it was failed at a time when the very
      deadline it was seen with had come. */
  lemma NoPunishmentBeforeTheDeadline(h: seq<World>, i: nat, j: nat)
    requires LegalHistory(h) && i <= j < |h| && h[i].row.Some? && h[i].row.value.state.Challenged? && Prompted(h[i].row.value)
    ensures h[j].row.Some?
    ensures var r, s := h[i].row.value, h[j].row.value;
            if s.attempt == r.attempt then Sentenced(s) ==> TimedOut(h[j].log, r)
            else r.attempt in h[j].ended && (Sentenced(h[j].ended[r.attempt]) ==> TimedOut(h[j].log, r))
  {
    LegalThroughout(h, i, j);
  }

  /** Every ban of a kick and every decline the captcha issues follows a recorded failure of that
      attempt, with that punishment, with a button that had been recorded, and past its deadline. */
  lemma PunishedHadAButton(h: seq<World>, n: nat, k: nat) returns (j: nat)
    requires LegalHistory(h) && n < |h| && k < |h[n].log| && h[n].log[k].Punished?
    ensures j < k && IsCondemned(h[n].log[j], h[n].log[k].attempt, h[n].log[k].action) && h[n].log[j].deadline <= h[n].log[j].at
  {
    LegalThroughout(h, 0, n);
    var before := h[n].log[..k];
    j :| 0 <= j < |before| && IsCondemned(before[j], h[n].log[k].attempt, h[n].log[k].action);
  }

  /** An attempt another one replaced had ended failed or cancelled, having gone only forward from
      wherever it was seen; how it ended stays on record. */
  lemma ReplacedHadEnded(h: seq<World>, i: nat, j: nat, k: nat)
    requires LegalHistory(h) && i <= j <= k < |h| && h[i].row.Some? && h[j].row.Some?
    requires h[i].row.value.attempt < h[j].row.value.attempt
    ensures h[i].row.value.attempt in h[j].ended && h[i].row.value.attempt in h[k].ended
    ensures var r, e := h[i].row.value, h[k].ended[h[i].row.value.attempt];
            e == h[j].ended[r.attempt] && Replaceable(e.state) && SameAttempt(r, e)
  {
    LegalThroughout(h, i, j);
    LegalThroughout(h, j, k);
  }

  /** A press, or a release, once recorded is not dropped: if its attempt ends cancelled, then a
      sanction was seen, the lift was answered with success, or five tries failed. And if another
      attempt replaced it, it had ended so. */
  lemma NoReleaseForgotten(h: seq<World>, i: nat, j: nat)
    requires LegalHistory(h) && i <= j < |h| && h[i].row.Some?
    requires h[i].row.value.state.Passing? || (h[i].row.value.state.Failing? && h[i].row.value.failAction.Unrestrict?)
    ensures h[j].row.Some?
    ensures var r, s := h[i].row.value, h[j].row.value;
            if s.attempt == r.attempt then s.state.Cancelled? ==> Excused(s, h[j].done, h[j].log)
            else r.attempt in h[j].ended && h[j].ended[r.attempt].state.Cancelled?
                 && Excused(h[j].ended[r.attempt], h[j].done, h[j].log)
  {
    LegalThroughout(h, i, j);
  }

  /** A write that carries an attempt the row has left behind finds nothing to write to, now or later. */
  lemma OldAttemptsWriteNothing(h: seq<World>, i: nat, j: nat, attempt: nat, from: set<CState>)
    requires LegalHistory(h) && i <= j < |h| && h[i].row.Some? && attempt < h[i].row.value.attempt
    ensures !(h[j].row.Some? && h[j].row.value.attempt == attempt && h[j].row.value.state in from)
  {
    LegalThroughout(h, i, j);
  }

  // What a sanction read answers.

  /** A sanction of this incident is in force, or may be, or is being applied: by the states and the
      actions themselves. */
  predicate MayBeInForce(r: R.Row) {
    || r.decision == R.Enforcing
    || r.state == R.SanctionUnknown
    || (!r.dryRun
        && r.state in {R.Pending, R.Evidenced, R.Acted, R.Cleaned, R.Done}
        && r.action in {R.Ban, R.Mute, R.DeleteMute})
  }

  /** The read answers yes exactly for an incident of the member, created since the challenge began,
      whose sanction may be in force. Nothing merely deleted, observed or not acted on counts. */
  lemma SanctionedMeans(incidents: Incidents, since: int)
    ensures Sanctioned(incidents, since) <==>
              exists n :: 0 <= n < |incidents| && incidents[n].0.createdAt >= since && MayBeInForce(incidents[n].1.row)
  {
    if Sanctioned(incidents, since) {
      var n :| 0 <= n < |incidents| && incidents[n].0.createdAt >= since && R.Protects(incidents[n].1.row);
      assert MayBeInForce(incidents[n].1.row);
    }
    if n :| 0 <= n < |incidents| && incidents[n].0.createdAt >= since && MayBeInForce(incidents[n].1.row) {
      assert R.Protects(incidents[n].1.row);
    }
  }

  /** What happened to the member before the challenge began never changes the answer, wherever it
      stands among the incidents. */
  lemma OlderNeverCounts(before: Incidents, older: (R.Key, I.World), after: Incidents, since: int)
    requires older.0.createdAt < since
    ensures Sanctioned(before + [older] + after, since) <==> Sanctioned(before + after, since)
  {
    var with, without := before + [older] + after, before + after;
    if n :| 0 <= n < |with| && with[n].0.createdAt >= since && R.Protects(with[n].1.row) {
      assert with[n] == without[if n < |before| then n else n - 1];
    }
    if n :| 0 <= n < |without| && without[n].0.createdAt >= since && R.Protects(without[n].1.row) {
      assert without[n] == with[if n < |before| then n else n + 1];
    }
  }

  /** A sanction that was seen was there: an incident created since then whose sanction may have been
      in force at the read. */
  lemma SeenWasThere(w: World, attempt: nat, since: int) returns (j: nat, n: nat)
    requires Inv(w) && HasSeen(w.log, attempt, since)
    ensures j < |w.log| && w.log[j].SanctionRead? && w.log[j].attempt == attempt && w.log[j].since == since
    ensures n < |w.log[j].incidents| && w.log[j].incidents[n].0.createdAt >= since && MayBeInForce(w.log[j].incidents[n].1.row)
  {
    j :| 0 <= j < |w.log| && w.log[j].SanctionRead? && w.log[j].attempt == attempt && w.log[j].since == since && w.log[j].answer;
    assert Lawful(w.log[..j], w.log[j]);
    var incidents := w.log[j].incidents;
    SanctionedMeans(incidents, since);
    n :| 0 <= n < |incidents| && incidents[n].0.createdAt >= since && MayBeInForce(incidents[n].1.row);
  }

  /** Whoever is told that the moderators will review was found with such an incident, created since
      the challenge of the button that was pressed. */
  lemma SanctionedPressWasRight(w: World, attempt: nat, out: PressOutcome) returns (j: nat, n: nat)
    requires Inv(w) && Honest(out, attempt, w) && out.PressSanctioned?
    ensures j < |w.log| && w.log[j].SanctionRead? && w.log[j].attempt == attempt
    ensures StartOf(attempt, w) == Some(w.log[j].since)
    ensures n < |w.log[j].incidents| && w.log[j].incidents[n].0.createdAt >= w.log[j].since
    ensures MayBeInForce(w.log[j].incidents[n].1.row)
  {
    j, n := SeenWasThere(w, attempt, StartOf(attempt, w).value);
  }

  /** The two protocols together: before each unmute the captcha issues, and after its attempt
      entered passing or failing/unrestrict, there was a read that found no incident of the
      member, created since the challenge began, with a sanction in force or possibly in force:
      wherever a run of such an incident stood at that read, it held nothing, unless it had lost
      the record of a sanction by then. */
  lemma UnmuteFoundNoSanction(h: seq<World>, n: nat, k: nat) returns (i: nat, j: nat)
    requires LegalHistory(h) && n < |h| && k < |h[n].log| && h[n].log[k].UnrestrictIssued?
    ensures i < j < k
    ensures h[n].log[j].SanctionRead? && h[n].log[j].attempt == h[n].log[k].attempt
    ensures h[n].log[i] == Entered(h[n].log[k].attempt, h[n].log[j].since)
    ensures forall m :: 0 <= m < |h[n].log[j].incidents| ==>
              ReadExcludes(h[n].log[j].incidents[m].0, h[n].log[j].incidents[m].1, h[n].log[j].since)
  {
    LegalThroughout(h, 0, n);
    var log := h[n].log;
    var attempt := log[k].attempt;
    var before := log[..k];
    assert Cleared(before, attempt);
    j :| 0 <= j < |before| && before[j].SanctionRead? && before[j].attempt == attempt && !before[j].answer
         && HasEntered(before[..j], attempt, before[j].since);
    var entries := before[..j];
    i :| 0 <= i < |entries| && entries[i] == Entered(attempt, before[j].since);
    assert log[j].answer == Sanctioned(log[j].incidents, log[j].since);
    forall m | 0 <= m < |log[j].incidents|
      ensures ReadExcludes(log[j].incidents[m].0, log[j].incidents[m].1, log[j].since)
    {
      if log[j].incidents[m].0.createdAt >= log[j].since {
        assert !R.Protects(log[j].incidents[m].1.row);
        Excluded(log[j].incidents[m].0, log[j].incidents[m].1, log[j].since);
      }
    }
  }

  /** An incident raised since the challenge began holds nothing against the member, at any state
      of any run that has lost no record yet. */
  ghost predicate ReadExcludes(key: R.Key, incident: I.World, since: int) {
    key.createdAt >= since ==>
      forall run :: Runs.RunLaws(run) && incident in run.history && !incident.dropped ==>
        !incident.live && incident.hold.Nothing?
  }

  lemma Excluded(key: R.Key, incident: I.World, since: int)
    requires !R.Protects(incident.row)
    ensures ReadExcludes(key, incident, since)
  {
    forall run | Runs.RunLaws(run) && incident in run.history && !incident.dropped
      ensures !incident.live && incident.hold.Nothing?
    {
      Runs.UnseenHoldsNothing(run, incident);
    }
  }
}
