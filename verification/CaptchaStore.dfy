/** internal/store/captcha.go: the challenge row of one member of one chat and the guarded
    updates on it, with everything else that happens to the row between two steps of the
    code at hand (other presses, joins, admin changes, the sweeper, a slow challenge).

    What the others do is arbitrary within `Legal`; every step taken here is checked against
    the same relation, so that the steps of one activity are what the others rely on. */
module CaptchaStore {
  import opened Options
  import I = IncidentStore
  import R = IncidentRow

  datatype CState = CNew | Challenged | Passing | Passed | Failing | Failed | Cancelled

  datatype FailAction = NoAction | Unrestrict | Kick | KeepMuted | Decline

  datatype Mode = ButtonMode | JoinRequestMode

  datatype CaptchaRow = CaptchaRow(
    attempt: nat, state: CState, deadline: int, failAction: FailAction, tries: nat,
    ephemeralId: nat, messageId: nat, createdAt: int, mode: Mode, promptChatId: int)

  /** The incidents of the member as a SanctionSince read finds them. */
  type Incidents = seq<(R.Key, I.World)>

  datatype Event =
    | Entered(attempt: nat, since: int)  // passing, or failing with unrestrict; the challenge began at `since`
    | Condemned(attempt: nat, action: FailAction, prompt: nat, deadline: int, at: int)
        // failing with kick, keep_muted or decline: despite this button, due then, decided at this time
    | SanctionRead(attempt: nat, since: int, incidents: Incidents, answer: bool)
    | UnrestrictIssued(attempt: nat)
    | Punished(attempt: nat, action: FailAction)  // the ban of a kick, or the decline, was issued

  /** The Telegram calls whose success the row's states rest on. */
  datatype Act = Muted | Unmuted | Approved | Banned | Unbanned | Declined

  /** `disturbed` says that the others changed something or the store failed, `broken` that the
      store or the configuration failed, `crowded` that somebody else counted a try. `ended` keeps
      the last row of every attempt a later one has replaced. */
  datatype World = World(row: Option<CaptchaRow>, ended: map<nat, CaptchaRow>, done: set<(nat, Act)>, log: seq<Event>,
                         inflight: bool, disturbed: bool, broken: bool, crowded: bool)

  const GiveUpTries: nat := 5

  predicate Terminal(s: CState) {
    s.Passed? || s.Failed? || s.Cancelled?
  }

  /** A button was recorded for this attempt. */
  predicate Prompted(r: CaptchaRow) {
    r.ephemeralId != 0 || r.messageId != 0
  }

  function LiftOf(mode: Mode): Act {
    if mode.ButtonMode? then Unmuted else Approved
  }

  /** Where a state can lead within one attempt. */
  predicate Leads(a: CState, b: CState) {
    || a == b || a.CNew?
    || (a.Challenged? && !b.CNew?)
    || (a.Passing? && (b.Passed? || b.Cancelled?))
    || (a.Failing? && (b.Failed? || b.Cancelled?))
  }

  predicate SameAttempt(a: CaptchaRow, b: CaptchaRow) {
    && a.createdAt == b.createdAt && a.mode == b.mode
    && Leads(a.state, b.state)
    && (a.state.Failing? || Terminal(a.state) ==> a.failAction == b.failAction)
    && (a.state.Failing? ==> (b.state.Cancelled? ==> a.failAction.Unrestrict?) && (b.state.Failed? ==> !a.failAction.Unrestrict?))
    && (Prompted(a) ==> b.ephemeralId == a.ephemeralId && b.messageId == a.messageId)
    && (Prompted(a) && a.state.Challenged? && b.state.Challenged? ==> b.deadline == a.deadline)
    && a.tries <= b.tries
  }

  /** How the row may change over any number of steps. Attempts never decrease, `passed` is final. */
  predicate RowStep(a: Option<CaptchaRow>, b: Option<CaptchaRow>) {
    a.Some? ==>
      && b.Some?
      && (if a.value.attempt == b.value.attempt then SameAttempt(a.value, b.value)
          else a.value.attempt < b.value.attempt && !a.value.state.Passed?)
  }

  predicate HasEntered(log: seq<Event>, attempt: nat, since: int) {
    Entered(attempt, since) in log
  }

  /** A SanctionSince read for this attempt, asking since its challenge began, came back false
      after the attempt had entered. */
  predicate Cleared(log: seq<Event>, attempt: nat) {
    exists j :: 0 <= j < |log| && log[j].SanctionRead? && log[j].attempt == attempt && !log[j].answer
                && HasEntered(log[..j], attempt, log[j].since)
  }

  predicate IsCondemned(e: Event, attempt: nat, action: FailAction) {
    e.Condemned? && e.attempt == attempt && e.action == action && e.prompt != 0 && e.deadline <= e.at
  }

  /** The attempt failed with this punishment although it had a recorded button, its time over. */
  predicate HasCondemned(log: seq<Event>, attempt: nat, action: FailAction) {
    exists j :: 0 <= j < |log| && IsCondemned(log[j], attempt, action)
  }

  /** A sanction of a moderator or of the machine since `since` was seen. */
  predicate HasSeen(log: seq<Event>, attempt: nat, since: int) {
    exists j :: 0 <= j < |log| && log[j].SanctionRead? && log[j].attempt == attempt && log[j].since == since && log[j].answer
  }

  /** What has to be in the log before an event can be. */
  predicate Lawful(log: seq<Event>, e: Event) {
    && (e.UnrestrictIssued? ==> Cleared(log, e.attempt))
    && (e.Punished? ==> HasCondemned(log, e.attempt, e.action))
    && (e.Condemned? ==> e.prompt != 0 && e.deadline <= e.at)
    && (e.SanctionRead? ==> e.answer == Sanctioned(e.incidents, e.since))
  }

  /** Every unmute was cleared first, every punishment had its button, and every read answered
      what the incidents said. */
  predicate LogOk(log: seq<Event>) {
    forall k :: 0 <= k < |log| ==> Lawful(log[..k], log[k])
  }

  /** SanctionSince, over the incidents of this member. */
  predicate Sanctioned(incidents: Incidents, since: int) {
    exists n :: 0 <= n < |incidents| && incidents[n].0.createdAt >= since && R.Protects(incidents[n].1.row)
  }

  predicate Punishing(action: FailAction) {
    action.Kick? || action.Decline?
  }

  /** The punishment was carried out, or given up on. */
  predicate Served(r: CaptchaRow, done: set<(nat, Act)>) {
    match r.failAction
    case Kick => (r.attempt, Unbanned) in done || r.tries >= GiveUpTries
    case Decline => (r.attempt, Declined) in done || r.tries >= GiveUpTries
    case Unrestrict => false
    case _ => true
  }

  predicate RowOk(r: CaptchaRow, done: set<(nat, Act)>, log: seq<Event>) {
    && (r.state.Passed? ==> (r.attempt, LiftOf(r.mode)) in done)
    && (r.state.Failed? ==> Served(r, done))
    && (r.mode.ButtonMode? && (r.state.Challenged? || r.state.Passing? || r.state.Passed?) ==> (r.attempt, Muted) in done)
    && (r.state.Failing? && (Punishing(r.failAction) || r.failAction.KeepMuted?) ==> Prompted(r))
    && (r.state.Failing? && (Punishing(r.failAction) || r.failAction.KeepMuted?) ==> HasCondemned(log, r.attempt, r.failAction))
    && (r.state.Passing? || (r.state.Failing? && r.failAction.Unrestrict?) ==> HasEntered(log, r.attempt, r.createdAt))
    && (r.state.CNew? || r.state.Challenged? ==> r.tries == 0)
    && (r.state.CNew? ==> !Prompted(r))
  }

  /** A release nobody carried out is dropped only for a sanction, or after five tries. */
  predicate Excused(r: CaptchaRow, done: set<(nat, Act)>, log: seq<Event>) {
    r.tries >= GiveUpTries || HasSeen(log, r.attempt, r.createdAt) || (r.attempt, Unmuted) in done
  }

  /** The attempt failed with a punishment. */
  predicate Sentenced(r: CaptchaRow) {
    (r.state.Failing? || r.state.Failed?) && (Punishing(r.failAction) || r.failAction.KeepMuted?)
  }

  /** This row, challenged and with a button, was failed at a time its deadline had come. */
  predicate TimedOut(log: seq<Event>, r: CaptchaRow) {
    exists j :: 0 <= j < |log| && log[j].Condemned? && log[j].attempt == r.attempt && log[j].deadline == r.deadline <= log[j].at
  }

  /** A later row of the same attempt; a release in it is not dropped without excuse, and nobody is
      punished before the deadline of a button. */
  predicate Later(a: CaptchaRow, b: CaptchaRow, w: World) {
    && a.attempt == b.attempt && SameAttempt(a, b)
    && (a.state.Challenged? && Prompted(a) && Sentenced(b) ==> TimedOut(w.log, a))
    && ((a.state.Passing? || a.state.Failing?) && b.state.Cancelled? ==> Excused(b, w.done, w.log))
  }

  /** Where the attempt stands, or how it ended once another one replaced it. */
  predicate Follows(a: CaptchaRow, w: World) {
    && w.row.Some?
    && if w.row.value.attempt == a.attempt then Later(a, w.row.value, w)
       else a.attempt < w.row.value.attempt && a.attempt in w.ended
            && Replaceable(w.ended[a.attempt].state) && Later(a, w.ended[a.attempt], w)
  }

  /** The only states a new attempt starts over. */
  predicate Replaceable(s: CState) {
    s.Failed? || s.Cancelled?
  }

  predicate Inv(w: World) {
    && LogOk(w.log)
    && (w.row.Some? ==> RowOk(w.row.value, w.done, w.log))
    && forall n :: n in w.ended ==> w.row.Some? && n < w.row.value.attempt
  }

  /** What any activity may do between two of its own steps, or in one of them. */
  predicate Legal(a: World, b: World) {
    && RowStep(a.row, b.row)
    && a.done <= b.done
    && a.log <= b.log
    && (a.row.Some? ==> Follows(a.row.value, b))
    && (forall n :: n in a.ended ==> n in b.ended && b.ended[n] == a.ended[n])
    && (a.disturbed ==> b.disturbed) && (a.broken ==> b.broken) && (a.crowded ==> b.crowded)
    && Inv(b)
  }

  /** No try was counted: a fresh attempt has none, the same attempt has no more than before. */
  predicate NoTry(a: Option<CaptchaRow>, b: Option<CaptchaRow>) {
    b.Some? ==> b.value.tries <= if a.Some? && a.value.attempt == b.value.attempt then a.value.tries else 0
  }

  /** A step of ours that counts no try, nobody else having counted one. */
  predicate Spare(a: World, b: World) {
    !b.crowded ==> NoTry(a.row, b.row)
  }

  lemma SeenStays(log: seq<Event>, longer: seq<Event>, attempt: nat, since: int)
    requires log <= longer && HasSeen(log, attempt, since)
    ensures HasSeen(longer, attempt, since)
  {
  }

  lemma CondemnedStays(log: seq<Event>, longer: seq<Event>, attempt: nat, action: FailAction)
    requires log <= longer && HasCondemned(log, attempt, action)
    ensures HasCondemned(longer, attempt, action)
  {
  }

  /** What was seen of a row that is still challenged holds of it. */
  lemma SeenRow(seen: CaptchaRow, a: Option<CaptchaRow>, b: Option<CaptchaRow>)
    requires RowStep(Some(seen), a) && RowStep(a, b) && b.Some? && b.value.attempt == seen.attempt
    ensures RowStep(Some(seen), b)
    ensures seen.state.Challenged? && Prompted(seen) ==> Prompted(b.value) && !b.value.state.CNew?
    ensures seen.state.Challenged? && Prompted(seen) && b.value.state.Challenged? ==> b.value.deadline == seen.deadline
  {
  }

  lemma RowStepTransitive(a: Option<CaptchaRow>, b: Option<CaptchaRow>, c: Option<CaptchaRow>)
    requires RowStep(a, b) && RowStep(b, c)
    ensures RowStep(a, c)
  {
  }

  lemma TimedOutAlike(log: seq<Event>, r: CaptchaRow, s: CaptchaRow)
    requires r.attempt == s.attempt && r.deadline == s.deadline && TimedOut(log, r)
    ensures TimedOut(log, s)
  {
  }

  lemma TimedOutStays(log: seq<Event>, longer: seq<Event>, r: CaptchaRow)
    requires log <= longer && TimedOut(log, r)
    ensures TimedOut(longer, r)
  {
  }

  lemma LaterTransitive(r: CaptchaRow, s: CaptchaRow, t: CaptchaRow, b: World, c: World)
    requires Later(r, s, b) && Later(s, t, c) && Legal(b, c)
    ensures Later(r, t, c)
  {
    if HasSeen(b.log, s.attempt, s.createdAt) {
      SeenStays(b.log, c.log, s.attempt, s.createdAt);
    }
    if TimedOut(b.log, r) {
      TimedOutStays(b.log, c.log, r);
    }
    if r.state.Challenged? && Prompted(r) && s.state.Challenged? && TimedOut(c.log, s) {
      TimedOutAlike(c.log, s, r);
    }
  }

  /** How an attempt ended is settled. */
  lemma FollowsOn(a: CaptchaRow, b: World, c: World)
    requires Follows(a, b) && Legal(b, c)
    ensures Follows(a, c)
  {
    if b.row.value.attempt == a.attempt {
      if c.row.value.attempt == a.attempt {
        LaterTransitive(a, b.row.value, c.row.value, b, c);
      } else {
        assert b.row.value.attempt in c.ended;
        LaterTransitive(a, b.row.value, c.ended[a.attempt], b, c);
      }
    } else {
      var e := b.ended[a.attempt];
      if HasSeen(b.log, e.attempt, e.createdAt) {
        SeenStays(b.log, c.log, e.attempt, e.createdAt);
      }
      if TimedOut(b.log, a) {
        TimedOutStays(b.log, c.log, a);
      }
    }
  }

  lemma LegalTransitive(a: World, b: World, c: World)
    requires Legal(a, b) && Legal(b, c)
    ensures Legal(a, c)
  {
    RowStepTransitive(a.row, b.row, c.row);
    if a.row.Some? {
      FollowsOn(a.row.value, b, c);
    }
  }

  lemma NoTryAtAll(row: Option<CaptchaRow>)
    ensures NoTry(row, row)
  {
  }

  lemma Stutter(w: World)
    requires Inv(w)
    ensures Legal(w, w)
  {
  }

  /** The flags are nobody's business but the observer's. */
  lemma Raised(a: World, b: World, c: World)
    requires Legal(a, b) && c == b.(disturbed := c.disturbed, broken := c.broken, crowded := c.crowded)
    requires (a.disturbed ==> c.disturbed) && (a.broken ==> c.broken) && (a.crowded ==> c.crowded)
    ensures Legal(a, c)
  {
  }

  /** What a step of anybody's tells about the row and the records. */
  lemma Means(a: World, b: World)
    requires Legal(a, b)
    ensures RowStep(a.row, b.row) && a.done <= b.done && a.log <= b.log && Inv(b)
    ensures (a.disturbed ==> b.disturbed) && (a.broken ==> b.broken) && (a.crowded ==> b.crowded)
  {
  }

  ghost predicate LegalHistory(h: seq<World>) {
    && (|h| > 0 ==> Inv(h[0]))
    && forall k :: 0 < k < |h| ==> Legal(h[k-1], h[k])
  }

  /** Any two states of a history are related as two neighbours are. */
  lemma {:induction false} LegalThroughout(h: seq<World>, i: nat, j: nat)
    requires LegalHistory(h) && i <= j < |h|
    ensures Legal(h[i], h[j])
    decreases j
  {
    if i == j {
      if j > 0 {
        assert Legal(h[j-1], h[j]);
      }
    } else {
      LegalThroughout(h, i, j - 1);
      LegalTransitive(h[i], h[j-1], h[j]);
    }
  }

  /** What was cleared stays cleared. */
  lemma ClearedStays(log: seq<Event>, longer: seq<Event>, attempt: nat)
    requires log <= longer && Cleared(log, attempt)
    ensures Cleared(longer, attempt)
  {
  }

  /** The log law goes from a log to one more event. */
  lemma LogGrows(log: seq<Event>, e: Event)
    requires LogOk(log) && Lawful(log, e)
    ensures LogOk(log + [e])
  {
    var longer := log + [e];
    forall k | 0 <= k < |longer|
      ensures Lawful(longer[..k], longer[k])
    {
      if k < |log| {
        assert longer[..k] == log[..k];
      } else {
        assert longer[..k] == log;
      }
    }
  }

  /** The attempt, if it is still the row's, was taken up and has no recorded button yet. */
  predicate Unprompted(attempt: Option<nat>, row: Option<CaptchaRow>) {
    attempt.Some? ==>
      && row.Some? && attempt.value <= row.value.attempt
      && (row.value.attempt == attempt.value ==> !Prompted(row.value) && !row.value.state.CNew?)
  }

  datatype Choice = Choice(others: World, storeFails: bool, callOk: bool, gateOpen: bool, gateFails: bool,
                           onFail: FailAction, incidents: Incidents, now: int, id: nat)

  class Challenge {
    const nature: nat -> Choice
    var w: World
    var tick: nat
    ghost var history: seq<World>
    /** The attempt this activity moved to challenged: the one that moves it is the one that sends and
        records its button, and nobody else records one. */
    var mine: Option<nat>

    ghost predicate Valid()
      reads this
    {
      && Inv(w) && Unprompted(mine, w.row)
      && |history| > 0 && history[|history|-1] == w
      && LegalHistory(history)
    }

    constructor (nature: nat -> Choice)
      ensures Valid() && history == [w] && w == World(None, map[], {}, [], false, false, false, false) && this.nature == nature
      ensures mine.None?
    {
      this.nature := nature;
      mine := None;
      var first := World(None, map[], {}, [], false, false, false, false);
      w, tick, history := first, 0, [first];
    }

    method Commit(next: World)
      requires Valid() && Legal(w, next) && Unprompted(mine, next.row)
      modifies this`w, this`history
      ensures Valid() && w == next && old(history) <= history
    {
      w := next;
      history := history + [next];
    }

    /** Between any two steps of ours, any steps of the others. */
    method Begin() returns (c: Choice)
      requires Valid()
      modifies this`w, this`history, this`tick
      ensures Valid() && Legal(old(w), w) && old(history) <= history
      ensures c == nature(old(tick)) && tick == old(tick) + 1
      ensures !w.disturbed ==> w == old(w) && !c.storeFails && !c.gateFails
      ensures !w.broken ==> !c.storeFails && !c.gateFails
      ensures Spare(old(w), w)
    {
      hide Legal, LegalHistory, Inv, NoTry, Unprompted, RowStep, Follows;
      NoTryAtAll(w.row);
      c := nature(tick);
      tick := tick + 1;
      var fails := c.storeFails || c.gateFails;
      if Legal(w, c.others) && Unprompted(mine, c.others.row) {
        var others := c.others.(disturbed := w.disturbed || fails || c.others != w, broken := w.broken || fails,
                                crowded := w.crowded || !NoTry(w.row, c.others.row));
        Raised(w, c.others, others);
        Commit(others);
      } else {
        Stutter(w);
        Raised(w, w, w.(disturbed := true, broken := w.broken || fails));
        Commit(w.(disturbed := true, broken := w.broken || fails));
      }
    }

    // internal/store/captcha.go.

    /** A new attempt starts only where there is no row or the last attempt ended failed or
        cancelled; that row is what the attempt came to. */
    method BeginCaptcha(now: int, deadline: int, mode: Mode) returns (failed: bool, row: Option<CaptchaRow>, started: bool)
      requires Valid()
      modifies this`w, this`history, this`tick
      ensures Valid() && Legal(old(w), w) && old(history) <= history
      ensures tick == old(tick) + 1
      ensures started ==> row.Some? && old(w.row).Some? ==> old(w.row).value.attempt < row.value.attempt
      ensures started ==> !failed && row == w.row && row.Some?
      ensures started ==> row == Some(CaptchaRow(row.value.attempt, CNew, deadline, NoAction, 0, 0, 0, now, mode, 0))
      ensures started ==> row.value.attempt == 1
                          || (row.value.attempt > 1 && row.value.attempt - 1 in w.ended
                              && Replaceable(w.ended[row.value.attempt - 1].state))
      ensures !failed ==> row == w.row && row.Some?
      ensures !failed && !started ==> !Replaceable(row.value.state)
      ensures failed ==> w.broken
      ensures !w.disturbed ==>
                (started <==> old(w.row).None? || old(w.row).value.state.Failed? || old(w.row).value.state.Cancelled?)
      ensures !w.disturbed && !started ==> w == old(w)
      ensures !w.disturbed && started ==>
                row.value.attempt == if old(w.row).Some? then old(w.row).value.attempt + 1 else 1
    {
      hide Legal, LegalHistory, Inv;
      var c := Begin();
      Means(old(w), w);
      if c.storeFails {
        return true, None, false;
      }
      if w.row.Some? && !Replaceable(w.row.value.state) {
        return false, w.row, false;
      }
      ghost var mid := w;
      var attempt := if w.row.Some? then w.row.value.attempt + 1 else 1;
      row := Some(CaptchaRow(attempt, CNew, deadline, NoAction, 0, 0, 0, now, mode, 0));
      BeginNow(row.value);
      LegalTransitive(old(w), mid, w);
      return false, row, true;
    }

    /** The INSERT or UPDATE itself, once its guard holds. */
    method BeginNow(row: CaptchaRow)
      requires Valid() && (w.row.Some? ==> Replaceable(w.row.value.state))
      requires row.attempt == (if w.row.Some? then w.row.value.attempt + 1 else 1)
      requires row.state.CNew? && row.tries == 0 && !Prompted(row)
      modifies this`w, this`history
      ensures Valid() && Legal(old(w), w) && old(history) <= history
      ensures w == old(w).(row := Some(row), ended := Replaced(old(w)))
    {
      hide LegalHistory;
      Commit(w.(row := Some(row), ended := Replaced(w)));
    }

    method GetCaptcha() returns (failed: bool, row: Option<CaptchaRow>)
      requires Valid()
      modifies this`w, this`history, this`tick
      ensures Valid() && Legal(old(w), w) && old(history) <= history
      ensures tick == old(tick) + 1
      ensures !failed ==> row == w.row
      ensures (failed ==> w.broken) && Spare(old(w), w)
      ensures !w.disturbed ==> !failed && w == old(w)
    {
      var c := Begin();
      return c.storeFails, w.row;
    }

    /** The guard every update carries. */
    predicate Guard(attempt: nat, from: set<CState>)
      reads this
    {
      w.row.Some? && w.row.value.attempt == attempt && w.row.value.state in from
    }

    /** TransitionCaptcha, for a row read earlier as `seen`: what the new state stands for has happened. */
    method TransitionCaptcha(ghost seen: CaptchaRow, attempt: nat, from: set<CState>, to: CState)
        returns (failed: bool, row: Option<CaptchaRow>, moved: bool)
      requires Valid() && seen.attempt == attempt && RowStep(Some(seen), w.row)
      requires forall s :: s in from ==> Earned(seen, s, to, w)
      modifies this`w, this`history, this`tick, this`mine
      ensures Valid() && Legal(old(w), w) && old(history) <= history
      ensures tick == old(tick) + 1
      ensures moved && to.Challenged? ==> mine == Some(attempt)
      ensures moved ==> !failed && w.row.Some? && w.row.value.attempt == attempt && w.row.value.state == to
      ensures !failed ==> row == w.row
      ensures (failed ==> w.broken) && (!failed && !moved ==> !Guard(attempt, from)) && Spare(old(w), w)
      ensures w.inflight == old(w.inflight) || w.disturbed
      ensures !w.disturbed ==>
                && !failed && moved == old(Guard(attempt, from))
                && w == if moved then old(w).(row := Some(old(w.row.value).(state := to))) else old(w)
    {
      hide Legal, LegalHistory, Inv, Earned, SameAttempt, Follows, Leads;
      ghost var before := w;
      var c := Begin();
      ghost var mid := w;
      Means(before, mid);
      RowStepTransitive(Some(seen), before.row, w.row);
      if c.storeFails {
        return true, w.row, false;
      }
      moved := Guard(attempt, from);
      if moved {
        EarnedStays(before, w, seen, w.row.value.state, to);
        MoveNow(seen, to);
        LegalTransitive(before, mid, w);
      }
      return false, w.row, moved;
    }

    /** The UPDATE itself, once its guard holds. */
    method MoveNow(ghost seen: CaptchaRow, to: CState)
      requires Valid() && w.row.Some? && w.row.value.attempt == seen.attempt && RowStep(Some(seen), w.row)
      requires Earned(seen, w.row.value.state, to, w)
      modifies this`w, this`history, this`mine
      ensures Valid() && Legal(old(w), w) && old(history) <= history
      ensures w == old(w).(row := Some(old(w.row.value).(state := to)))
      ensures mine == if to.Challenged? then Some(seen.attempt) else old(mine)
    {
      hide LegalHistory, Legal;
      MoveStep(w, seen, to);
      if to.Challenged? {
        Fresh(w, seen);
      }
      Commit(w.(row := Some(w.row.value.(state := to))));
      if to.Challenged? {
        mine := Some(w.row.value.attempt);
      }
    }

    /** MarkCaptchaPassing: the press and the moment it happened, in one write. */
    method MarkCaptchaPassing(attempt: nat, deadline: int) returns (failed: bool, moved: bool)
      requires Valid()
      modifies this`w, this`history, this`tick
      ensures Valid() && Legal(old(w), w) && old(history) <= history
      ensures tick == old(tick) + 1
      ensures moved ==> !failed && w.row.Some? && w.row.value.attempt == attempt && w.row.value.state.Passing?
                        && w.row.value.deadline == deadline && HasEntered(w.log, attempt, w.row.value.createdAt)
      ensures !w.disturbed ==> !failed && moved == old(Guard(attempt, {Challenged}))
      ensures !w.disturbed && moved ==> w.row == Some(old(w.row.value).(state := Passing, deadline := deadline))
      ensures !w.disturbed && !moved ==> w == old(w)
    {
      hide Legal, LegalHistory, Inv;
      var c := Begin();
      if c.storeFails {
        return true, false;
      }
      ghost var mid := w;
      moved := Guard(attempt, {Challenged});
      if moved {
        PassNow(deadline);
        LegalTransitive(old(w), mid, w);
      }
      return false, moved;
    }

    /** The UPDATE itself, once its guard holds. */
    method PassNow(deadline: int)
      requires Valid() && w.row.Some? && w.row.value.state.Challenged?
      modifies this`w, this`history
      ensures Valid() && Legal(old(w), w) && old(history) <= history
      ensures w == PassingRow(old(w), deadline) && HasEntered(w.log, w.row.value.attempt, w.row.value.createdAt)
    {
      hide LegalHistory, Legal;
      PassStep(w, deadline);
      Commit(PassingRow(w, deadline));
    }

    /** FailCaptcha, for a row read earlier as `seen`. Kick, keep_muted and decline are for someone who
        had a button to press and let its deadline pass. */
    method FailCaptcha(ghost seen: CaptchaRow, at: int, attempt: nat, from: CState, action: FailAction)
        returns (failed: bool, row: Option<CaptchaRow>, moved: bool)
      requires Valid() && (from.CNew? || from.Challenged?) && !action.NoAction?
      requires seen.attempt == attempt && RowStep(Some(seen), w.row)
      requires action.Unrestrict? || (seen.state.Challenged? && Prompted(seen) && seen.deadline <= at)
      modifies this`w, this`history, this`tick
      ensures Valid() && Legal(old(w), w) && old(history) <= history
      ensures tick == old(tick) + 1
      ensures !failed ==> row == w.row
      ensures moved ==> !failed && row.Some? && row.value.attempt == attempt
                        && row.value.state.Failing? && row.value.failAction == action && row.value.tries == 0
                        && Known(w, row.value)
      ensures (failed ==> w.broken) && (!failed && !moved ==> !Guard(attempt, {from})) && Spare(old(w), w)
      ensures !w.disturbed ==> !failed && moved == old(Guard(attempt, {from}))
      ensures !w.disturbed ==> w == if moved then FailedRow(old(w), action, at) else old(w)
    {
      hide Legal, LegalHistory, Inv, Known;
      var c := Begin();
      if c.storeFails {
        return true, w.row, false;
      }
      ghost var mid := w;
      Means(old(w), mid);
      moved := Guard(attempt, {from});
      if moved {
        SeenRow(seen, old(w).row, mid.row);
        FailNow(action, at);
        LegalTransitive(old(w), mid, w);
      }
      return false, w.row, moved;
    }

    /** The UPDATE itself, once its guard holds. */
    method FailNow(action: FailAction, at: int)
      requires Valid() && w.row.Some? && (w.row.value.state.CNew? || w.row.value.state.Challenged?) && !action.NoAction?
      requires action.Unrestrict? || (Prompted(w.row.value) && w.row.value.deadline <= at)
      modifies this`w, this`history
      ensures Valid() && Legal(old(w), w) && old(history) <= history
      ensures w == FailedRow(old(w), action, at) && Known(w, w.row.value) && w.row.value.tries == 0
    {
      hide LegalHistory, Legal;
      FailStep(w, action, at);
      Commit(FailedRow(w, action, at));
    }

    /** RetryCaptcha: one try more, due again later. */
    method RetryCaptcha(ghost seen: CaptchaRow, attempt: nat, nextDeadline: int) returns (ok: bool)
      requires Valid() && seen.attempt == attempt && RowStep(Some(seen), w.row)
      modifies this`w, this`history, this`tick
      ensures Valid() && Legal(old(w), w) && old(history) <= history
      ensures tick == old(tick) + 1
      ensures ok ==> w.row.Some? && w.row.value.attempt == attempt && w.row.value.tries > seen.tries
      ensures !ok && !w.broken ==> !Guard(attempt, {Failing, Passing})
      ensures !w.crowded ==>
                NoTry(old(w.row), w.row)
                || (ok && old(w.row).Some? && old(w.row).value.attempt == attempt && w.row.value.tries == old(w.row).value.tries + 1)
      ensures w.inflight == old(w.inflight) || w.disturbed
      ensures !w.disturbed ==>
                && ok == old(Guard(attempt, {Failing, Passing}))
                && w == if ok then RetriedRow(old(w), nextDeadline) else old(w)
    {
      hide Legal, LegalHistory, Inv;
      ghost var before := w;
      var c := Begin();
      ghost var mid := w;
      Means(before, mid);
      RowStepTransitive(Some(seen), before.row, w.row);
      ok := !c.storeFails && Guard(attempt, {Failing, Passing});
      if ok {
        RetryStep(w, nextDeadline);
        Commit(RetriedRow(w, nextDeadline));
        LegalTransitive(before, mid, w);
      }
    }

    /** SetCaptchaPrompt is guarded by the attempt alone, and moves the deadline only of a
        challenged row. */
    method SetCaptchaPrompt(attempt: nat, promptChatId: int, ephemeralId: nat, messageId: nat, deadline: int)
        returns (failed: bool, row: Option<CaptchaRow>)
      requires Valid() && (ephemeralId != 0 || messageId != 0) && mine == Some(attempt)
      modifies this`w, this`history, this`tick, this`mine
      ensures Valid() && Legal(old(w), w) && old(history) <= history
      ensures tick == old(tick) + 1
      ensures !failed ==> row == w.row && row.Some? && row.value.attempt == attempt && Prompted(row.value)
      ensures failed ==> row == w.row
      ensures !w.disturbed && !failed && !old(w.row.value.state).Challenged? ==> w.row.value.deadline == old(w.row.value.deadline)
      ensures !w.disturbed ==> (failed <==> old(w.row).None? || old(w.row).value.attempt != attempt)
      ensures !w.disturbed && failed ==> w == old(w)
      ensures !w.disturbed && !failed ==>
                w == PromptedRow(old(w), promptChatId, ephemeralId, messageId, deadline)
    {
      hide Legal, LegalHistory, Inv;
      var c := Begin();
      if c.storeFails || w.row.None? || w.row.value.attempt != attempt {
        return true, w.row;
      }
      ghost var mid := w;
      mine := None;
      PromptStep(w, promptChatId, ephemeralId, messageId, deadline);
      Commit(PromptedRow(w, promptChatId, ephemeralId, messageId, deadline));
      LegalTransitive(old(w), mid, w);
      return false, w.row;
    }

    /** SanctionSince for the member, as one read of the incidents. */
    method SanctionSince(attempt: nat, since: int) returns (failed: bool, answer: bool)
      requires Valid()
      modifies this`w, this`history, this`tick
      ensures Valid() && Legal(old(w), w) && old(history) <= history
      ensures tick == old(tick) + 1
      ensures !failed ==> answer == Sanctioned(nature(old(tick)).incidents, since)
      ensures !failed && !answer && old(HasEntered(w.log, attempt, since)) ==> Cleared(w.log, attempt)
      ensures !failed && answer ==> HasSeen(w.log, attempt, since)
      ensures (failed ==> w.broken) && Spare(old(w), w)
      ensures w.inflight == old(w.inflight) || w.disturbed
      ensures !w.disturbed ==> !failed && w.row == old(w.row) && w.done == old(w.done)
    {
      hide Legal, LegalHistory, Inv, Sanctioned;
      ghost var before := w;
      var c := Begin();
      if c.storeFails {
        return true, false;
      }
      ghost var mid := w;
      Means(before, mid);
      answer := Sanctioned(c.incidents, since);
      var e := SanctionRead(attempt, since, c.incidents, answer);
      Note(e, {});
      LegalTransitive(before, mid, w);
      assert w.log[|mid.log|] == e && w.log[..|mid.log|] == mid.log;
      assert w.done == mid.done;
      failed := false;
    }

    /** One more event, and the calls it stands for if they were answered with success. */
    method Note(e: Event, acts: set<(nat, Act)>)
      requires Valid() && Lawful(w.log, e)
      modifies this`w, this`history
      ensures Valid() && Legal(old(w), w) && old(history) <= history
      ensures w == old(w).(log := old(w).log + [e], done := old(w).done + acts)
    {
      hide LegalHistory, LogOk, Cleared, Sanctioned;
      LogGrows(w.log, e);
      Commit(w.(log := w.log + [e], done := w.done + acts));
    }

    // The Telegram port.

    /** UnrestrictMember, the call the captcha must clear first. */
    method UnrestrictMember(attempt: nat) returns (ok: bool)
      requires Valid() && Cleared(w.log, attempt)
      modifies this`w, this`history, this`tick
      ensures Valid() && Legal(old(w), w) && old(history) <= history
      ensures tick == old(tick) + 1 && ok == nature(old(tick)).callOk
      ensures ok ==> (attempt, Unmuted) in w.done
      ensures w.log != [] && w.log[|w.log| - 1] == UnrestrictIssued(attempt)
      ensures Spare(old(w), w)
      ensures w.inflight == old(w.inflight) || w.disturbed
      ensures !w.disturbed ==> w.row == old(w.row)
    {
      hide Legal, LegalHistory, Inv, Cleared, LogOk;
      ghost var before := w;
      var c := Begin();
      ghost var mid := w;
      Means(before, mid);
      ClearedStays(before.log, w.log, attempt);
      ok := c.callOk;
      Note(UnrestrictIssued(attempt), if ok then {(attempt, Unmuted)} else {});
      LegalTransitive(before, mid, w);
    }

    /** A call that punishes: the ban of a kick, or the decline of a join request. */
    method Punish(attempt: nat, action: FailAction) returns (ok: bool)
      requires Valid() && Punishing(action) && HasCondemned(w.log, attempt, action)
      modifies this`w, this`history, this`tick
      ensures Valid() && Legal(old(w), w) && old(history) <= history
      ensures tick == old(tick) + 1 && ok == nature(old(tick)).callOk
      ensures ok ==> (attempt, if action.Kick? then Banned else Declined) in w.done
      ensures w.log != [] && w.log[|w.log| - 1] == Punished(attempt, action)
      ensures Spare(old(w), w)
      ensures w.inflight == old(w.inflight) || w.disturbed
      ensures !w.disturbed ==> w.row == old(w.row)
    {
      hide Legal, LegalHistory, Inv, HasCondemned;
      ghost var before := w;
      var c := Begin();
      ghost var mid := w;
      Means(before, mid);
      CondemnedStays(before.log, w.log, attempt, action);
      ok := c.callOk;
      var act := if action.Kick? then Banned else Declined;
      Note(Punished(attempt, action), if ok then {(attempt, act)} else {});
      LegalTransitive(before, mid, w);
    }

    /** RestrictMember, ApproveJoinRequest, and the UnbanMember that ends a kick: remembered when
        they succeed. */
    method Do(attempt: nat, act: Act) returns (ok: bool)
      requires Valid() && (act.Muted? || act.Approved? || (act.Unbanned? && (attempt, Banned) in w.done))
      modifies this`w, this`history, this`tick
      ensures Valid() && Legal(old(w), w) && old(history) <= history
      ensures tick == old(tick) + 1 && ok == nature(old(tick)).callOk
      ensures ok ==> (attempt, act) in w.done
      ensures Spare(old(w), w)
      ensures w.inflight == old(w.inflight) || w.disturbed
      ensures !w.disturbed ==> w == old(w).(done := w.done)
    {
      hide Legal, LegalHistory, Inv;
      var c := Begin();
      ok := c.callOk;
      if ok {
        ghost var mid := w;
        DoStep(w, {(attempt, act)});
        Commit(w.(done := w.done + {(attempt, act)}));
        LegalTransitive(old(w), mid, w);
      }
    }

    /** Deleting a prompt; nothing depends on it. */
    method Call() returns (ok: bool)
      requires Valid()
      modifies this`w, this`history, this`tick
      ensures Valid() && Legal(old(w), w) && old(history) <= history
      ensures tick == old(tick) + 1 && ok == nature(old(tick)).callOk
      ensures Spare(old(w), w)
      ensures !w.disturbed ==> w == old(w)
    {
      var c := Begin();
      return c.callOk;
    }

    /** Sending a button; message ids are never zero. */
    method SendPrompt() returns (ok: bool, id: nat)
      requires Valid()
      modifies this`w, this`history, this`tick
      ensures Valid() && Legal(old(w), w) && old(history) <= history
      ensures tick == old(tick) + 1
      ensures ok == nature(old(tick)).callOk && id == nature(old(tick)).id + 1
      ensures !w.disturbed ==> w == old(w)
    {
      var c := Begin();
      return c.callOk, c.id + 1;
    }

    /** gate: whether captcha still applies to the chat, and what a failed challenge costs there. */
    method Gate() returns (failed: bool, open: bool, onFail: FailAction)
      requires Valid()
      modifies this`w, this`history, this`tick
      ensures Valid() && Legal(old(w), w) && old(history) <= history
      ensures tick == old(tick) + 1
      ensures open == nature(old(tick)).gateOpen && (onFail.KeepMuted? <==> nature(old(tick)).onFail.KeepMuted?)
      ensures onFail.Kick? || onFail.KeepMuted?
      ensures (failed ==> w.broken) && Spare(old(w), w)
      ensures !w.disturbed ==> !failed && w == old(w)
    {
      var c := Begin();
      return c.gateFails, c.gateOpen, if c.onFail.KeepMuted? then KeepMuted else Kick;
    }

    method Clock() returns (now: int)
      ensures now == nature(tick).now
    {
      now := nature(tick).now;
    }

    /** The in-flight mark of a challenge being delivered. */
    method Track(on: bool)
      requires Valid()
      modifies this`w, this`history
      ensures Valid() && Legal(old(w), w) && w == old(w).(inflight := on) && old(history) <= history
    {
      Commit(w.(inflight := on));
    }
  }

  /** The ended attempts once a new one replaces the present row. */
  function Replaced(w: World): map<nat, CaptchaRow> {
    if w.row.Some? then w.ended[w.row.value.attempt := w.row.value] else w.ended
  }

  /** What a snapshot of the row tells for good. */
  predicate Known(w: World, r: CaptchaRow) {
    && (r.state.Passing? || (r.state.Failing? && r.failAction.Unrestrict?) ==> HasEntered(w.log, r.attempt, r.createdAt))
    && (r.state.Failing? && Punishing(r.failAction) ==> HasCondemned(w.log, r.attempt, r.failAction))
    && w.row.Some? && RowStep(Some(r), w.row)
  }

  lemma KnownStays(a: World, b: World, r: CaptchaRow)
    requires Known(a, r) && Legal(a, b)
    ensures Known(b, r)
  {
  }

  /** What must have happened for a row read as `seen` to go from `from` to `to`. */
  predicate Earned(seen: CaptchaRow, from: CState, to: CState, w: World) {
    && from != to && Leads(from, to)
    && match to {
         case Challenged => seen.mode.ButtonMode? ==> (seen.attempt, Muted) in w.done
         case Passed => from.Passing? && (seen.attempt, LiftOf(seen.mode)) in w.done
         case Failed => from.Failing? && seen.state.Failing? && Served(seen, w.done)
         case Cancelled =>
           && (from.Passing? ==> Excused(seen, w.done, w.log))
           && (from.Failing? ==> seen.state.Failing? && seen.failAction.Unrestrict?
                                 && Excused(seen, w.done, w.log))
         case _ => false
       }
  }

  lemma EarnedStays(a: World, b: World, seen: CaptchaRow, from: CState, to: CState)
    requires Earned(seen, from, to, a) && Legal(a, b)
    ensures Earned(seen, from, to, b)
  {
  }

  lemma EnterLog(w: World, attempt: nat, since: int)
    requires Inv(w)
    ensures var log := w.log + [Entered(attempt, since)]; LogOk(log) && HasEntered(log, attempt, since)
  {
    LogGrows(w.log, Entered(attempt, since));
    assert (w.log + [Entered(attempt, since)])[|w.log|] == Entered(attempt, since);
  }

  function FailEvent(r: CaptchaRow, action: FailAction, at: int): Event {
    if action.Unrestrict? then Entered(r.attempt, r.createdAt)
    else Condemned(r.attempt, action, if r.ephemeralId != 0 then r.ephemeralId else r.messageId, r.deadline, at)
  }

  lemma FailLog(w: World, r: CaptchaRow, action: FailAction, at: int, e: Event)
    requires Inv(w) && (action.Unrestrict? || (Prompted(r) && r.deadline <= at)) && e == FailEvent(r, action, at)
    ensures LogOk(w.log + [e])
    ensures action.Unrestrict? ==> HasEntered(w.log + [e], r.attempt, r.createdAt)
    ensures !action.Unrestrict? ==> HasCondemned(w.log + [e], r.attempt, action) && TimedOut(w.log + [e], r)
  {
    LogGrows(w.log, e);
    assert (w.log + [e])[|w.log|] == e;
  }

  /** The row, failing; the log says with what, and despite which button. */
  function FailedRow(w: World, action: FailAction, at: int): World
    requires w.row.Some?
  {
    var r := w.row.value;
    w.(row := Some(r.(state := Failing, failAction := action)), log := w.log + [FailEvent(r, action, at)])
  }

  lemma FailStep(w: World, action: FailAction, at: int)
    requires Inv(w) && w.row.Some? && (w.row.value.state.CNew? || w.row.value.state.Challenged?) && !action.NoAction?
    requires action.Unrestrict? || (Prompted(w.row.value) && w.row.value.deadline <= at)
    ensures var b := FailedRow(w, action, at); Legal(w, b) && Known(b, b.row.value)
  {
    hide Inv, LogOk, HasEntered, HasCondemned, HasSeen, Cleared, TimedOut;
    FailInv(w, action, at);
  }

  lemma FailInv(w: World, action: FailAction, at: int)
    requires Inv(w) && w.row.Some? && (w.row.value.state.CNew? || w.row.value.state.Challenged?) && !action.NoAction?
    requires action.Unrestrict? || (Prompted(w.row.value) && w.row.value.deadline <= at)
    ensures var b := FailedRow(w, action, at);
            && Inv(b)
            && (action.Unrestrict? ==> HasEntered(b.log, b.row.value.attempt, b.row.value.createdAt))
            && (!action.Unrestrict? ==> HasCondemned(b.log, b.row.value.attempt, action) && TimedOut(b.log, w.row.value))
  {
    hide LogOk, HasEntered, HasCondemned, HasSeen, Cleared, TimedOut;
    var r := w.row.value;
    FailLog(w, r, action, at, FailEvent(r, action, at));
  }

  /** The row, passing since `deadline`. */
  function PassingRow(w: World, deadline: int): World
    requires w.row.Some?
  {
    var r := w.row.value;
    w.(row := Some(r.(state := Passing, deadline := deadline)), log := w.log + [Entered(r.attempt, r.createdAt)])
  }

  lemma PassStep(w: World, deadline: int)
    requires Inv(w) && w.row.Some? && w.row.value.state.Challenged?
    ensures var b := PassingRow(w, deadline); Legal(w, b) && HasEntered(b.log, b.row.value.attempt, b.row.value.createdAt)
  {
    hide LogOk, HasCondemned, HasSeen, Cleared, TimedOut;
    EnterLog(w, w.row.value.attempt, w.row.value.createdAt);
  }

  /** The row with one try more, due again at `deadline`. */
  function RetriedRow(w: World, deadline: int): World
    requires w.row.Some?
  {
    w.(row := Some(w.row.value.(tries := w.row.value.tries + 1, deadline := deadline)))
  }

  lemma RetryStep(w: World, deadline: int)
    requires Inv(w) && w.row.Some? && (w.row.value.state.Failing? || w.row.value.state.Passing?)
    ensures Legal(w, RetriedRow(w, deadline))
  {
    hide LogOk, HasCondemned, HasSeen, Cleared, TimedOut;
  }

  /** The row with a button. */
  function PromptedRow(w: World, promptChatId: int, ephemeralId: nat, messageId: nat, deadline: int): World
    requires w.row.Some?
  {
    var r := w.row.value;
    w.(row := Some(r.(ephemeralId := ephemeralId, messageId := messageId, promptChatId := promptChatId,
                      deadline := if r.state.Challenged? then deadline else r.deadline)))
  }

  lemma PromptStep(w: World, promptChatId: int, ephemeralId: nat, messageId: nat, deadline: int)
    requires Inv(w) && w.row.Some? && !w.row.value.state.CNew? && !Prompted(w.row.value) && (ephemeralId != 0 || messageId != 0)
    ensures Legal(w, PromptedRow(w, promptChatId, ephemeralId, messageId, deadline))
  {
    hide LogOk, HasCondemned, HasSeen, Cleared, TimedOut;
  }

  lemma DoStep(w: World, acts: set<(nat, Act)>)
    requires Inv(w)
    ensures Legal(w, w.(done := w.done + acts))
  {
    hide LogOk, HasCondemned, HasSeen, Cleared, TimedOut;
  }

  /** A row nobody has challenged yet has no button. */
  lemma Fresh(w: World, seen: CaptchaRow)
    requires Inv(w) && w.row.Some? && Earned(seen, w.row.value.state, Challenged, w)
    ensures !Prompted(w.row.value)
  {
  }

  lemma MoveStep(w: World, seen: CaptchaRow, to: CState)
    requires Inv(w) && w.row.Some? && w.row.value.attempt == seen.attempt && RowStep(Some(seen), w.row)
    requires Earned(seen, w.row.value.state, to, w)
    ensures Legal(w, w.(row := Some(w.row.value.(state := to))))
  {
  }
}
