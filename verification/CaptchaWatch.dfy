/** internal/watch/captcha.go and captcha_join_request.go: the activities that drive one
    member's challenge. They run concurrently; what one does between two steps of another is
    in the store's `Legal`. */
module CaptchaWatch {
  import opened Options
  import opened CaptchaStore

  const RetryDelay: int := 60

  /** Visits a row can still take: none once it is terminal, one for each try left and one to give up. */
  function Measure(row: Option<CaptchaRow>): nat {
    if row.None? || Terminal(row.value.state) then 0
    else if row.value.tries >= GiveUpTries then 1
    else GiveUpTries + 1 - row.value.tries
  }

  function Tries(row: Option<CaptchaRow>): nat {
    if row.Some? then row.value.tries else 0
  }

  /** What went wrong or was done by others stays on record. */
  predicate Flags(a: World, b: World) {
    (a.disturbed ==> b.disturbed) && (a.broken ==> b.broken) && (a.crowded ==> b.crowded)
  }

  /** How far an attempt still is from its end, whoever moves it. */
  function Rank(r: CaptchaRow): nat {
    match r.state
    case CNew => GiveUpTries + 3
    case Challenged => GiveUpTries + 2
    case Passing => if r.tries >= GiveUpTries then 1 else GiveUpTries + 1 - r.tries
    case Failing => if r.tries >= GiveUpTries then 1 else GiveUpTries + 1 - r.tries
    case _ => 0
  }

  /** Whatever happens to a row, its attempt only comes closer to its end. */
  lemma RankFalls(a: CaptchaRow, b: CaptchaRow)
    requires RowStep(Some(a), Some(b)) && a.attempt == b.attempt
    ensures Rank(b) <= Rank(a)
    ensures a.state != b.state ==> Rank(b) < Rank(a)
    ensures a.tries < b.tries && a.tries < GiveUpTries && (a.state.Passing? || a.state.Failing?) ==> Rank(b) < Rank(a)
  {
  }

  /** The attempt of a snapshot is closer to its end than the snapshot, by us or by others: or else
      the store failed, or a new attempt began. */
  predicate Progress(r: CaptchaRow, w: World) {
    !w.broken && w.row.Some? && w.row.value.attempt == r.attempt ==> Rank(w.row.value) < Rank(r)
  }

  /** Nobody else counting tries, none is counted past the last. */
  predicate Bounded(r: CaptchaRow, a: World, b: World) {
    !b.crowded && r.tries <= GiveUpTries && NoTry(Some(r), a.row) ==> b.row.None? || b.row.value.tries <= GiveUpTries
  }

  /** From an earlier state of the same history to the present one. */
  lemma Since(c: Challenge, earlier: seq<World>)
    requires c.Valid() && |earlier| > 0 && earlier <= c.history
    ensures Legal(earlier[|earlier|-1], c.w)
  {
    LegalThroughout(c.history, |earlier| - 1, |c.history| - 1);
  }

  /** One try more, due again a minute after `now`. */
  function Retried(r: CaptchaRow, now: int): CaptchaRow {
    r.(tries := r.tries + 1, deadline := now + RetryDelay)
  }

  /** Where one attempt at a failing row leaves it, the row being nobody else's meanwhile: what the
      incidents and the calls answer from step `t` on decides. */
  function FailResult(r: CaptchaRow, nature: nat -> Choice, t: nat): CaptchaRow {
    if !r.failAction.KeepMuted? && r.tries >= GiveUpTries then r.(state := if r.failAction.Unrestrict? then Cancelled else Failed)
    else match r.failAction
      case Unrestrict =>
        if Sanctioned(nature(t).incidents, r.createdAt) || nature(t + 1).callOk then r.(state := Cancelled)
        else Retried(r, nature(t + 2).now)
      case Kick =>
        if !nature(t).callOk then Retried(r, nature(t + 1).now)
        else if !nature(t + 1).callOk then Retried(r, nature(t + 2).now)
        else r.(state := Failed)
      case Decline => if nature(t).callOk then r.(state := Failed) else Retried(r, nature(t + 1).now)
      case _ => r.(state := Failed)
  }

  /** The row's punishment or release is over: recorded once it was carried out, excused or given up. */
  method FinishFail(c: Challenge, row: CaptchaRow, to: CState)
    requires c.Valid() && row.state.Failing? && RowStep(Some(row), c.w.row)
    requires if row.failAction.Unrestrict? then to.Cancelled? && Excused(row, c.w.done, c.w.log)
             else to.Failed? && Served(row, c.w.done)
    modifies c
    ensures c.Valid() && Legal(old(c.w), c.w) && old(c.history) <= c.history && c.tick == old(c.tick) + 1
    ensures Progress(row, c.w) && Bounded(row, old(c.w), c.w)
    ensures !c.w.disturbed && old(c.w.row) == Some(row) ==> c.w.row == Some(row.(state := to))
  {
    var _, _, _ := c.TransitionCaptcha(row, row.attempt, {Failing}, to);
  }

  method GiveUp(c: Challenge, row: CaptchaRow)
    requires c.Valid() && row.state.Failing? && RowStep(Some(row), c.w.row)
    requires row.tries >= GiveUpTries || row.failAction.NoAction?
    modifies c
    ensures c.Valid() && Legal(old(c.w), c.w) && old(c.history) <= c.history && c.tick == old(c.tick) + 1
    ensures Progress(row, c.w) && Bounded(row, old(c.w), c.w)
    ensures !c.w.disturbed && old(c.w.row) == Some(row) ==>
              c.w.row == Some(row.(state := if row.failAction.Unrestrict? then Cancelled else Failed))
  {
    FinishFail(c, row, if row.failAction.Unrestrict? then Cancelled else Failed);
  }

  method Retry(c: Challenge, row: CaptchaRow)
    requires c.Valid() && RowStep(Some(row), c.w.row) && row.tries < GiveUpTries && (row.state.Failing? || row.state.Passing?)
    modifies c
    ensures c.Valid() && Legal(old(c.w), c.w) && old(c.history) <= c.history && c.tick == old(c.tick) + 1
    ensures Progress(row, c.w) && Bounded(row, old(c.w), c.w)
    ensures !c.w.disturbed && old(c.w.row) == Some(row) ==>
              c.w.row == Some(row.(tries := row.tries + 1, deadline := c.nature(old(c.tick)).now + 60))
  {
    var now := c.Clock();
    var ok := c.RetryCaptcha(row, row.attempt, now + RetryDelay);
  }

  /** The lift of a release whose sanction check came back clear. */
  method Release(c: Challenge, row: CaptchaRow)
    requires c.Valid() && Known(c.w, row) && row.state.Failing? && row.failAction.Unrestrict? && Cleared(c.w.log, row.attempt)
    requires row.tries < GiveUpTries
    modifies c
    ensures c.Valid() && old(c.history) <= c.history
    ensures Progress(row, c.w) && Bounded(row, old(c.w), c.w)
    ensures Flags(old(c.w), c.w)
    ensures !c.w.disturbed && old(c.w.row) == Some(row) ==>
              c.w.row == Some(if c.nature(old(c.tick)).callOk then row.(state := Cancelled) else Retried(row, c.nature(old(c.tick) + 1).now))
  {
    hide Inv, LegalHistory, Follows;
    ghost var start := c.w;
    var ok := c.UnrestrictMember(row.attempt);
    KnownStays(start, c.w, row);
    if !ok {
      Retry(c, row);
      return;
    }
    FinishFail(c, row, Cancelled);
  }

  /** A row failing with unrestrict: look for a sanction, else lift. */
  method FailRelease(c: Challenge, row: CaptchaRow)
    requires c.Valid() && Known(c.w, row) && row.state.Failing? && row.failAction.Unrestrict?
    requires row.tries < GiveUpTries
    modifies c
    ensures c.Valid() && old(c.history) <= c.history
    ensures Progress(row, c.w) && Bounded(row, old(c.w), c.w)
    ensures Flags(old(c.w), c.w)
    ensures !c.w.disturbed && old(c.w.row) == Some(row) ==> c.w.row == Some(FailResult(row, c.nature, old(c.tick)))
  {
    ghost var start := c.w;
    var failed, sanctioned := c.SanctionSince(row.attempt, row.createdAt);
    if failed {
      return;
    }
    KnownStays(start, c.w, row);
    if sanctioned {
      FinishFail(c, row, Cancelled);
      return;
    }
    Release(c, row);
  }

  /** A kick is a ban and then an unban; both have to be answered with success. */
  method BanAndUnban(c: Challenge, row: CaptchaRow) returns (ok: bool)
    requires c.Valid() && Known(c.w, row) && row.state.Failing? && row.failAction.Kick?
    modifies c
    ensures c.Valid() && Legal(old(c.w), c.w) && old(c.history) <= c.history
    ensures Spare(old(c.w), c.w)
    ensures ok <==> c.nature(old(c.tick)).callOk && c.nature(old(c.tick) + 1).callOk
    ensures c.tick == old(c.tick) + if c.nature(old(c.tick)).callOk then 2 else 1
    ensures ok ==> (row.attempt, Unbanned) in c.w.done
    ensures !c.w.disturbed ==> c.w.row == old(c.w.row)
  {
    ghost var start := c.w;
    ok := c.Punish(row.attempt, Kick);
    if ok {
      ghost var banned := c.w;
      ok := c.Do(row.attempt, Unbanned);
      LegalTransitive(start, banned, c.w);
    }
  }

  method FailKick(c: Challenge, row: CaptchaRow)
    requires c.Valid() && Known(c.w, row) && row.state.Failing? && row.failAction.Kick?
    requires row.tries < GiveUpTries
    modifies c
    ensures c.Valid() && old(c.history) <= c.history
    ensures Progress(row, c.w) && Bounded(row, old(c.w), c.w)
    ensures Flags(old(c.w), c.w)
    ensures !c.w.disturbed && old(c.w.row) == Some(row) ==> c.w.row == Some(FailResult(row, c.nature, old(c.tick)))
  {
    ghost var start := c.w;
    var ok := BanAndUnban(c, row);
    KnownStays(start, c.w, row);
    if !ok {
      Retry(c, row);
      return;
    }
    FinishFail(c, row, Failed);
  }

  method FailDecline(c: Challenge, row: CaptchaRow)
    requires c.Valid() && Known(c.w, row) && row.state.Failing? && row.failAction.Decline?
    requires row.tries < GiveUpTries
    modifies c
    ensures c.Valid() && old(c.history) <= c.history
    ensures Progress(row, c.w) && Bounded(row, old(c.w), c.w)
    ensures Flags(old(c.w), c.w)
    ensures !c.w.disturbed && old(c.w.row) == Some(row) ==> c.w.row == Some(FailResult(row, c.nature, old(c.tick)))
  {
    hide Inv, LegalHistory, Follows;
    ghost var start := c.w;
    var ok := c.Punish(row.attempt, Decline);
    KnownStays(start, c.w, row);
    if !ok {
      Retry(c, row);
      return;
    }
    FinishFail(c, row, Failed);
  }

  /** What one attempt at a failing or passing row leaves: it is over, or one try the poorer. */
  predicate Handled(row: CaptchaRow, after: Option<CaptchaRow>) {
    after.Some? && after.value.attempt == row.attempt
    && ((Terminal(after.value.state) && after.value.tries == row.tries)
        || (after.value.state == row.state && after.value.tries == row.tries + 1))
  }

  /** One attempt to carry out a failing row's action. */
  method Fail(c: Challenge, row: CaptchaRow)
    requires c.Valid() && Known(c.w, row) && row.state.Failing?
    modifies c
    ensures c.Valid() && old(c.history) <= c.history
    ensures Progress(row, c.w) && Bounded(row, old(c.w), c.w)
    ensures Flags(old(c.w), c.w)
    ensures !c.w.disturbed && old(c.w.row) == Some(row) ==> c.w.row == Some(FailResult(row, c.nature, old(c.tick)))
    ensures !c.w.disturbed && old(c.w.row) == Some(row) ==> Handled(row, c.w.row)
    ensures !c.w.disturbed && old(c.w.row) == Some(row) && row.tries >= GiveUpTries ==> Terminal(c.w.row.value.state)
  {
    if !row.failAction.KeepMuted? && row.tries >= GiveUpTries {
      GiveUp(c, row);
      return;
    }
    match row.failAction
    case Unrestrict => FailRelease(c, row);
    case Kick => FailKick(c, row);
    case KeepMuted => FinishFail(c, row, Failed);
    case Decline => FailDecline(c, row);
    case NoAction => GiveUp(c, row);
  }

  /** How many calls drop the prompt. */
  function Drops(r: CaptchaRow): nat {
    (if r.ephemeralId != 0 then 1 else 0) + (if r.messageId != 0 then 1 else 0)
  }

  /** deleteIDs: the prompt goes; nothing depends on whether that succeeds. */
  method DeleteIds(c: Challenge, row: CaptchaRow)
    requires c.Valid()
    modifies c
    ensures c.Valid() && Legal(old(c.w), c.w) && old(c.history) <= c.history
    ensures Spare(old(c.w), c.w) && c.tick == old(c.tick) + Drops(row)
    ensures !c.w.disturbed ==> c.w == old(c.w)
  {
    if row.ephemeralId != 0 {
      var _ := c.Call();
    }
    if row.messageId != 0 {
      ghost var mid := c.w;
      var _ := c.Call();
      LegalTransitive(old(c.w), mid, c.w);
    }
  }

  /** A challenged row fails with `action`: its buttons go, and the action is tried at once. */
  method FailChallenged(c: Challenge, row: CaptchaRow, now: int, action: FailAction)
    requires c.Valid() && Known(c.w, row) && row.state.Challenged? && !action.NoAction?
    requires action.Unrestrict? || (Prompted(row) && row.deadline <= now)
    modifies c
    ensures c.Valid() && old(c.history) <= c.history
    ensures Progress(row, c.w) && Bounded(row, old(c.w), c.w)
    ensures Flags(old(c.w), c.w)
    ensures !c.w.disturbed && old(c.w.row) == Some(row) ==>
              c.w.row == Some(FailResult(row.(state := Failing, failAction := action), c.nature, old(c.tick) + 1 + Drops(row)))
  {
    hide Inv, LegalHistory, Follows, LogOk;
    var _, failed, moved := c.FailCaptcha(row, now, row.attempt, Challenged, action);
    if !moved {
      return;
    }
    ghost var mid := c.w;
    DeleteIds(c, failed.value);
    KnownStays(mid, c.w, failed.value);
    Fail(c, failed.value);
  }

  /** The challenge is off: nothing to punish or to release any more. */
  method CancelWithPrompt(c: Challenge, row: CaptchaRow, from: CState)
    requires c.Valid() && RowStep(Some(row), c.w.row)
    requires from.CNew? || from.Challenged? || (from.Passing? && Excused(row, c.w.done, c.w.log))
    modifies c
    ensures c.Valid() && old(c.history) <= c.history
    ensures row.state == from ==> Progress(row, c.w) && Bounded(row, old(c.w), c.w)
    ensures Flags(old(c.w), c.w)
    ensures !c.w.disturbed && old(c.w.row) == Some(row) && row.state == from ==> c.w.row == Some(row.(state := Cancelled))
  {
    hide Inv, LegalHistory, Follows;
    var _, updated, moved := c.TransitionCaptcha(row, row.attempt, {from}, Cancelled);
    if moved {
      DeleteIds(c, updated.value);
    }
  }

  /** A prompted row at its deadline: off for a sanction, else failed with the configured action. */
  function PromptedResult(r: CaptchaRow, onFail: FailAction, nature: nat -> Choice, t: nat): CaptchaRow {
    if Sanctioned(nature(t).incidents, r.createdAt) then r.(state := Cancelled)
    else FailResult(r.(state := Failing, failAction := onFail), nature, t + 2 + Drops(r))
  }

  /** A challenged row at its deadline. */
  function TimeoutResult(r: CaptchaRow, nature: nat -> Choice, t: nat): CaptchaRow {
    if !nature(t).gateOpen || !Prompted(r) then FailResult(r.(state := Failing, failAction := Unrestrict), nature, t + 2 + Drops(r))
    else PromptedResult(r, if nature(t).onFail.KeepMuted? then KeepMuted else Kick, nature, t + 1)
  }

  method SweepChallenged(c: Challenge, row: CaptchaRow, now: int)
    requires c.Valid() && Known(c.w, row) && row.state.Challenged? && row.deadline <= now
    modifies c
    ensures c.Valid() && old(c.history) <= c.history
    ensures Progress(row, c.w) && Bounded(row, old(c.w), c.w)
    ensures Flags(old(c.w), c.w)
    ensures !c.w.disturbed && old(c.w.row) == Some(row) ==> c.w.row == Some(TimeoutResult(row, c.nature, old(c.tick)))
  {
    hide Inv, LegalHistory, Follows, FailResult, PromptedResult;
    ghost var start := c.w;
    var unknown, open, onFail := c.Gate();
    if unknown {
      return;
    }
    KnownStays(start, c.w, row);
    if !open || !Prompted(row) {
      FailChallenged(c, row, now, Unrestrict);
      return;
    }
    SweepPrompted(c, row, now, onFail);
  }

  /** Who had a button and did not press it is punished, unless somebody sanctioned them first. */
  method SweepPrompted(c: Challenge, row: CaptchaRow, now: int, onFail: FailAction)
    requires c.Valid() && Known(c.w, row) && row.state.Challenged? && Prompted(row) && row.deadline <= now && (onFail.Kick? || onFail.KeepMuted?)
    modifies c
    ensures c.Valid() && old(c.history) <= c.history
    ensures Progress(row, c.w) && Bounded(row, old(c.w), c.w)
    ensures Flags(old(c.w), c.w)
    ensures !c.w.disturbed && old(c.w.row) == Some(row) ==> c.w.row == Some(PromptedResult(row, onFail, c.nature, old(c.tick)))
  {
    ghost var start := c.w;
    var failed, sanctioned := c.SanctionSince(row.attempt, row.createdAt);
    if failed {
      return;
    }
    KnownStays(start, c.w, row);
    if sanctioned {
      CancelWithPrompt(c, row, Challenged);
      return;
    }
    FailChallenged(c, row, now, onFail);
  }

  /** The lift was answered with success, so the pass is recorded. */
  method PassLifted(c: Challenge, row: CaptchaRow)
    requires c.Valid() && RowStep(Some(row), c.w.row) && (row.attempt, LiftOf(row.mode)) in c.w.done
    modifies c
    ensures c.Valid() && old(c.history) <= c.history
    ensures row.state.Passing? ==> Progress(row, c.w) && Bounded(row, old(c.w), c.w)
    ensures Flags(old(c.w), c.w)
    ensures !c.w.disturbed && old(c.w.row) == Some(row) && row.state.Passing? ==> c.w.row == Some(row.(state := Passed))
  {
    hide Inv, LegalHistory, Follows;
    var _, updated, moved := c.TransitionCaptcha(row, row.attempt, {Passing}, Passed);
    if moved {
      DeleteIds(c, updated.value);
    }
  }

  /** A press whose lift did not land yet. */
  function PassingResult(r: CaptchaRow, nature: nat -> Choice, t: nat): CaptchaRow {
    if r.mode.JoinRequestMode? then
      if r.tries >= GiveUpTries then r.(state := Cancelled)
      else if nature(t).callOk then r.(state := Passed)
      else Retried(r, nature(t + 1).now)
    else if Sanctioned(nature(t).incidents, r.createdAt) || r.tries >= GiveUpTries then r.(state := Cancelled)
    else if nature(t + 1).callOk then r.(state := Passed)
    else Retried(r, nature(t + 2).now)
  }

  /** A press whose lift did not land yet: checked again, then lifted, retried or given up. */
  method SweepPassing(c: Challenge, row: CaptchaRow)
    requires c.Valid() && Known(c.w, row) && row.state.Passing?
    modifies c
    ensures c.Valid() && old(c.history) <= c.history
    ensures Progress(row, c.w) && Bounded(row, old(c.w), c.w)
    ensures Flags(old(c.w), c.w)
    ensures !c.w.disturbed && old(c.w.row) == Some(row) ==> c.w.row == Some(PassingResult(row, c.nature, old(c.tick)))
    ensures !c.w.disturbed && old(c.w.row) == Some(row) ==> Handled(row, c.w.row)
    ensures !c.w.disturbed && old(c.w.row) == Some(row) && row.tries >= GiveUpTries ==> Terminal(c.w.row.value.state)
  {
    hide Inv, LegalHistory, Follows;
    if row.mode.JoinRequestMode? {
      SweepJoinPassing(c, row);
      return;
    }
    ghost var start := c.w;
    var failed, sanctioned := c.SanctionSince(row.attempt, row.createdAt);
    if failed {
      return;
    }
    KnownStays(start, c.w, row);
    if sanctioned || row.tries >= GiveUpTries {
      CancelWithPrompt(c, row, Passing);
      return;
    }
    SweepLift(c, row);
  }

  /** The lift of a button press whose sanction check came back clear. */
  method SweepLift(c: Challenge, row: CaptchaRow)
    requires c.Valid() && Known(c.w, row) && row.state.Passing? && row.mode.ButtonMode? && Cleared(c.w.log, row.attempt)
    requires row.tries < GiveUpTries
    modifies c
    ensures c.Valid() && old(c.history) <= c.history
    ensures Progress(row, c.w) && Bounded(row, old(c.w), c.w)
    ensures Flags(old(c.w), c.w)
    ensures !c.w.disturbed && old(c.w.row) == Some(row) ==>
              c.w.row == Some(if c.nature(old(c.tick)).callOk then row.(state := Passed) else Retried(row, c.nature(old(c.tick) + 1).now))
  {
    hide Inv, LegalHistory, Follows;
    ghost var start := c.w;
    var ok := c.UnrestrictMember(row.attempt);
    KnownStays(start, c.w, row);
    if !ok {
      Retry(c, row);
      return;
    }
    PassLifted(c, row);
  }

  method SweepJoinPassing(c: Challenge, row: CaptchaRow)
    requires c.Valid() && Known(c.w, row) && row.state.Passing? && row.mode.JoinRequestMode?
    modifies c
    ensures c.Valid() && old(c.history) <= c.history
    ensures Progress(row, c.w) && Bounded(row, old(c.w), c.w)
    ensures Flags(old(c.w), c.w)
    ensures !c.w.disturbed && old(c.w.row) == Some(row) ==> c.w.row == Some(PassingResult(row, c.nature, old(c.tick)))
    ensures !c.w.disturbed && old(c.w.row) == Some(row) ==> Handled(row, c.w.row)
    ensures !c.w.disturbed && old(c.w.row) == Some(row) && row.tries >= GiveUpTries ==> Terminal(c.w.row.value.state)
  {
    hide Inv, LegalHistory, Follows;
    if row.tries >= GiveUpTries {
      CancelWithPrompt(c, row, Passing);
      return;
    }
    ghost var start := c.w;
    var ok := c.Do(row.attempt, Approved);
    KnownStays(start, c.w, row);
    if !ok {
      Retry(c, row);
      return;
    }
    PassLifted(c, row);
  }

  method CancelJoin(c: Challenge, row: CaptchaRow, from: CState, drop: bool)
    requires c.Valid() && (from.CNew? || from.Challenged?) && RowStep(Some(row), c.w.row)
    modifies c
    ensures c.Valid() && old(c.history) <= c.history
    ensures row.state == from ==> Progress(row, c.w) && Bounded(row, old(c.w), c.w)
    ensures Flags(old(c.w), c.w)
    ensures !c.w.disturbed && old(c.w.row) == Some(row) && row.state == from ==> c.w.row == Some(row.(state := Cancelled))
  {
    hide Inv, LegalHistory, Follows;
    var _, updated, moved := c.TransitionCaptcha(row, row.attempt, {from}, Cancelled);
    if moved && drop {
      DeleteIds(c, updated.value);
    }
  }

  /** A challenged applicant at the deadline: who was never asked is not declined. */
  function JoinTimeoutResult(r: CaptchaRow, nature: nat -> Choice, t: nat): CaptchaRow {
    if !nature(t).gateOpen || nature(t).onFail.KeepMuted? || r.messageId == 0 then r.(state := Cancelled)
    else FailResult(r.(state := Failing, failAction := Decline), nature, t + 2 + Drops(r))
  }

  method SweepJoinChallenged(c: Challenge, row: CaptchaRow, now: int)
    requires c.Valid() && Known(c.w, row) && row.state.Challenged? && row.deadline <= now
    modifies c
    ensures c.Valid() && old(c.history) <= c.history
    ensures Progress(row, c.w) && Bounded(row, old(c.w), c.w)
    ensures Flags(old(c.w), c.w)
    ensures !c.w.disturbed && old(c.w.row) == Some(row) ==> c.w.row == Some(JoinTimeoutResult(row, c.nature, old(c.tick)))
  {
    ghost var start := c.w;
    var unknown, open, onFail := c.Gate();
    if unknown {
      return;
    }
    KnownStays(start, c.w, row);
    if !open || !onFail.Kick? || row.messageId == 0 {
      CancelJoin(c, row, Challenged, row.messageId != 0);
      return;
    }
    FailChallenged(c, row, now, Decline);
  }

  predicate Due(row: Option<CaptchaRow>, now: int) {
    row.Some? && !Terminal(row.value.state) && row.value.deadline <= now
  }

  /** Where a visit leaves a row that is nobody else's meanwhile. */
  function VisitResult(r: CaptchaRow, nature: nat -> Choice, t: nat): CaptchaRow {
    match r.state
    case CNew =>
      if r.mode.JoinRequestMode? then r.(state := Cancelled)
      else FailResult(r.(state := Failing, failAction := Unrestrict), nature, t + 1)
    case Challenged => if r.mode.JoinRequestMode? then JoinTimeoutResult(r, nature, t) else TimeoutResult(r, nature, t)
    case Failing => FailResult(r, nature, t)
    case Passing => PassingResult(r, nature, t)
    case _ => r
  }

  /** Every visit ends the row or costs it a try, and the one after the fifth try ends it. */
  lemma VisitsCount(r: CaptchaRow, nature: nat -> Choice, t: nat)
    requires !Terminal(r.state) && (r.state.CNew? || r.state.Challenged? ==> r.tries == 0)
    ensures var b := VisitResult(r, nature, t);
            && b.attempt == r.attempt && b.createdAt == r.createdAt && Measure(Some(b)) < Measure(Some(r))
            && (r.tries <= GiveUpTries ==> b.tries <= GiveUpTries)
            && (r.tries >= GiveUpTries ==> Terminal(b.state))
  {
  }

  /** What a timeout records: who had a button and no sanction against them, in a chat where the
      captcha still applies, is failed with the configured action; who had none is released. */
  lemma TimeoutRecords(r: CaptchaRow, nature: nat -> Choice, t: nat)
    requires r.state.Challenged? && r.mode.ButtonMode?
    ensures var b := VisitResult(r, nature, t);
            && (Prompted(r) && nature(t).gateOpen && !Sanctioned(nature(t + 1).incidents, r.createdAt) ==>
                  Sentenced(b) && (b.failAction.KeepMuted? <==> nature(t).onFail.KeepMuted?) && (b.failAction.Kick? <==> !nature(t).onFail.KeepMuted?))
            && (!Prompted(r) || !nature(t).gateOpen ==> b.failAction.Unrestrict?)
            && (Prompted(r) && nature(t).gateOpen && Sanctioned(nature(t + 1).incidents, r.createdAt) ==> b == r.(state := Cancelled))
  {
  }

  /** Sweep's switch for one due row: whether it was visited, and what the visit did. */
  method Visit(c: Challenge, row: CaptchaRow, now: int) returns (visited: bool)
    requires c.Valid() && Known(c.w, row) && row.deadline <= now && !Terminal(row.state) && (row.state.CNew? || row.state.Challenged? ==> row.tries == 0)
    modifies c
    ensures c.Valid() && old(c.history) <= c.history
    ensures visited ==> Progress(row, c.w) && Bounded(row, old(c.w), c.w)
    ensures Flags(old(c.w), c.w)
    ensures !old(c.w.inflight) ==> visited
    ensures !visited ==> c.w == old(c.w)
    ensures visited && !c.w.disturbed && old(c.w.row) == Some(row) ==> c.w.row == Some(VisitResult(row, c.nature, old(c.tick)))
  {
    match row.state
    case CNew =>
      if c.w.inflight {
        return false;
      }
      SweepNew(c, row);
      return true;
    case Challenged =>
      if row.mode.JoinRequestMode? {
        SweepJoinChallenged(c, row, now);
        return true;
      }
      if c.w.inflight {
        return false;
      }
      SweepChallenged(c, row, now);
      return true;
    case Failing =>
      Fail(c, row);
      return true;
    case Passing =>
      SweepPassing(c, row);
      return true;
  }

  /** A row whose delivery never started, in this process or before a restart. */
  method SweepNew(c: Challenge, row: CaptchaRow)
    requires c.Valid() && Known(c.w, row) && row.state.CNew?
    modifies c
    ensures c.Valid() && old(c.history) <= c.history
    ensures Progress(row, c.w) && Bounded(row, old(c.w), c.w)
    ensures Flags(old(c.w), c.w)
    ensures !c.w.disturbed && old(c.w.row) == Some(row) ==> c.w.row == Some(VisitResult(row, c.nature, old(c.tick)))
  {
    if row.mode.JoinRequestMode? {
      CancelJoin(c, row, CNew, false);
      return;
    }
    var _, failed, moved := c.FailCaptcha(row, 0, row.attempt, CNew, Unrestrict);
    if moved {
      Fail(c, failed.value);
    }
  }

  /** The row's deadline has come and its attempt is not over. */
  predicate Waits(row: Option<CaptchaRow>, now: int) {
    && row.Some? && row.value.deadline <= now
    && !row.value.state.Passed? && !row.value.state.Failed? && !row.value.state.Cancelled?
  }

  /** One pass of the sweeper over this member: the row it visited, as it had read it. Whatever the
      others do meanwhile, a visit brings the attempt it found closer to its end. */
  method Sweep(c: Challenge) returns (visited: bool, ghost found: Option<CaptchaRow>)
    requires c.Valid()
    modifies c
    ensures c.Valid() && old(c.history) <= c.history
    ensures Flags(old(c.w), c.w)
    ensures visited ==> found.Some? && RowStep(old(c.w.row), found) && RowStep(found, c.w.row)
    ensures visited ==> found.value.deadline <= c.nature(old(c.tick)).now && !Terminal(found.value.state)
    ensures !c.w.broken && visited ==> Left(found.value.attempt, c.w) < old(Left(found.value.attempt, c.w))
    ensures !c.w.broken && old(c.w.row).Some? && c.w.row.Some? && c.w.row.value.attempt == old(c.w.row.value.attempt) ==>
              Rank(c.w.row.value) + (if visited then 1 else 0) <= Rank(old(c.w.row.value))
    ensures !c.w.crowded && old(Tries(c.w.row)) <= GiveUpTries ==> Tries(c.w.row) <= GiveUpTries
    ensures !c.w.disturbed ==>
              && (visited ==> old(c.w.row).Some? && c.w.row == Some(VisitResult(old(c.w.row.value), c.nature, old(c.tick) + 1)))
              && (visited ==> Measure(c.w.row) < old(Measure(c.w.row)))
              && (!visited ==> c.w == old(c.w))
              && (visited ==> old(Waits(c.w.row, c.nature(c.tick).now)))
              && (old(Waits(c.w.row, c.nature(c.tick).now) && !c.w.inflight) ==> visited)
  {
    hide Legal, LegalHistory, RowStep, Inv, Rank, Left, Known, Measure, NoTry, VisitResult, Follows, Progress, Bounded, Tries;
    ghost var start := c.w;
    var now := c.Clock();
    var failed, row := c.GetCaptcha();
    found := row;
    Untouched(start, c.w);
    if failed || !Due(row, now) {
      return false, found;
    }
    ghost var read, seen := c.history, c.w;
    Snapshot(seen);
    visited := Visit(c, row.value, now);
    Since(c, read);
    Visited(start, seen, c.w, row.value, visited);
    if !Terminal(row.value.state) {
      VisitsCount(row.value, c.nature, old(c.tick) + 1);
    }
  }

  /** What a pass sees before it acts. */
  lemma Snapshot(w: World)
    requires Inv(w) && w.row.Some?
    ensures Known(w, w.row.value)
    ensures w.row.value.state.CNew? || w.row.value.state.Challenged? ==> w.row.value.tries == 0
  {
  }

  lemma Untouched(a: World, b: World)
    requires Legal(a, b) && Spare(a, b)
    ensures a.row.Some? && b.row.Some? && b.row.value.attempt == a.row.value.attempt ==> Rank(b.row.value) <= Rank(a.row.value)
    ensures !b.crowded && Tries(a.row) <= GiveUpTries ==> Tries(b.row) <= GiveUpTries
    ensures Flags(a, b)
  {
    RankKept(a, b);
  }

  /** What a visit is worth, from before the read to after the visit. */
  lemma Visited(a: World, b: World, c: World, row: CaptchaRow, visited: bool)
    requires Legal(a, b) && Spare(a, b) && b.row == Some(row) && Legal(b, c)
    requires if visited then Progress(row, c) && Bounded(row, b, c) && !Terminal(row.state) else c == b
    ensures RowStep(a.row, Some(row)) && RowStep(Some(row), c.row)
    ensures !c.broken && visited ==> Left(row.attempt, c) < Left(row.attempt, a)
    ensures !c.broken && a.row.Some? && c.row.Some? && c.row.value.attempt == a.row.value.attempt ==>
              Rank(c.row.value) + (if visited then 1 else 0) <= Rank(a.row.value)
    ensures !c.crowded && Tries(a.row) <= GiveUpTries ==> Tries(c.row) <= GiveUpTries
  {
    LeftFalls(a, b, row.attempt);
    RankKept(a, b);
  }

  lemma RankKept(a: World, b: World)
    requires Legal(a, b)
    ensures a.row.Some? && b.row.value.attempt == a.row.value.attempt ==> Rank(b.row.value) <= Rank(a.row.value)
  {
    if a.row.Some? && b.row.value.attempt == a.row.value.attempt {
      RankFalls(a.row.value, b.row.value);
    }
  }

  /** How far an attempt is from its end, begun or not; one that was replaced is over. */
  function Left(attempt: nat, w: World): nat {
    if w.row.None? || w.row.value.attempt < attempt then GiveUpTries + 3
    else if w.row.value.attempt == attempt then Rank(w.row.value)
    else 0
  }

  /** No attempt is ever further from its end than before. */
  lemma LeftFalls(a: World, b: World, attempt: nat)
    requires Legal(a, b)
    ensures Left(attempt, b) <= Left(attempt, a)
  {
    RankKept(a, b);
  }

  /** How many of the visits were to this attempt. */
  function VisitsOf(found: seq<CaptchaRow>, attempt: nat): nat {
    if found == [] then 0
    else VisitsOf(found[..|found|-1], attempt) + if found[|found|-1].attempt == attempt then 1 else 0
  }

  /** Each visit is paid for by the attempt it found. */
  ghost predicate Paid(found: seq<CaptchaRow>, w: World) {
    forall attempt: nat :: VisitsOf(found, attempt) + Left(attempt, w) <= GiveUpTries + 3
  }

  lemma PaidOn(found: seq<CaptchaRow>, a: World, b: World)
    requires Paid(found, a) && Legal(a, b)
    ensures Paid(found, b)
  {
    forall attempt: nat
      ensures VisitsOf(found, attempt) + Left(attempt, b) <= GiveUpTries + 3
    {
      LeftFalls(a, b, attempt);
    }
  }

  lemma PaidVisit(found: seq<CaptchaRow>, row: CaptchaRow, a: World, b: World)
    requires Paid(found, a) && Legal(a, b) && Left(row.attempt, b) < Left(row.attempt, a)
    ensures Paid(found + [row], b)
  {
    var longer := found + [row];
    assert longer[..|longer|-1] == found;
    forall attempt: nat
      ensures VisitsOf(longer, attempt) + Left(attempt, b) <= GiveUpTries + 3
    {
      LeftFalls(a, b, attempt);
      assert VisitsOf(found, attempt) + Left(attempt, a) <= GiveUpTries + 3;
    }
  }

  /** Any number of passes. While the store works, every attempt of the member, begun before or
      meanwhile, replaced or not, is visited at most eight times, whatever presses, joins, admin
      changes, deliveries and other sweepers do, and after eight visits it is over. With nobody else
      counting tries no sixth one is counted. With nobody else at work at all, at most six passes
      visit the row, and six visits end it. */
  method SweepRounds(c: Challenge, rounds: nat) returns (visits: nat, ghost found: seq<CaptchaRow>)
    requires c.Valid()
    modifies c
    ensures c.Valid() && old(c.history) <= c.history
    ensures |found| == visits
    ensures !c.w.broken ==> forall attempt: nat :: VisitsOf(found, attempt) + Left(attempt, c.w) <= 8
    ensures !c.w.broken && old(c.w.row).Some? && c.w.row.Some? && c.w.row.value.attempt == old(c.w.row.value.attempt) ==>
              visits <= 8 && (visits == 8 ==> Terminal(c.w.row.value.state))
    ensures !c.w.crowded && old(Tries(c.w.row)) <= 5 ==> Tries(c.w.row) <= 5
    ensures !c.w.disturbed ==> visits <= 6
    ensures !c.w.disturbed && visits == 6 && old(c.w.row).Some? ==>
              c.w.row.Some? && Terminal(c.w.row.value.state)
  {
    hide Inv, LegalHistory, Follows, Paid, Measure, Left, Rank, Legal, RowStep;
    Unvisited(c.w);
    Stutter(c.w);
    visits, found := 0, [];
    for n := 0 to rounds
      invariant c.Valid() && old(c.history) <= c.history && Legal(old(c.w), c.w)
      invariant Flags(old(c.w), c.w) && |found| == visits && (old(c.w.row).Some? ==> c.w.row.Some?)
      invariant !c.w.broken ==> Paid(found, c.w)
      invariant !c.w.broken && old(c.w.row).Some? && c.w.row.Some? && c.w.row.value.attempt == old(c.w.row.value.attempt) ==>
                  Rank(c.w.row.value) + visits <= Rank(old(c.w.row.value))
      invariant !c.w.crowded && old(Tries(c.w.row)) <= GiveUpTries ==> Tries(c.w.row) <= GiveUpTries
      invariant !c.w.disturbed ==> Measure(c.w.row) + visits <= old(Measure(c.w.row))
    {
      ghost var before, start := c.history, c.w;
      var visited, row := Sweep(c);
      Since(c, before);
      LegalTransitive(old(c.w), start, c.w);
      Between(old(c.w), start, c.w);
      if visited {
        if !c.w.broken {
          PaidVisit(found, row.value, start, c.w);
        }
        visits, found := visits + 1, found + [row.value];
      } else if !c.w.broken {
        PaidOn(found, start, c.w);
      }
    }
    Spent(c.w, found);
  }

  lemma Between(a: World, b: World, c: World)
    requires Legal(a, b) && Legal(b, c)
    ensures a.row.Some? && c.row.Some? && c.row.value.attempt == a.row.value.attempt ==>
              b.row.Some? && b.row.value.attempt == a.row.value.attempt
    ensures a.row.Some? ==> c.row.Some?
  {
  }

  lemma Unvisited(w: World)
    ensures Paid([], w) && Measure(w.row) <= GiveUpTries + 1
    ensures w.row.Some? ==> Rank(w.row.value) <= GiveUpTries + 3
  {
  }

  /** Whatever is over has no visits left, and the other way round. */
  lemma Spent(w: World, found: seq<CaptchaRow>)
    ensures Paid(found, w) ==> forall attempt: nat :: VisitsOf(found, attempt) + Left(attempt, w) <= GiveUpTries + 3
    ensures w.row.Some? && Rank(w.row.value) == 0 ==> Terminal(w.row.value.state)
    ensures w.row.Some? && Measure(w.row) == 0 ==> Terminal(w.row.value.state)
  {
  }

  // Joining.

  /** OnJoin past its gates: the challenge begins and its delivery is tracked. */
  method OnJoin(c: Challenge, timeout: int, mode: Mode) returns (begun: Option<CaptchaRow>)
    requires c.Valid()
    modifies c
    ensures c.Valid() && old(c.history) <= c.history
    ensures begun.Some? ==> c.w.row == begun && c.w.inflight
                            && begun.value.state.CNew? && begun.value.mode == mode && !Prompted(begun.value)
                            && begun.value.createdAt == c.nature(old(c.tick)).now
                            && begun.value.deadline == begun.value.createdAt + timeout
    ensures begun.Some? && old(c.w.row).Some? ==> old(c.w.row.value.attempt) < begun.value.attempt
    ensures !c.w.disturbed ==>
              && (begun.Some? <==> old(c.w.row).None? || Replaceable(old(c.w.row).value.state))
              && (begun.None? ==> c.w.row == old(c.w.row))
  {
    var now := c.Clock();
    var failed, row, started := c.BeginCaptcha(now, now + timeout, mode);
    if failed || !started {
      return None;
    }
    c.Track(true);
    return row;
  }

  /** Where the sending of a button leaves its challenged row, nobody else touching it: with an
      ephemeral button, else with one in the group, else released. The deadline runs from the moment
      the button was sent. */
  function PromptResult(r: CaptchaRow, nature: nat -> Choice, t: nat, timeout: int): CaptchaRow {
    if nature(t).callOk then
      r.(ephemeralId := nature(t).id + 1, messageId := 0, promptChatId := 0, deadline := nature(t + 1).now + timeout)
    else if nature(t + 1).callOk then
      r.(ephemeralId := 0, messageId := nature(t + 1).id + 1, promptChatId := 0, deadline := nature(t + 2).now + timeout)
    else FailResult(r.(state := Failing, failAction := Unrestrict), nature, t + 3)
  }

  /** Where a delivery leaves its own fresh row: no button without the mute. */
  function DeliverResult(r: CaptchaRow, nature: nat -> Choice, t: nat, timeout: int): CaptchaRow {
    if !nature(t).callOk then r.(state := Cancelled)
    else PromptResult(r.(state := Challenged), nature, t + 2, timeout)
  }

  /** The same for an applicant, whose button goes to the private chat. */
  function DeliverJoinResult(r: CaptchaRow, nature: nat -> Choice, t: nat, userChatId: int, timeout: int): CaptchaRow {
    if !nature(t + 1).callOk then r.(state := Cancelled)
    else r.(state := Challenged, ephemeralId := 0, messageId := nature(t + 1).id + 1, promptChatId := userChatId,
            deadline := nature(t + 2).now + timeout)
  }

  /** After a delivery nobody is left challenged without a button. */
  lemma NobodyWaitsForAButton(r: CaptchaRow, nature: nat -> Choice, t: nat, userChatId: int, timeout: int)
    requires r.state.CNew?
    ensures var b := DeliverResult(r, nature, t, timeout);
            !b.state.CNew? && (b.state.Challenged? ==> Prompted(b)) && b.attempt == r.attempt && b.createdAt == r.createdAt
    ensures var b := DeliverJoinResult(r, nature, t, userChatId, timeout);
            !b.state.CNew? && (b.state.Challenged? ==> Prompted(b)) && b.attempt == r.attempt && b.createdAt == r.createdAt
  {
  }

  /** challenge, for the row OnJoin began: mute, record, send the button, record the button. */
  method Deliver(c: Challenge, row: CaptchaRow, timeout: int)
    requires c.Valid() && Known(c.w, row) && row.state.CNew? && row.mode.ButtonMode?
    modifies c
    ensures c.Valid() && old(c.history) <= c.history
    ensures !c.w.disturbed && old(c.w.row) == Some(row) ==>
              c.w.row == Some(DeliverResult(row, c.nature, old(c.tick), timeout))
    ensures !c.w.inflight
  {
    DeliverTracked(c, row, timeout);
    c.Track(false);
  }

  method DeliverTracked(c: Challenge, row: CaptchaRow, timeout: int)
    requires c.Valid() && Known(c.w, row) && row.state.CNew? && row.mode.ButtonMode?
    modifies c
    ensures c.Valid() && old(c.history) <= c.history
    ensures !c.w.disturbed && old(c.w.row) == Some(row) ==>
              c.w.row == Some(DeliverResult(row, c.nature, old(c.tick), timeout))
  {
    hide Inv, LegalHistory, Follows, FailResult, PromptResult;
    ghost var start := c.w;
    var muted := c.Do(row.attempt, Muted);
    KnownStays(start, c.w, row);
    if !muted {
      var _, _, _ := c.TransitionCaptcha(row, row.attempt, {CNew}, Cancelled);
      return;
    }
    var _, challenged, moved := c.TransitionCaptcha(row, row.attempt, {CNew}, Challenged);
    if moved {
      Prompt(c, challenged.value, timeout);
    }
  }

  /** The button, in the group if no ephemeral one can be sent. A failure anywhere releases. */
  method Prompt(c: Challenge, row: CaptchaRow, timeout: int)
    requires c.Valid() && c.w.row == Some(row) && row.state.Challenged? && c.mine == Some(row.attempt)
    modifies c
    ensures c.Valid() && old(c.history) <= c.history
    ensures Flags(old(c.w), c.w)
    ensures !c.w.disturbed ==> c.w.row == Some(PromptResult(row, c.nature, old(c.tick), timeout))
  {
    hide Inv, LegalHistory, Follows, FailResult;
    var sent, id := c.SendPrompt();
    var ephemeral := sent;
    if !sent {
      ghost var mid := c.w;
      sent, id := c.SendPrompt();
      LegalTransitive(old(c.w), mid, c.w);
    }
    if !sent {
      ReleaseUnprompted(c, row, 0, 0);
      return;
    }
    RecordPrompt(c, row, timeout, if ephemeral then id else 0, if ephemeral then 0 else id);
  }

  method RecordPrompt(c: Challenge, row: CaptchaRow, timeout: int, ephemeralId: nat, messageId: nat)
    requires c.Valid() && (ephemeralId != 0 || messageId != 0) && c.mine == Some(row.attempt) && RowStep(Some(row), c.w.row)
    modifies c
    ensures c.Valid() && old(c.history) <= c.history
    ensures Flags(old(c.w), c.w)
    ensures !c.w.disturbed && old(c.w.row) == Some(row) && row.state.Challenged? ==>
              c.w.row == Some(row.(ephemeralId := ephemeralId, messageId := messageId, promptChatId := 0,
                                   deadline := c.nature(old(c.tick)).now + timeout))
  {
    hide Inv, LegalHistory, Follows;
    ghost var start := c.w;
    var now := c.Clock();
    var failed, saved := c.SetCaptchaPrompt(row.attempt, 0, ephemeralId, messageId, now + timeout);
    if failed {
      RowStepTransitive(Some(row), start.row, c.w.row);
      ReleaseUnprompted(c, row, ephemeralId, messageId);
      return;
    }
    if saved.value.attempt != row.attempt || !saved.value.state.Challenged? {
      DeleteIds(c, saved.value);
    }
  }

  /** The person has no button, or one nobody recorded: fail open, then drop the button. */
  method ReleaseUnprompted(c: Challenge, row: CaptchaRow, ephemeralId: nat, messageId: nat)
    requires c.Valid() && RowStep(Some(row), c.w.row)
    modifies c
    ensures c.Valid() && old(c.history) <= c.history
    ensures Flags(old(c.w), c.w)
    ensures !c.w.disturbed && old(c.w.row).Some? && old(c.w.row.value.attempt) == row.attempt && old(c.w.row.value.state).Challenged? ==>
              c.w.row == Some(FailResult(old(c.w.row.value).(state := Failing, failAction := Unrestrict), c.nature,
                                         old(c.tick) + 1 + (if ephemeralId != 0 then 1 else 0) + (if messageId != 0 then 1 else 0)))
  {
    hide Inv, LegalHistory, Follows;
    var broken, failed, moved := c.FailCaptcha(row, 0, row.attempt, Challenged, Unrestrict);
    if broken {
      return;
    }
    ghost var mid := c.w;
    DeleteIds(c, row.(ephemeralId := ephemeralId, messageId := messageId));
    if moved {
      KnownStays(mid, c.w, failed.value);
      Fail(c, failed.value);
    }
  }

  /** challengeJoin: the button goes to the applicant's private chat, before any membership. */
  method DeliverJoin(c: Challenge, row: CaptchaRow, userChatId: int, timeout: int)
    requires c.Valid() && Known(c.w, row) && row.state.CNew? && row.mode.JoinRequestMode?
    modifies c
    ensures c.Valid() && old(c.history) <= c.history
    ensures !c.w.disturbed && old(c.w.row) == Some(row) ==>
              c.w.row == Some(DeliverJoinResult(row, c.nature, old(c.tick), userChatId, timeout))
    ensures !c.w.inflight
  {
    hide Inv, LegalHistory, Follows;
    var _, challenged, moved := c.TransitionCaptcha(row, row.attempt, {CNew}, Challenged);
    if moved {
      PromptJoin(c, challenged.value, userChatId, timeout);
    }
    c.Track(false);
  }

  method PromptJoin(c: Challenge, row: CaptchaRow, userChatId: int, timeout: int)
    requires c.Valid() && c.w.row == Some(row) && row.state.Challenged? && c.mine == Some(row.attempt)
    modifies c
    ensures c.Valid() && old(c.history) <= c.history
    ensures Flags(old(c.w), c.w)
    ensures !c.w.disturbed ==>
              c.w.row == Some(if !c.nature(old(c.tick)).callOk then row.(state := Cancelled)
                              else row.(ephemeralId := 0, messageId := c.nature(old(c.tick)).id + 1, promptChatId := userChatId,
                                        deadline := c.nature(old(c.tick) + 1).now + timeout))
  {
    hide Inv, LegalHistory, Follows, SameAttempt;
    var sent, id := c.SendPrompt();
    if !sent {
      var _, _, _ := c.TransitionCaptcha(row, row.attempt, {Challenged}, Cancelled);
      return;
    }
    ghost var before := c.w;
    var now := c.Clock();
    var failed, saved := c.SetCaptchaPrompt(row.attempt, userChatId, 0, id, now + timeout);
    if failed {
      LegalTransitive(old(c.w), before, c.w);
      var _, _, _ := c.TransitionCaptcha(row, row.attempt, {Challenged}, Cancelled);
      var _ := c.Call();
    } else if saved.value.attempt != row.attempt || !saved.value.state.Challenged? {
      var _ := c.Call();
    }
  }

  /** OnMemberChange: an admin acted on the member, so the challenge is off. */
  method OnMemberChange(c: Challenge, byAdmin: bool) returns (cancelled: bool)
    requires c.Valid()
    modifies c
    ensures c.Valid() && old(c.history) <= c.history
    ensures !byAdmin ==> !cancelled
    ensures !c.w.disturbed ==>
              && (cancelled <==> byAdmin && old(c.w.row).Some?
                                 && (old(c.w.row).value.state.CNew? || old(c.w.row).value.state.Challenged?))
              && c.w.row == if cancelled then Some(old(c.w.row).value.(state := Cancelled)) else old(c.w.row)
  {
    var failed, row := c.GetCaptcha();
    if failed || row.None? || !(row.value.state.CNew? || row.value.state.Challenged?) || !byAdmin {
      return false;
    }
    var _, updated, moved := c.TransitionCaptcha(row.value, row.value.attempt, {CNew, Challenged}, Cancelled);
    if moved {
      DeleteIds(c, updated.value);
    }
    return moved;
  }

  // Pressing.

  datatype PressOutcome = PressFailed | PressExpired | PressWrongUser | PressSanctioned | PressPassed

  /** When the challenge of an attempt began, its row being there or on record. */
  function StartOf(attempt: nat, w: World): Option<int> {
    if w.row.None? then None
    else if w.row.value.attempt == attempt then Some(w.row.value.createdAt)
    else if attempt in w.ended then Some(w.ended[attempt].createdAt)
    else None
  }

  /** What the presser is told is so: passed only with a recorded pass, handed to the moderators
      only with a sanction seen that came after the challenge began. */
  predicate Honest(out: PressOutcome, attempt: nat, w: World) {
    && (out.PressPassed? ==> w.row.Some? && w.row.value.state.Passed? && w.row.value.attempt >= attempt
                             && ((attempt, Unmuted) in w.done || (attempt, Approved) in w.done))
    && (out.PressSanctioned? ==> StartOf(attempt, w).Some? && HasSeen(w.log, attempt, StartOf(attempt, w).value))
  }

  /** Nobody else touching the row, what the presser is told and where the row is left: expired unless
      the button is that of a challenged attempt whose deadline is still ahead; then sanctioned if a
      read sees one, before the press is recorded or after it; passed if the lift is answered with
      success; and failed only where it is not. */
  function PressResult(row: Option<CaptchaRow>, attempt: nat, nature: nat -> Choice, t: nat): (r: (PressOutcome, Option<CaptchaRow>))
    ensures r.0.PressExpired? <==>
              row.None? || row.value.attempt != attempt || !row.value.state.Challenged? || row.value.deadline <= nature(t).now
    ensures r.0.PressExpired? ==> r.1 == row
    ensures r.0.PressPassed? ==> r.1.Some? && r.1.value.state.Passed?
    ensures r.0.PressSanctioned? ==> r.1.Some? && r.1.value.state.Cancelled?
    ensures r.0.PressFailed? ==> r.1.Some? && r.1.value.state.Passing?
    ensures !r.0.PressWrongUser?
  {
    if row.None? || row.value.attempt != attempt || !row.value.state.Challenged? || row.value.deadline <= nature(t).now then
      (PressExpired, row)
    else
      var r := row.value;
      if r.mode.JoinRequestMode? then LiftResult(r.(state := Passing, deadline := nature(t + 1).now), nature, t + 2)
      else if Sanctioned(nature(t + 1).incidents, r.createdAt) then (PressSanctioned, Some(r.(state := Cancelled)))
      else LiftResult(r.(state := Passing, deadline := nature(t + 2).now), nature, t + 3)
  }

  /** The same from the moment the press is recorded as passing. */
  function LiftResult(r: CaptchaRow, nature: nat -> Choice, t: nat): (PressOutcome, Option<CaptchaRow>) {
    if r.mode.ButtonMode? && Sanctioned(nature(t).incidents, r.createdAt) then (PressSanctioned, Some(r.(state := Cancelled)))
    else if nature(if r.mode.ButtonMode? then t + 1 else t).callOk then (PressPassed, Some(r.(state := Passed)))
    else (PressFailed, Some(r))
  }

  /** decidePress, for a button whose data parsed to this member and `attempt`. */
  method DecidePress(c: Challenge, attempt: nat, ownButton: bool) returns (out: PressOutcome)
    requires c.Valid()
    modifies c
    ensures c.Valid() && old(c.history) <= c.history
    ensures Honest(out, attempt, c.w)
    ensures !ownButton <==> out.PressWrongUser?
    ensures !ownButton ==> c.w == old(c.w)
    ensures !c.w.disturbed && ownButton ==> (out, c.w.row) == PressResult(old(c.w.row), attempt, c.nature, old(c.tick))
  {
    hide Inv, LegalHistory, Follows, Sanctioned, LiftResult;
    if !ownButton {
      return PressWrongUser;
    }
    var now := c.Clock();
    var failed, row := c.GetCaptcha();
    if failed {
      return PressFailed;
    }
    if row.None? || row.value.attempt != attempt || !row.value.state.Challenged? || row.value.deadline <= now {
      return PressExpired;
    }
    ghost var read := c.history;
    if row.value.mode.ButtonMode? {
      var done, early := CheckSanction(c, row.value, Challenged);
      if done {
        return early;
      }
    }
    Since(c, read);
    out := Press(c, row.value);
  }

  /** The press is recorded as passing, then lifted. */
  method Press(c: Challenge, row: CaptchaRow) returns (out: PressOutcome)
    requires c.Valid() && RowStep(Some(row), c.w.row)
    modifies c
    ensures c.Valid() && old(c.history) <= c.history
    ensures Honest(out, row.attempt, c.w) && !out.PressWrongUser?
    ensures Flags(old(c.w), c.w)
    ensures !c.w.disturbed && old(c.w.row) == Some(row) && row.state.Challenged? ==>
              (out, c.w.row) == LiftResult(row.(state := Passing, deadline := c.nature(old(c.tick)).now), c.nature, old(c.tick) + 1)
  {
    hide Inv, LegalHistory, Follows;
    ghost var start := c.w;
    var now := c.Clock();
    var failed, moved := c.MarkCaptchaPassing(row.attempt, now);
    RowStepTransitive(Some(row), start.row, c.w.row);
    if failed {
      return PressFailed;
    }
    if !moved {
      return PressExpired;
    }
    out := LiftPressed(c, row);
  }

  /** A sanction since the challenge began cancels it; moderators decide. */
  method CheckSanction(c: Challenge, row: CaptchaRow, from: CState) returns (done: bool, out: PressOutcome)
    requires c.Valid() && (from.Challenged? || from.Passing?) && RowStep(Some(row), c.w.row)
    modifies c
    ensures c.Valid() && Legal(old(c.w), c.w) && old(c.history) <= c.history
    ensures !done && old(HasEntered(c.w.log, row.attempt, row.createdAt)) ==> Cleared(c.w.log, row.attempt)
    ensures Honest(out, row.attempt, c.w) && !out.PressPassed? && !out.PressWrongUser?
    ensures done && out.PressExpired? ==> HasSeen(c.w.log, row.attempt, row.createdAt)
    ensures !done && !c.w.disturbed ==> c.w.row == old(c.w.row)
    ensures !done ==> c.tick == old(c.tick) + 1
    ensures !c.w.disturbed && old(c.Guard(row.attempt, {from})) ==>
              if Sanctioned(c.nature(old(c.tick)).incidents, row.createdAt)
              then done && out.PressSanctioned? && c.w.row == Some(old(c.w.row.value).(state := Cancelled))
              else !done
  {
    hide Inv, LegalHistory, Follows, Sanctioned;
    ghost var start := c.w;
    var failed, sanctioned := c.SanctionSince(row.attempt, row.createdAt);
    if failed {
      return true, PressFailed;
    }
    if !sanctioned {
      return false, PressExpired;
    }
    RowStepTransitive(Some(row), start.row, c.w.row);
    ghost var seen := c.w;
    out := CancelSanctioned(c, row, from);
    LegalTransitive(start, seen, c.w);
    done := true;
  }

  method CancelSanctioned(c: Challenge, row: CaptchaRow, from: CState) returns (out: PressOutcome)
    requires c.Valid() && (from.Challenged? || from.Passing?) && RowStep(Some(row), c.w.row)
    requires HasSeen(c.w.log, row.attempt, row.createdAt)
    modifies c
    ensures c.Valid() && Legal(old(c.w), c.w) && old(c.history) <= c.history
    ensures Honest(out, row.attempt, c.w) && (out.PressFailed? || out.PressExpired? || out.PressSanctioned?)
    ensures HasSeen(c.w.log, row.attempt, row.createdAt)
    ensures !c.w.disturbed && old(c.Guard(row.attempt, {from})) ==>
              out.PressSanctioned? && c.w.row == Some(old(c.w.row.value).(state := Cancelled))
  {
    hide Inv, LegalHistory;
    ghost var start := c.w;
    var broken, updated, moved := c.TransitionCaptcha(row, row.attempt, {from}, Cancelled);
    SeenStays(start.log, c.w.log, row.attempt, row.createdAt);
    if !moved {
      return if broken then PressFailed else PressExpired;
    }
    ghost var mid := c.w;
    DeleteIds(c, updated.value);
    LegalTransitive(start, mid, c.w);
    SeenStays(start.log, c.w.log, row.attempt, row.createdAt);
    RowStepTransitive(Some(row), start.row, mid.row);
    StartStays(row, mid, c.w);
    return PressSanctioned;
  }

  /** When a challenge began stays on record. */
  lemma StartStays(row: CaptchaRow, a: World, b: World)
    requires RowStep(Some(row), a.row) && a.row.value.attempt == row.attempt && Legal(a, b)
    ensures StartOf(row.attempt, b) == Some(row.createdAt)
  {
  }

  /** The press is recorded as passing: look again, lift, and only then record the pass. */
  method LiftPressed(c: Challenge, row: CaptchaRow) returns (out: PressOutcome)
    requires c.Valid() && RowStep(Some(row), c.w.row) && HasEntered(c.w.log, row.attempt, row.createdAt)
    modifies c
    ensures c.Valid() && old(c.history) <= c.history
    ensures Honest(out, row.attempt, c.w) && !out.PressWrongUser?
    ensures out.PressExpired? && c.w.row.Some? && c.w.row.value.state.Passed? ==> HasSeen(c.w.log, row.attempt, row.createdAt)
    ensures Flags(old(c.w), c.w)
    ensures !c.w.disturbed && old(c.Guard(row.attempt, {Passing})) ==>
              (out, c.w.row) == LiftResult(old(c.w.row.value), c.nature, old(c.tick))
  {
    hide Inv, LegalHistory, Follows, Sanctioned;
    ghost var start := c.w;
    var lifted;
    if row.mode.JoinRequestMode? {
      lifted := c.Do(row.attempt, Approved);
    } else {
      var done, early := CheckSanction(c, row, Passing);
      if done {
        return early;
      }
      ghost var read := c.w;
      lifted := c.UnrestrictMember(row.attempt);
      LegalTransitive(start, read, c.w);
    }
    if !lifted {
      return PressFailed;
    }
    RowStepTransitive(Some(row), start.row, c.w.row);
    out := RecordPass(c, row);
  }

  /** The sweep may have lifted the same row meanwhile; the presser is told so. */
  method RecordPass(c: Challenge, row: CaptchaRow) returns (out: PressOutcome)
    requires c.Valid() && RowStep(Some(row), c.w.row) && (row.attempt, LiftOf(row.mode)) in c.w.done
    modifies c
    ensures c.Valid() && old(c.history) <= c.history
    ensures Honest(out, row.attempt, c.w) && !out.PressWrongUser? && !out.PressSanctioned?
    ensures out.PressExpired? ==> c.w.row.None? || !c.w.row.value.state.Passed?
    ensures Flags(old(c.w), c.w)
    ensures !c.w.disturbed && old(c.Guard(row.attempt, {Passing})) ==>
              out.PressPassed? && c.w.row == Some(old(c.w.row.value).(state := Passed))
  {
    hide Inv, LegalHistory, Follows;
    var failed, passed, moved := c.TransitionCaptcha(row, row.attempt, {Passing}, Passed);
    if failed {
      return PressFailed;
    }
    if !moved {
      var unread, again := c.GetCaptcha();
      if unread {
        return PressFailed;
      }
      return if again.Some? && again.value.state.Passed? then PressPassed else PressExpired;
    }
    DeleteIds(c, passed.value);
    return PressPassed;
  }
}
