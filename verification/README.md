# Verified models of the anti-spam bot's protocols

The bot moderates Telegram chats. Two protocols share its database: the *incident* protocol, which
turns a flagged message into a card in the admin chat, a sanction and an undoable record of it, and
the *captcha* protocol, which mutes a newcomer until a button is pressed. Both talk to Telegram, whose
calls can fail, be refused, or be lost after they took effect. Around them stand several smaller
algorithms with a state of their own. This project models the protocols and the algorithms in Dafny and
proves what their comments promise.

## How the models are built

* **Incident** (`IncidentRow`, `IncidentStore`, `IncidentMachine`, `AdminCallbacks`, `IncidentRuns`). One row
  and the Telegram side it governs, as a class whose methods are the SQL transactions and the port calls.
  Every one of them is an atomic step. An arbitrary script decides at each step whether the process dies
  first, what a `decide` command does to the row in between, how a Telegram call ends (landed, refused,
  lost but applied, lost and not applied) and whether a write whose result the code checks fails. A ghost
  history keeps every intermediate state, a ghost log the order of effects. What a job must achieve is stated
  over the same script: if nothing goes wrong in the steps it used, a report or a press has exactly the given
  outcome, so that no step may give up without a reason. `live` says that a sanction
  landed or may have landed and was not lifted, `ever` that one once did; `hold` is what Telegram really did
  to the sender.
  The jobs of a chat run one after another (`Sequencer.NeverTogether`), and a press comes after the job
  that inserted its incident (`Routing.Router.NoEarlyClaim`); `IncidentRuns` takes them in any order and number.
* **Captcha** (`CaptchaStore`, `CaptchaWatch`, `CaptchaLaws`). One row per chat and member, with any number of
  concurrent activities. Between any two steps of an activity the others may do whatever `Legal` allows, and
  every step of every activity is proved to be `Legal`: so the laws hold in every interleaving of joins,
  presses, admin changes, sweeps and slow deliveries. `disturbed` says that the others did interfere or the
  store failed, `broken` that the store failed, `crowded` that somebody else counted a try; a contract
  about an activity that runs alone starts with `!disturbed`, and then says exactly where the row is left and
  what the presser is told, as a function of the clock, the incidents and the answers of the calls. The
  activity that moves an attempt to challenged is the only one that records its button (`mine`): the move is
  a compare-and-set, and the code writes the prompt once after it.
* **Smaller cores.** The admin cache, the sequencers with the callback router, the welcome window and the CAS
  breaker are classes whose methods are single critical sections, to be called in any order. The corpus
  counters, the message history, the edit distance and the link counter are methods proved against
  specification functions with laws of their own.

Main results: `IncidentRuns.RunFromStart` with the laws after it, `AdminCallbacks.Dispatch`,
`IncidentMachine.Handle` with `IncidentMachine.Process`, `CaptchaLaws.UnmuteFoundNoSanction` (the two
protocols together), `CaptchaLaws.NoPunishmentBeforeTheDeadline`, `CaptchaWatch.DecidePress`, `CaptchaWatch.SweepRounds`,
`Routing.Router.NoEarlyClaim`, `AdminCache.ChatCache.Await`, `Corpus.Store.Train`, `Levenshtein.LevenshteinWithin`,
`LinkSpans.CountLinkOccurrences` with `LinkSpans.OneLink`, `Welcome.WindowHolds`, `CasBreaker.PauseHolds`.

## Where the code does less than its comments say

`SanctionSince` is meant to see every mute or ban the bot has in force. It misses one in exactly two cases,
which the ghost flag `dropped` marks, and each has an exact condition:

* A job dies right after a sanction landed, so its row still reads `pending` or `evidenced`, and a
  moderator's retry of that incident is refused by Telegram: the refusal records `not_acted` over a mute
  that is in force. `IncidentRuns.RefusedRetry` says that a claimable, protected row stays protected by a
  refused retry if and only if it is not such a leftover; `IncidentRuns.CrashThenRefusal` drives the
  transactions and calls with a script that shows the loss.
* The enforce button, with `delete_only` configured, is pressed on an observed incident whose earlier
  sanction had an unknown outcome: the record of that sanction is overwritten.
  `IncidentRuns.EnforcedOverUnknown` says that it survives if and only if the configured action sanctions;
  `IncidentRuns.LostThenDeleteOnly` drives a script, without any death, that shows the loss.

`IncidentRuns.RunFromStart` proves that there is no third way. A run that could lose a record but did not is
covered by every law: the laws exempt a state by its own `dropped` flag and by nothing else.

A lift or false-positive press is meant to undo what the incident did. On the leftover of a dead job it is
recorded as a settled decision and lifts nothing, because such a row does not read as sanctioned;
`AdminCallbacks.Dispatch` says so for exactly those rows, and that the press works on all others.

## Model

| member | source | states |
|---|---|---|
| IncidentRow.OverrideFinished | internal/store/incidents.go:215-240 | a sanction that took effect makes the row live, applied and unclaimable with the override's action, one that did not leaves all but the claim as it was; a sanction alone never reads as a deletion; no other decision is given back |
| IncidentRow.TakeoverAccepts | internal/store/incidents.go:150-172 | an undecided row is taken over if and only if no live sanction or deletion of it was applied: pending, evidenced, evidence_failed, not_acted and sanction_unknown always are |
| IncidentStore.Decide | cmd/tg-antispam/decide.go:115-167 | a `decide` step takes the claim only from a free column, gives back only its own, and never touches a button's, a settled or an orphaned one |
| IncidentStore.ArriveSteps | cmd/tg-antispam/decide.go:115-167 | neither a `decide` step nor the end of the process makes a safe row unsafe |
| IncidentStore.Issued | internal/telegram/port.go:111-117 | only a refusal proves that nothing happened; every other answer may hide a sanction, and a landed or lost one is what is now in force |
| IncidentStore.Incident.InsertPending | internal/store/incidents.go:19-52 | a fresh row is pending with the verdict's action; a message that has one keeps it untouched |
| IncidentStore.Incident.SetIncidentState | internal/store/incidents.go:54-59 | only the state changes, and every state passed through is in the history |
| IncidentStore.Incident.MarkSanctionUnknown | internal/store/incidents.go:65-73 | the row becomes sanction_unknown and the audit action the attempted one |
| IncidentStore.Incident.MarkSanctionRefused | internal/store/incidents.go:78-84 | not_acted, unless the row is sanction_unknown; it forgets a live sanction exactly when that exception does not apply |
| IncidentStore.Incident.MarkIncidentEnforced | internal/store/undo.go:178-186 | the row is live with the applied action; it forgets a live sanction exactly when that action sanctions nobody |
| IncidentStore.Incident.SaveIncidentCard | internal/store/cards.go:12-18 | the card becomes the current one, and the only one, exactly if the write succeeds |
| IncidentStore.Incident.AddEvidence | internal/store/incidents.go:92-104 | evidence counts as saved only if the write succeeds |
| IncidentStore.Incident.RecordDecision | internal/store/undo.go:110-130 | a claim is granted only on a free column and otherwise names the decision that stands |
| IncidentStore.Incident.ReleaseDecision | internal/store/undo.go:89-97 | the holder frees its own claim, and nothing else of the row changes |
| IncidentStore.Incident.ClaimManualOverride | internal/store/incidents.go:150-200 | granted exactly on a free column of an eligible row, in one step with the check |
| IncidentStore.Incident.FinishManualOverride | internal/store/incidents.go:215-240 | the sanction is recorded and the claim given back in one step, or neither |
| IncidentStore.Incident.SanctionCall | internal/telegram/port.go:111-117 | success means the sanction is in force, refusal that nothing changed, and after a lost answer either |
| IncidentStore.Incident.LiftCall | internal/admin/callbacks.go:479-537 | a lift that succeeded leaves what the lifting call clears; a failed one never adds a sanction |
| IncidentStore.Incident.NextJob | internal/store/incidents.go:150-200 | a claim whose process died belongs to nobody who could give it back |
| IncidentMachine.HoldFor | internal/incident/machine.go:670-694 | a channel sender gets the channel ban, a member the ban for ban and the mute for the other two actions |
| IncidentMachine.SignalsDecide | internal/incident/machine.go:351-375 | only blocklist, manual_spam and manual_ban act without evidence, and only the last two are a moderator's order |
| IncidentMachine.ApplyAction | internal/incident/machine.go:670-694 | at most one sanction call, none for the other actions, and how the answer bounds what is now in force |
| IncidentMachine.RecordOutcome | internal/incident/machine.go:515-564 | success, refusal and a lost answer are recorded as acted, not_acted and sanction_unknown, and at every step in between SanctionSince still sees the row |
| IncidentMachine.Sanction | internal/incident/machine.go:515-564 | the first half of Enforce: the call, then the record; the account of the sender matches the row in a process that lives, and if nothing goes wrong it is sanctioned; a row comes to read as sanctioned only through a call that landed or may have |
| IncidentMachine.SafeAcross | internal/incident/machine.go:515-564 | from before the call through its answer to the record of it the row is seen by SanctionSince, whatever the answer and wherever the process ends |
| IncidentMachine.RemoveOriginals | internal/incident/machine.go:515-564 | the originals are deleted whether or not the sanction landed, and cleaned is recorded only when both did |
| IncidentMachine.Enforce | internal/incident/machine.go:515-564 | exact row and account after every outcome, with the delete's own answer in the log; it loses the record of a sanction only by a refusal over a leftover row; if nothing goes wrong it sanctions and deletes; protected at every intermediate state |
| IncidentMachine.SendCard | internal/incident/machine.go:461-476 | a card that could not be registered does not count as sent |
| IncidentMachine.ReportEvidence | internal/incident/machine.go:137-318 | nothing destructive happens while evidence is reported, and the admins are sent a card in every run; if nothing but the copying goes wrong, it goes on if and only if a copy was made or the verdict acts without, and never otherwise goes on without a registered card and saved copies |
| IncidentMachine.ReportWithCopies | internal/incident/machine.go:137-318 | card, then evidence rows, then evidenced; any failure is recorded as not_acted, and without a failure it goes on |
| IncidentMachine.ReportWithoutEvidence | internal/incident/machine.go:137-318 | without copies exactly a blocklist hit or a moderator's order goes on; the card goes out all the same |
| IncidentMachine.EnforceAndClose | internal/incident/machine.go:137-318 | not failed means sanctioned, deleted and done, and it does not fail unless something went wrong; otherwise the row says how far it got |
| IncidentMachine.EndOfEnforcement | internal/incident/machine.go:515-564 | a row nothing had been done to ends applied, unknown or not_acted, exactly as the sanction call ended |
| IncidentMachine.Process | internal/incident/machine.go:137-318 | evidence first: each sanction call and source delete of the run follows a registered card and, unless the verdict carries blocklist, manual_spam or manual_ban, a copy with saved evidence rows; dry-run and review-only runs issue neither. If nothing but the copying goes wrong, it fails if and only if nothing was copied and the verdict does not act without; not failing, a live run ends done with one more sanction, the member banned for ban and muted for mute and delete_mute, a channel banned, and the originals deleted |
| IncidentMachine.ReportedFirst | internal/incident/machine.go:137-318 | what was reported before the first destructive call was reported before each of them |
| IncidentMachine.PromoteReview | internal/incident/machine.go:383-458 | a live edit promotes exactly a review, evidence first, with the outcome of a first report, and the claim comes back unless the process died; the row says what Telegram holds, or is claimed for good |
| IncidentMachine.ManualOverride | internal/incident/machine.go:383-458 | a moderator's order in which nothing goes wrong sanctions with its own action, deletes and leaves a closed, undoable, done row; what it forgets is exactly a refusal over an unrecorded live sanction; the row says what Telegram holds, or is claimed for good |
| IncidentMachine.ReplaceCard | internal/incident/machine.go:417-448 | the claim is given back only after the new card was sent or failed to be |
| IncidentMachine.ClaimedRow | internal/store/incidents.go:150-200 | a live sanction on a row that can still be claimed is recorded as unknown, unless a job died or the record was lost |
| IncidentMachine.Override | internal/incident/machine.go:383-458 | if nothing goes wrong and no `decide` command is at work, an order acts if and only if the row was claimable, an edit if and only if it was also a review; it loses a record only for a manual retry of a dead job's leftover row |
| IncidentMachine.Handle | internal/incident/machine.go:100-132 | what every report comes to. A first report in which nothing but the copying goes wrong acts, and fails only for want of a copy; a repeated one acts exactly on a claimable row; what acted and did not fail sanctioned as its action says and deleted. However far its process got, the row says what Telegram holds unless a dead takeover's claim stands or the record was dropped; at most one sanction, no claim kept; safe at every step |
| AdminCallbacks.Undo | internal/admin/callbacks.go:479-518 | a successful undo leaves nothing of this incident in force, and it succeeds if no call fails; a failed one leaves the account as it was, and so does one of a row that records no sanction, which calls nothing |
| AdminCallbacks.UndoUnknown | internal/admin/callbacks.go:526-537 | an unknown sanction is lifted as both a ban and a mute |
| AdminCallbacks.Release | internal/admin/callbacks.go:441-445 | the claim goes back and only it |
| AdminCallbacks.PressUndo | internal/admin/callbacks.go:297-341 | lift first, decide after: a failed lift gives the claim back, a successful one settles the decision even if the sample was not written; recorded if nothing goes wrong |
| AdminCallbacks.PressConfirm | internal/admin/callbacks.go:600-607 | recorded and settled exactly if the write succeeds, else the claim goes back; Telegram is not touched |
| AdminCallbacks.Enforcer | cmd/tg-antispam/main.go:611-637 | the configured action is applied and marked: the row's action, what is in force and how far the deletion got; only an action without a sanction call can forget an unknown one |
| AdminCallbacks.Conclude | internal/admin/callbacks.go:311-317 | after a lift that worked the decision stands; a false-positive sample is saved exactly if its write worked, and the presser is told when it did not |
| AdminCallbacks.EnforceNow | internal/admin/callbacks.go:354-395 | a press that took effect leaves the configured action in the row and in force, whatever else failed; `deleted` is what the delete call answered; the claim goes back after every outcome, and the row then refuses a second sanction exactly when this one took effect |
| AdminCallbacks.PressEnforce | internal/admin/callbacks.go:343-395 | each answer says what was done: not available, already enforced, or enforced with the configured action, exactly one more sanction and a closed row; if nothing goes wrong it sanctions and deletes; with an action that sanctions nobody, what was in force stays so and its row no longer protects it |
| AdminCallbacks.CheckCard | internal/admin/callbacks.go:263-295 | a claim on a retired card is given back, and only that or a failed read does so |
| AdminCallbacks.AnswerDecided | internal/admin/callbacks.go:248-262 | only a settled decision retires a card; an enforce claim does not; exact if the read succeeds |
| AdminCallbacks.ClaimPress | internal/admin/callbacks.go:243-296 | a press acts exactly on a free column from the current card, and says which decision stands, or that the card is retired, otherwise |
| AdminCallbacks.PressedRow | internal/admin/callbacks.go:263-276 | what a button may rely on once its claim is granted, also after deaths: unless the record was dropped or the row is a dead job's leftover, the row names what is in force and its undo lifts it; a leftover never reads Sanctioned |
| AdminCallbacks.Dispatch | internal/admin/callbacks.go:234-410 | in any process that survives the press and whatever died before, as long as no record was dropped: an fp or lift press on the current card either leaves nothing in force and settles, or gives the claim back and leaves the sanction as it was, or names the decision that stands; exactly on a dead job's leftover it is settled and lifts nothing. An enforce press that took effect leaves the configured action in the row and in force: banned for ban, muted for mute and delete_mute, the channel banned, unchanged for delete_only. If nothing goes wrong the answer is the expected one. A sample is saved exactly by a decision that took effect. An incident that never sanctioned is never lifted |
| IncidentRuns.Run | internal/telegram/sequencer.go:94-131 | any sequence of reports and presses, the process dying anywhere, keeps every intermediate state safe |
| IncidentRuns.RunFromStart | internal/store/captcha.go:241-272 | after any jobs and any deaths: the record of a live sanction is dropped only by a run with a /spam or /ban after a death, or with an enforce press under delete_only; while it is not dropped, a live sanction is Sanctioned, or the leftover of a dead job, or under the claim of a dead takeover, and the row says what Telegram holds; with no death and no such press, live implies Sanctioned; and the row reads Sanctioned only if a sanction landed, or may have, at some state of the run (reviews being raised as observed, as the wiring raises them) |
| IncidentRuns.ProtectedThroughout | internal/store/captcha.go:241-272 | at every state of a run up to the loss of a record, if there ever is one, a live sanction is seen by SanctionSince, also where the process died |
| IncidentRuns.EverLive | internal/store/undo.go:44-78 | what is said to have landed once was in force, or may have been, at an earlier state of the run |
| IncidentRuns.SanctionedOnce | internal/admin/callbacks.go:343-395 | unless a job died, at most one Enforce ever reported its sanction |
| IncidentRuns.UnseenHoldsNothing | internal/store/captcha.go:241-272 | wherever a run stands and no record was dropped so far, an incident SanctionSince does not see holds nothing |
| IncidentRuns.SettledForever | internal/store/undo.go:110-130 | a settled fp, lift or confirm never changes, and a claim whose process died stays |
| IncidentRuns.ReleasedInBetween | internal/store/undo.go:89-97 | a claim is held by one actor at a time: before another holder, or another decision, the one who held it gave it back, also when both write the same decision |
| IncidentRuns.OneJobHolds | internal/store/undo.go:89-97 | of two jobs that held a claim the first gave it back before the second took it |
| IncidentRuns.LiveSanctionSeen | internal/store/captcha.go:241-272 | SanctionSince(chat, user, since) is true while one of the member's incidents since then holds a sanction |
| IncidentRuns.RefusedRetry | internal/store/incidents.go:78-84 | a refused retry keeps the protection if and only if the row is not the leftover of a dead job |
| IncidentRuns.MutedThenDead | internal/incident/machine.go:137-318 | the first half of that run, from no row: insert, copy, card, evidence, a mute that lands, and the process dies |
| IncidentRuns.RetryRefused | internal/incident/machine.go:383-458 | the refused retry of that row: not_acted over a mute in force |
| IncidentRuns.CrashThenRefusal | internal/store/incidents.go:78-84 | a script of the outside under which the transactions and calls, in the machine's order from the first report on, end with a mute in force that nothing protects |
| IncidentRuns.EnforcedOverUnknown | internal/store/undo.go:178-186 | enforcing over an unknown sanction keeps its record if and only if the configured action sanctions |
| IncidentRuns.SpamLost | internal/incident/machine.go:383-458 | a /spam on an observed incident whose answer is lost though it was applied: a mute recorded as unknown |
| IncidentRuns.EnforcePressed | cmd/tg-antispam/main.go:611-637 | the enforce button with delete_only on that row: the mute stays, its record goes |
| IncidentRuns.LostThenDeleteOnly | internal/store/undo.go:178-186 | a script without any death under which the transactions and calls, in the machine's order from the first report on, end with a mute in force that nothing protects |
| CaptchaStore.Challenge.BeginCaptcha | internal/store/captcha.go:57-96 | a new attempt exactly over no row, a failed or a cancelled one, with a fresh row and the next number; under interference too, the attempt it replaces is on record as ended failed or cancelled |
| CaptchaStore.Challenge.TransitionCaptcha | internal/store/captcha.go:110-162 | compare and set on attempt and state, by any activity and over any interference; the new state is earned by what happened |
| CaptchaStore.Challenge.MarkCaptchaPassing | internal/store/captcha.go:117-120 | state and deadline in one write, only from challenged |
| CaptchaStore.Challenge.FailCaptcha | internal/store/captcha.go:122-125 | guarded by attempt and state; a punishing failure needs a recorded prompt of that attempt whose deadline had come |
| CaptchaStore.Challenge.RetryCaptcha | internal/store/captcha.go:164-181 | one try more, only on a failing or passing row of that attempt |
| CaptchaStore.Challenge.SetCaptchaPrompt | internal/store/captcha.go:183-216 | guarded by the attempt alone, written once per attempt by who moved it to challenged; the deadline moves only on a challenged row |
| CaptchaStore.Challenge.SanctionSince | internal/store/captcha.go:241-272 | the answer is that of the incidents at the read, asked since the challenge began; a read that came back false clears an attempt that had entered before, one that came back true is on record as seen |
| CaptchaStore.Challenge.UnrestrictMember | internal/watch/captcha.go:630-648 | may be called only for a cleared attempt |
| CaptchaStore.Challenge.Punish | internal/watch/captcha.go:649-665 | may be called only for an attempt that failed with this punishment and a recorded button |
| CaptchaStore.LegalTransitive | internal/store/captcha.go:127-162 | the relation between two states of a row composes, so it spans any interleaving |
| CaptchaStore.LegalThroughout | internal/store/captcha.go:127-162 | any two states of a history are related as two neighbours are |
| CaptchaStore.EarnedStays | internal/store/captcha.go:127-162 | what earned a transition is not undone by others before it is written |
| CaptchaWatch.FinishFail | internal/watch/captcha.go:673-678 | a failing row ends failed only once punished or given up, cancelled only once released, excused or given up |
| CaptchaWatch.GiveUp | internal/watch/captcha.go:680-687 | five tries end the row as its action says |
| CaptchaWatch.Retry | internal/watch/captcha.go:689-696 | exactly one try more and the deadline sixty seconds on |
| CaptchaWatch.FailRelease | internal/watch/captcha.go:630-648 | sanction read, then lift, then the record: cancelled if a sanction was seen or the lift worked, else one try the poorer |
| CaptchaWatch.FailKick | internal/watch/captcha.go:649-658 | failed exactly if the ban and the unban were both answered with success, else one try the poorer |
| CaptchaWatch.Fail | internal/watch/captcha.go:624-671 | every attempt at a failing row ends it or costs a try, exactly as its action, the incidents and the calls say, and the sixth visit ends it |
| CaptchaWatch.SweepChallenged | internal/watch/captcha.go:532-573 | who has no recorded prompt, or whose chat is out of the captcha, is released, not punished |
| CaptchaWatch.SweepPrompted | internal/watch/captcha.go:546-573 | who had a button and let its deadline pass is failed with the configured action exactly unless a sanction was seen first |
| CaptchaWatch.SweepPassing | internal/watch/captcha.go:575-622 | a press whose lift did not land is handed to the moderators, given up after five tries, lifted or retried, exactly as the read and the call say |
| CaptchaWatch.SweepJoinPassing | internal/watch/captcha_join_request.go:128-154 | the same for an applicant, by approval |
| CaptchaWatch.SweepJoinChallenged | internal/watch/captcha_join_request.go:103-126 | an applicant is declined exactly if asked and if the gate still kicks; else the request is left pending |
| CaptchaWatch.CancelJoin | internal/watch/captcha_join_request.go:88-101 | cancelled only from the state it was read in |
| CaptchaWatch.Visit | internal/watch/captcha.go:481-530 | where a visit leaves a row, by state, mode, clock, incidents and calls |
| CaptchaWatch.VisitsCount | internal/watch/captcha.go:481-530 | every visit lowers the measure of state and remaining tries, and the one after the fifth try ends the row |
| CaptchaWatch.TimeoutRecords | internal/watch/captcha.go:532-573 | a timeout records the configured action for who had a button and no sanction, unrestrict for who had none, and cancels for a sanction |
| CaptchaWatch.Sweep | internal/watch/captcha.go:481-530 | a row is visited only when its deadline has come and, untracked, whenever it has; a row not yet due is left alone, whoever interferes; a visit brings the attempt it found closer to its end, whatever the others do meanwhile, also if they replace it |
| CaptchaWatch.RankFalls | internal/watch/captcha.go:481-530 | whoever moves a row, its attempt only comes closer to its end |
| CaptchaWatch.PaidVisit | internal/watch/captcha.go:481-530 | every visit is paid for by the attempt it found, and no other attempt gets further from its end meanwhile |
| CaptchaWatch.SweepRounds | internal/watch/captcha.go:481-530 | while the store works, every attempt of the member, begun before or meanwhile, replaced or not, is visited at most eight times whatever else happens, and eight visits end it; six visits end a row nobody else touches, whatever Telegram answers; no sixth try is counted unless somebody else counts tries |
| CaptchaWatch.OnJoin | internal/watch/captcha.go:216-256 | a join begins a fresh attempt, from the clock on, exactly if none runs and none was passed, and tracks its delivery |
| CaptchaWatch.Deliver | internal/watch/captcha.go:258-318 | the mute, then the button: ephemeral, else in the group, else released; no mute, no challenge; the deadline runs from the moment the button was sent |
| CaptchaWatch.NobodyWaitsForAButton | internal/watch/captcha.go:258-318 | after a delivery nobody is left challenged without a recorded button |
| CaptchaWatch.ReleaseUnprompted | internal/watch/captcha.go:258-318 | a prompt that was not sent or not recorded fails open |
| CaptchaWatch.DeliverJoin | internal/watch/captcha_join_request.go:54-86 | the same for an applicant, in the private chat, by cancelling |
| CaptchaWatch.OnMemberChange | internal/watch/captcha.go:333-353 | an admin's change cancels exactly a new or challenged row, the bot's and the member's own do not |
| CaptchaWatch.DecidePress | internal/watch/captcha.go:386-479 | under interference the presser is told passed only with a recorded pass and a lift of this attempt, and sanctioned only with a sanction seen since its challenge began; alone, the answer and the row are exactly given: expired if and only if there is no challenged row of that attempt with its deadline ahead, sanctioned if a read sees one, passed if the lift worked, failed only if it did not |
| CaptchaWatch.CheckSanction | internal/watch/captcha.go:404-445 | clears the attempt or ends the press |
| CaptchaWatch.LiftPressed | internal/watch/captcha.go:429-479 | the second look happens after passing was recorded and before the lift; a press whose pass somebody else recorded first is told expired only if it saw a sanction |
| CaptchaLaws.NeverBack | internal/store/captcha.go:57-162 | attempts never decrease, states only move forward within one, passed is final |
| CaptchaLaws.ReplacedHadEnded | internal/store/captcha.go:57-96 | an attempt another one replaced had ended failed or cancelled, moving only forward from wherever it was seen, and how it ended never changes |
| CaptchaLaws.RecordsAreEarned | internal/watch/captcha.go:532-678 | passed rests on a successful lift of that attempt, failed on the punishment carried out or given up, and every punished row has a recorded prompt |
| CaptchaLaws.PunishedHadAButton | internal/watch/captcha.go:532-573 | every ban of a kick and every decline follows a recorded failure of that attempt with a recorded button, past its deadline |
| CaptchaLaws.NoPunishmentBeforeTheDeadline | internal/store/captcha.go:218-237 | in every interleaving, who was seen challenged with a button is failed with a punishment only at a time that very deadline had come |
| CaptchaLaws.SanctionedMeans | internal/store/captcha.go:241-272 | a read answers yes exactly for an incident since then that is claimed as enforcing, is sanction_unknown, or is live with a ban, mute or delete_mute and pending, evidenced, acted, cleaned or done |
| CaptchaLaws.OlderNeverCounts | internal/store/captcha.go:241-272 | an incident created before `since` never changes the answer |
| CaptchaLaws.SeenWasThere | internal/store/captcha.go:241-272 | a sanction on record as seen was an incident of that kind at the read |
| CaptchaLaws.SanctionedPressWasRight | internal/watch/captcha.go:404-445 | who is told that the moderators will review was found with such an incident, created since the challenge of the pressed button |
| CaptchaLaws.NoReleaseForgotten | internal/watch/captcha.go:575-648 | a recorded press or release ends cancelled only after a sanction was seen, the lift worked or five tries failed; and an attempt with one is replaced by another only once it has ended so |
| CaptchaLaws.OldAttemptsWriteNothing | internal/store/captcha.go:127-162 | a write carrying an old attempt finds nothing to change, now or later |
| CaptchaLaws.UnmuteFoundNoSanction | internal/watch/captcha.go:421-454 | before each unmute and after its attempt entered passing or failing/unrestrict there was a read at which every incident since the challenge began, wherever any of its runs stood, held nothing; `dropped` at that read is the only exemption |
| AdminCache.ChatCache.Invalidate | internal/telegram/admincache.go:133-138 | the list goes, and no earlier fetch can bring it back |
| AdminCache.ChatCache.Lookup | internal/telegram/admincache.go:147-175 | a hit, a failure within its backoff, a seat in the running fetch, or the lead of a new one; answers owe what `Owed` says |
| AdminCache.ChatCache.Start | internal/telegram/admincache.go:164-175 | fetches never overlap, and after one that was answered or failed with no invalidation since its start the next waits one TTL |
| AdminCache.ChatCache.Commit | internal/telegram/admincache.go:199-268 | exact: this very reply without an error if it identifies somebody and no invalidation came since the fetch started, else the error it earned, with the earlier list only if that still stands |
| AdminCache.ChatCache.CommitFailure | internal/telegram/admincache.go:225-246 | the list returned with the error is exactly the leader's, if younger than two TTLs and not invalidated, else none |
| AdminCache.ChatCache.Wait | internal/telegram/admincache.go:164-170 | a waiter is on record with the invalidations it saw |
| AdminCache.ChatCache.End | internal/telegram/admincache.go:199-218 | the decision is published together with the commit, and owes its list's age and generation |
| AdminCache.EndAnswers | internal/telegram/admincache.go:199-218 | a fetch that ends changes nothing of what earlier answers owed |
| AdminCache.StartOk | internal/telegram/admincache.go:164-175 | a new fetch keeps the rule of one at a time and of one TTL after a failure |
| AdminCache.ChatCache.Await | internal/telegram/admincache.go:164-170 | waiters get exactly what the leader decided, a list without an error from a fetch started after every invalidation before they joined, one with an error younger than two TTLs and not invalidated by the decision |
| AdminCache.ChatCache.Abort | internal/telegram/admincache.go:177-197 | an abandoned fetch gives an error, never an empty list without one |
| Sequencer.Chats.Enter | internal/telegram/sequencer.go:54-66 | refused once closed; a channel and its one worker only if the chat has none; other chats are untouched |
| Sequencer.Chats.Send | internal/telegram/sequencer.go:68-86 | never blocks: accepted at the end of the channel, or counted as dropped unless closing |
| Sequencer.Chats.Receive | internal/telegram/sequencer.go:94-112 | any worker at its select may receive from its chat's channel; the invariant, one worker each and every job in one place, is kept |
| Sequencer.Chats.Finish | internal/telegram/sequencer.go:123-131 | a panic ends its own job only |
| Sequencer.Chats.Leave | internal/telegram/sequencer.go:94-112 | the worker leaves only after draining |
| Sequencer.Chats.Close | internal/telegram/sequencer.go:140-148 | closing changes no channel and happens once |
| Sequencer.EnteredOk | internal/telegram/sequencer.go:54-66 | spawning a worker only for a missing channel leaves every chat with exactly one |
| Sequencer.ReceivedOk | internal/telegram/sequencer.go:94-112 | a receiving worker finds no other of its chat in a job, because there is none |
| Sequencer.DrainedRanEverything | internal/telegram/sequencer.go:54-148 | every job accepted before Wait closed the door has run exactly once, in acceptance order |
| Sequencer.RunningIsNext | internal/telegram/sequencer.go:94-112 | when a job runs, exactly the jobs accepted before it are over |
| Sequencer.NeverTogether | internal/telegram/sequencer.go:54-112 | whichever workers run them, two jobs of one chat never run at once |
| Routing.Router.SendPress | cmd/tg-antispam/admin_routing.go:37-65 | a press is queued for routing unless the queue is full or closing |
| Routing.Router.LookUp | cmd/tg-antispam/admin_routing.go:45-55 | an incident is found if and only if some job inserted its row; the chat found is that job's and the only one in which a press on this incident ever stands, and whoever claimed it had found it |
| Routing.Router.HandOver | cmd/tg-antispam/admin_routing.go:56-60 | the press goes to the chat its incident's row names, or the presser is answered |
| Routing.Belongs | cmd/tg-antispam/admin_routing.go:45-55 | the table, the chats' orders and the log agree on where an incident belongs |
| Routing.Router.AnswerHere | cmd/tg-antispam/admin_routing.go:39-55 | a press that names no incident is handled at once, one whose row is not found is answered |
| Routing.Router.FinishPress | cmd/tg-antispam/admin_routing.go:37-65 | every routed press has exactly one fate, in routing order |
| Routing.Router.Insert | internal/store/incidents.go:19-52 | a row is inserted by a running job of its own chat |
| Routing.Router.Claim | internal/telegram/bot.go:196-212 | when a routed press runs, its incident exists, belongs to this chat, and the job that inserted it is over |
| Routing.SendOk | cmd/tg-antispam/admin_routing.go:56-60 | a press accepted by a chat stands after the job that inserted its incident |
| Routing.InsertOk | internal/store/incidents.go:19-52 | an insert is rooted in a job that has started and not ended |
| Routing.ClaimOk | cmd/tg-antispam/admin_routing.go:14-27 | a claim by a running press keeps the order of the log |
| Routing.Router.NoEarlyClaim | cmd/tg-antispam/admin_routing.go:14-27 | in every interleaving, no press claims an incident between its insert and the end of the job that first processes it |
| Routing.Router.CloseSource | cmd/tg-antispam/admin_routing.go:14-27 | the source closes only after routing has drained |
| Routing.Router.NoPressLost | cmd/tg-antispam/admin_routing.go:14-27 | after an orderly shutdown every accepted press has a fate, and the queued ones have run |
| Corpus.Store.Bump | internal/store/bayes.go:13-35 | one more per occurrence and one document more, under this scope and label only |
| Corpus.Store.Drop | internal/store/bayes.go:140-159 | the inverse, stopping at zero |
| Corpus.Store.RecordSample | internal/store/samples.go:38-59 | row and counts together or not at all; counters stay those of training from scratch |
| Corpus.Store.Forget | internal/store/samples.go:81-119 | the old row and its counts go, and the floor at zero is never reached early |
| Corpus.Store.RelabelSample | internal/store/samples.go:81-119 | a correction replaces the earlier judgement; counters stay those of training from scratch |
| Corpus.Store.TokenCounts | internal/store/bayes.go:50-81 | the counts a classifier reads are those of the current samples |
| Corpus.Store.BayesTotals | internal/store/bayes.go:103-129 | and so are the totals |
| Corpus.Store.Train | internal/train/import.go:37-111 | after any sequence of imports and corrections every counter equals training from scratch on the samples table |
| Corpus.LastLabelWins | cmd/tg-antispam/admin_routing.go:71-80 | a key only feedback labels sits under exactly one label, the last given |
| Corpus.ThereAndBack | internal/store/samples.go:81-119 | spam to ham to spam restores the samples table |
| Corpus.SameSamplesSameCounts | internal/store/bayes.go:13-35 | equal tables have equal counters, whatever history led there |
| Levenshtein.LevenshteinWithin | internal/detect/levenshtein.go:6-69 | true exactly when the edit distance is at most max, for all inputs and any max |
| Levenshtein.TwoRows | internal/detect/levenshtein.go:28-69 | two rows and the early exit compute the same |
| Levenshtein.FillRow | internal/detect/levenshtein.go:40-57 | one row of the table from the row before, and its minimum |
| Levenshtein.RowMinimum | internal/detect/levenshtein.go:59-62 | every row holds a value no greater than any later distance, which justifies the early exit |
| Levenshtein.Symmetric | internal/detect/levenshtein.go:19-22 | the swap of the two strings changes nothing |
| Levenshtein.AtLeastLengthDifference | internal/detect/levenshtein.go:10-17 | the length check is sound |
| Levenshtein.NoCheaperEdits | internal/detect/levenshtein.go:6-69 | no sequence of edits between the two strings is cheaper than the distance |
| Levenshtein.CheapestEdits | internal/detect/levenshtein.go:6-69 | and one costs exactly that |
| LinkSpans.Boundaries | internal/detect/normalize_message.go:128-138 | the table gives the byte of every UTF-16 unit, and -1 inside a surrogate pair |
| LinkSpans.LookUp | internal/detect/normalize_message.go:139-151 | the table accepts exactly the spans whose ends are boundaries |
| LinkSpans.EntitySpan | internal/detect/normalize_message.go:320-354 | accepts exactly the same spans with the same bytes, also when the sum of offset and length wraps around |
| LinkSpans.CoveredIsNonEmpty | internal/detect/normalize_message.go:320-354 | an accepted span is a non-empty range within the text |
| LinkSpans.Collect | internal/detect/normalize_message.go:124-153 | the regex matches and the spans of the link entities, no others |
| LinkSpans.Sweep | internal/detect/normalize_message.go:154-164 | counts the starts not strictly inside another span, whatever the sort does with ties |
| LinkSpans.OneLink | internal/detect/normalize_message.go:121-124 | two spans share such a start if and only if a chain of overlapping spans joins them, so the count is the number of groups of overlapping spans |
| LinkSpans.HeadOfItself | internal/detect/normalize_message.go:121-124 | every such start is the start of a group |
| LinkSpans.CountLinkOccurrences | internal/detect/normalize_message.go:124-165 | the whole count, from text, entities and regex matches |
| MemHistory.Prune | internal/detect/memhistory.go:124-166 | keeps exactly the events inside the window, in order |
| MemHistory.PrunedTwice | internal/detect/memhistory.go:124-171 | pruning earlier by a window at least as wide changes no later pruning |
| MemHistory.History.RecordAndCountDup | internal/detect/memhistory.go:56-79 | the count over the full log of this key, nothing ever taken from it |
| MemHistory.History.RecentShortCount | internal/detect/memhistory.go:85-102 | the same for short messages |
| MemHistory.History.Sweep | internal/detect/memhistory.go:108-120 | invisible to every later count if its age covers both windows |
| MemHistory.CountMeans | internal/detect/memhistory.go:56-79 | that count is the number of such events in the window |
| MemHistory.SweepAge | cmd/tg-antispam/main.go:919-932 | the age the sweep is run with covers both windows, whatever they are set to |
| Welcome.Chat.Prune | internal/watch/welcome.go:199-208 | exactly the stamps less than a minute old |
| Welcome.Chat.Reserve | internal/watch/welcome.go:163-180 | known, capped or granted exactly by flights and recent sends, also with a clock read before the lock was got |
| Welcome.Chat.Finish | internal/watch/welcome.go:182-195 | the flight ends and its stamp is remembered as long as a window can need it |
| Welcome.Chat.OneInFlight | internal/watch/welcome.go:163-195 | one user never has two sends in flight |
| Welcome.WindowHolds | internal/watch/welcome.go:119-208 | every minute holds at most as many completed sends as the cap its last reservation was granted under |
| Welcome.ConstantCap | internal/watch/welcome.go:119-208 | with a constant cap, at most that many |
| CasBreaker.Checker.Enter | internal/blocklist/cas.go:123-147 | a cached hit rests on a positive reply for that user younger than its lifetime; nothing is let through while the breaker is open |
| CasBreaker.Checker.LandFailure | internal/blocklist/cas.go:149-163 | opens at the third failure in a row; failures while open neither extend nor reopen |
| CasBreaker.Checker.LandReply | internal/blocklist/cas.go:164-186 | a success closes the breaker and is cached if there is room, never beyond the limit |
| CasBreaker.Evict | internal/blocklist/cas.go:173-179 | exactly the expired entries go |
| CasBreaker.Extend | internal/blocklist/cas.go:123-163 | every event keeps the law of the pause, in any interleaving of requests |
| CasBreaker.LawStep | internal/blocklist/cas.go:123-168 | the breaker's fields are what the run's events say, after an admission, a failure or a reply |
| CasBreaker.Flies | internal/blocklist/cas.go:142-152 | the requests in flight are the admissions not yet answered, and no request is answered twice |
| CasBreaker.PauseHolds | internal/blocklist/cas.go:123-168 | a request let through within a minute of an opening means that one admitted before the opening succeeded in between |
| CasBreaker.OneProbeReopens | internal/blocklist/cas.go:152-163 | after the pause one more failure is enough to open again |

## Left out

- IncidentRuns.RunFromStart: state writes whose result the code only logs (SetIncidentState, the three Mark updates, FinishManualOverride, ReleaseDecision) and the re-read after an enforce press fail only together with the process; a live process whose store refuses them is not covered.
- IncidentRuns.SanctionedOnce: holds without a death inside a job; a process that dies between the Telegram call and its record can sanction twice.
- CaptchaLaws.UnmuteFoundNoSanction: a sanction placed between the read and the unmute is not covered; nor is the unban inside a kick, which the code does not check again.
- AdminCallbacks.Dispatch: what the presser is told is exact only where no `decide` command steps in at the claim itself.
- CaptchaWatch.SweepRounds: one row; the batch limit and the order of due rows are not modelled.
- Routing.Router.LookUp: one process; a row inserted before it started has no chat queue in the model yet.
- Sequencer.DrainedRanEverything: a send that races with Wait may be accepted and never run; only jobs accepted before the door closed are promised.
- MemHistory.History.Sweep: a negative window counts only the message at hand, as in the code, and is not ruled out.
- Welcome.ConstantCap: says nothing about greeting a user once; the code checks and reserves in separate steps.
- One incident at a time: another incident of the same member can move that member's status too. Album parts, the deletion of stored message ids, evidence rows by button, captured tokens, card texts, notices to the chat and the replies to presses are not modelled.
- Whether a moderator may press (rights) is decided before the model begins; a press on a missing incident is answered without touching it.
- A sender is a channel exactly when the row has a sender-chat id; every incident has a user id or a sender-chat id for the undo theorem.
- The `decide` command: its claim, its release and its end on the decision column are steps between any two steps of a job; its samples are those of Corpus.
- A call that lifts a mute is not relied on to end a ban, nor the other way round; what else Telegram does to a member's status is not modelled.
- Corpus: one fixed token list per key (hashes are injective); empty token lists, which the callers turn away, origins and `/ham`'s text are not modelled. SQL transactions are atomic.
- Captcha configuration, the skip reasons of a join, display names, the text of answers and the metrics are not modelled; the gate's answer is arbitrary. Incidents read by SanctionSince are arbitrary.
- The admin cache is modelled for one chat; chats do not share entries.
- Levenshtein: Go's runes are Dafny characters; link counting takes the regex matches as given, and the sort as any arrangement by start.
- HTTP, the rate limiter and JSON of the CAS client: a reply, a failure and the limiter's answer are inputs of the two sections.
- Clocks do not go backwards. Detection rules, Bayes scores, the trust gate, LLM providers, configuration and the command line are outside the model.
