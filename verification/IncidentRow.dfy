/** The incident row as internal/store keeps it: the states, the audit action and
    the pure predicates the SQL conditions and the Go helpers compute from one row. */
module IncidentRow {
  import opened Options

  datatype Action = NoAction | DeleteMute | Mute | Ban | DeleteOnly | Quarantine

  datatype State = Pending | Evidenced | Acted | Cleaned | Done | EvidenceFailed | NotActed | SanctionUnknown

  /** The decision column. `Enforcing` is the value both the enforce button and a
      manual override claim with. */
  datatype Decision = Undecided | FalsePositive | LiftNoLearn | ConfirmSpam | Enforcing

  /** What never changes: whose message it was, where, and when the row was made. */
  datatype Key = Key(chatId: int, userId: int, senderChatId: int, createdAt: int)

  /** What the transactions change; `action` is the audit row's. */
  datatype Row = Row(state: State, dryRun: bool, decision: Decision, action: Action, card: Option<int>)

  /** The three actions that make a sanction call. */
  predicate Punitive(a: Action) {
    a.Ban? || a.Mute? || a.DeleteMute?
  }

  predicate Applied(s: State) {
    s.Acted? || s.Cleaned? || s.Done?
  }

  /** IncidentRow.Sanctioned: what the undo buttons believe there is to lift. */
  predicate Sanctioned(k: Key, r: Row) {
    if r.state.SanctionUnknown? then Punitive(r.action)
    else if r.dryRun then false
    else if k.senderChatId != 0 && k.userId == 0 then Applied(r.state) && Punitive(r.action)
    else Applied(r.state) && Punitive(r.action)
  }

  /** The part of SanctionSince's WHERE clause that does not select the key. */
  predicate Protects(r: Row) {
    || r.decision.Enforcing?
    || r.state.SanctionUnknown?
    || (!r.dryRun
        && (r.state.Pending? || r.state.Evidenced? || Applied(r.state))
        && Punitive(r.action))
  }

  /** SanctionSince over the rows of the incidents table. */
  predicate SanctionSince(rows: seq<(Key, Row)>, chatId: int, userId: int, since: int) {
    exists i :: 0 <= i < |rows|
      && rows[i].0.chatId == chatId && rows[i].0.userId == userId && rows[i].0.createdAt >= since
      && Protects(rows[i].1)
  }

  /** ClaimManualOverride's condition. */
  predicate Claimable(r: Row) {
    && r.decision.Undecided?
    && (|| r.dryRun
        || r.state.Pending? || r.state.Evidenced? || r.state.EvidenceFailed?
        || r.state.NotActed? || r.state.SanctionUnknown?
        || !(Punitive(r.action) || r.action.DeleteOnly?))
  }

  /** A live row whose job stopped before it recorded the outcome of its sanction. */
  predicate Leftover(r: Row) {
    !r.dryRun && Punitive(r.action) && (r.state.Pending? || r.state.Evidenced?)
  }

  /** A row no second sanction can be taken on: neither claim accepts it. */
  predicate Closed(r: Row) {
    !r.dryRun && Applied(r.state) && (Punitive(r.action) || r.action.DeleteOnly?)
  }

  /** IsIncidentCard: a row without a recorded card accepts any. */
  predicate CurrentCard(r: Row, card: int) {
    r.card == None || r.card == Some(card)
  }

  /** No row falls between: it is decided, or it carries an applied action, or a moderator's order
      takes it over, whatever stopped it before. */
  lemma TakeoverAccepts(r: Row)
    ensures r.decision.Undecided? ==> (Claimable(r) <==> !Closed(r))
    ensures Claimable(r) && !r.dryRun && (Punitive(r.action) || r.action.DeleteOnly?) ==>
              r.state in {Pending, Evidenced, EvidenceFailed, NotActed, SanctionUnknown}
    ensures r.decision.Undecided? && r.state in {Pending, Evidenced, EvidenceFailed, NotActed, SanctionUnknown} ==> Claimable(r)
  {
  }

  // Row updates, one per SQL statement.

  function SanctionRefused(r: Row): Row {
    if r.state.SanctionUnknown? then r else r.(state := NotActed)
  }

  function SanctionLost(r: Row, attempted: Action): Row {
    r.(state := SanctionUnknown, action := attempted)
  }

  function OverrideFinished(r: Row, action: Action, sanctioned: bool): (b: Row)
    ensures b.decision == if r.decision.Enforcing? then Undecided else r.decision
    ensures sanctioned ==> Applied(b.state) && !b.dryRun && b.action == action && b.card == r.card
    ensures sanctioned && (Punitive(action) || action.DeleteOnly?) ==> !Claimable(b)
    ensures Applied(r.state) ==> b.state == r.state
    ensures sanctioned && !Applied(r.state) ==> b.state.Acted?
    ensures !sanctioned ==> b.(decision := r.decision) == r
  {
    var done := if sanctioned
                then r.(dryRun := false, state := if Applied(r.state) then r.state else Acted, action := action)
                else r;
    if done.decision.Enforcing? then done.(decision := Undecided) else done
  }
}
