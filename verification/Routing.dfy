/** cmd/tg-antispam/admin_routing.go: button presses go through a routing queue to the sequencer
    of the chat their incident belongs to, where they run like that chat's messages. Each method
    is one atomic step of one of the goroutines, so any sequence of calls is an interleaving. */
module Routing {
  import opened Options
  import opened Sequencer

  /** What runs in a chat: a message, an edit or a command, or a press routed there. */
  datatype Job = Work | Press(id: nat)

  /** A press as the routing queue takes it: the incident its data names, if it names one. */
  datatype Callback = Callback(id: Option<nat>)

  /** The incidents table as far as routing reads it: the chat, and which of the chat's jobs
      inserted the row. */
  datatype Origin = Origin(chat: int, job: nat)

  /** What became of a routed press. */
  datatype Fate = HandledHere | AnsweredNow | QueuedAt(chat: int)

  /** The run so far: rows inserted, jobs ended and claims taken by presses. */
  datatype Mark = Inserted(id: nat, origin: Origin) | Ended(chat: int, job: nat) | Claimed(id: nat)

  // What holds between the source chats and the incidents.

  /** Every press in a chat's order names an incident of that chat, inserted by an earlier job. */
  predicate Pressed(src: Net<Job>, incidents: map<nat, Origin>) {
    forall chat, n :: chat in src.queues && 0 <= n < |src.queues[chat].accepted| && src.queues[chat].accepted[n].Press? ==>
      var id := src.queues[chat].accepted[n].id;
      id in incidents && incidents[id].chat == chat && incidents[id].job < n
  }

  /** Every incident was inserted by a job of its chat that has been started. */
  predicate Rooted(src: Net<Job>, incidents: map<nat, Origin>) {
    forall id :: id in incidents ==>
      incidents[id].chat in src.queues && incidents[id].job < Begun(src.queues[incidents[id].chat])
  }

  /** No claim of a press falls between the insert of its incident and the end of the job that
      inserted it. */
  predicate ClaimedAfter(log: seq<Mark>, k: nat)
    requires k < |log| && log[k].Claimed?
  {
    exists i, j :: 0 <= i < j < k && log[i].Inserted? && log[i].id == log[k].id
                   && log[j] == Ended(log[i].origin.chat, log[i].origin.job)
  }

  predicate ClaimsWait(log: seq<Mark>) {
    forall k :: 0 <= k < |log| && log[k].Claimed? ==> ClaimedAfter(log, k)
  }

  /** The log says what the tables and the queues say, and in the order it happened. */
  predicate Logged(src: Net<Job>, incidents: map<nat, Origin>, log: seq<Mark>) {
    && (forall id :: id in incidents ==> Inserted(id, incidents[id]) in log)
    && (forall chat, n :: chat in src.queues && 0 <= n < |src.queues[chat].finished| ==> Ended(chat, n) in log)
    && (forall k :: 0 <= k < |log| && log[k].Ended? ==>
          log[k].chat in src.queues && log[k].job < |src.queues[log[k].chat].finished|)
    && Lawful(incidents, log)
  }

  predicate Lawful(incidents: map<nat, Origin>, log: seq<Mark>) {
    && (forall k :: 0 <= k < |log| && log[k].Inserted? ==> log[k].id in incidents && incidents[log[k].id] == log[k].origin)
    && InOrder(log) && ClaimsWait(log)
  }

  /** A row is inserted before its job ends. */
  predicate InOrder(log: seq<Mark>) {
    forall i, j ::
      (0 <= i < |log| && 0 <= j < |log| && log[i].Inserted? && log[j] == Ended(log[i].origin.chat, log[i].origin.job))
      ==> i < j
  }

  predicate SourceOk(src: Net<Job>, incidents: map<nat, Origin>, log: seq<Mark>) {
    NetOk(src) && Pressed(src, incidents) && Rooted(src, incidents) && Logged(src, incidents, log)
  }

  /** A step of the source in which no job ends. */
  predicate SameEnds(s: Net<Job>, t: Net<Job>) {
    && s.queues.Keys <= t.queues.Keys
    && (forall c :: c in s.queues ==>
          t.queues[c].finished == s.queues[c].finished && Begun(s.queues[c]) <= Begun(t.queues[c]))
    && (forall c :: c in t.queues && c !in s.queues ==> t.queues[c].finished == [])
  }

  lemma EndsStay(s: Net<Job>, t: Net<Job>, incidents: map<nat, Origin>, log: seq<Mark>)
    requires Rooted(s, incidents) && Logged(s, incidents, log) && SameEnds(s, t)
    ensures Rooted(t, incidents) && Logged(t, incidents, log)
  {
    hide Lawful;
    assert Rooted(t, incidents);
  }

  /** A step of the source in which no job is accepted and none ends. */
  predicate Still(s: Net<Job>, t: Net<Job>) {
    && SameEnds(s, t)
    && forall c :: c in t.queues ==> t.queues[c].accepted == if c in s.queues then s.queues[c].accepted else []
  }

  lemma StillOk(s: Net<Job>, t: Net<Job>, incidents: map<nat, Origin>, log: seq<Mark>)
    requires SourceOk(s, incidents, log) && NetOk(t) && Still(s, t)
    ensures SourceOk(t, incidents, log)
  {
    EndsStay(s, t, incidents, log);
  }

  /** A chat accepts a message, or a press on one of its incidents. */
  lemma SendOk(s: Net<Job>, chat: int, job: Job, arm: Arm, incidents: map<nat, Origin>, log: seq<Mark>)
    requires SourceOk(s, incidents, log) && chat in s.queues
    requires job.Press? ==> job.id in incidents && incidents[job.id].chat == chat
    ensures SourceOk(Sent(s, chat, job, arm), incidents, log)
  {
    hide NetOk, Pressed, Logged;
    SentOk(s, chat, job, arm);
    var t := Sent(s, chat, job, arm);
    assert Begun(t.queues[chat]) == Begun(s.queues[chat]);
    EndsStay(s, t, incidents, log);
    SendPressed(s, chat, job, arm, incidents);
  }

  lemma SendPressed(s: Net<Job>, chat: int, job: Job, arm: Arm, incidents: map<nat, Origin>)
    requires chat in s.queues && Pressed(s, incidents) && Rooted(s, incidents)
    requires job.Press? ==> job.id in incidents && incidents[job.id].chat == chat
    ensures Pressed(Sent(s, chat, job, arm), incidents)
  {
    var t := Sent(s, chat, job, arm);
    forall c, n | c in t.queues && 0 <= n < |t.queues[c].accepted| && t.queues[c].accepted[n].Press?
      ensures var id := t.queues[c].accepted[n].id; id in incidents && incidents[id].chat == c && incidents[id].job < n
    {
      if c == chat && n == |s.queues[chat].accepted| {
        assert t.queues[c].accepted[n] == job;
      } else {
        assert t.queues[c].accepted[n] == s.queues[c].accepted[n];
      }
    }
  }

  /** A running job inserts an incident of its chat. */
  lemma InsertOk(s: Net<Job>, a: nat, id: nat, incidents: map<nat, Origin>, log: seq<Mark>)
    requires SourceOk(s, incidents, log) && IsRunning(s, a) && id !in incidents
    ensures var o := Origin(s.workers[a].chat, |s.queues[s.workers[a].chat].finished|);
            SourceOk(s, incidents[id := o], log + [Inserted(id, o)])
  {
    hide NetOk, Logged;
    RunningIsNext(s, a);
    InsertLogged(s, id, Origin(s.workers[a].chat, |s.queues[s.workers[a].chat].finished|), incidents, log);
  }

  lemma InsertLogged(s: Net<Job>, id: nat, o: Origin, incidents: map<nat, Origin>, log: seq<Mark>)
    requires Logged(s, incidents, log) && id !in incidents && o.chat in s.queues && o.job == |s.queues[o.chat].finished|
    ensures Logged(s, incidents[id := o], log + [Inserted(id, o)])
  {
    hide ClaimsWait;
    var after := log + [Inserted(id, o)];
    assert after[|log|] == Inserted(id, o);
    LogGrows(log, Inserted(id, o));
  }

  lemma LogGrows(log: seq<Mark>, m: Mark)
    requires ClaimsWait(log)
    requires m.Claimed? ==> exists i, j :: 0 <= i < j < |log| && log[i].Inserted? && log[i].id == m.id
                              && log[j] == Ended(log[i].origin.chat, log[i].origin.job)
    ensures ClaimsWait(log + [m])
    ensures forall x :: x in log ==> x in log + [m]
  {
    var after := log + [m];
    forall k | 0 <= k < |after| && after[k].Claimed?
      ensures ClaimedAfter(after, k)
    {
      if k < |log| {
        assert ClaimedAfter(log, k);
        var i, j :| 0 <= i < j < k && log[i].Inserted? && log[i].id == log[k].id
                    && log[j] == Ended(log[i].origin.chat, log[i].origin.job);
        assert after[i] == log[i] && after[j] == log[j];
      } else {
        var i, j :| 0 <= i < j < |log| && log[i].Inserted? && log[i].id == m.id
                    && log[j] == Ended(log[i].origin.chat, log[i].origin.job);
        assert after[i] == log[i] && after[j] == log[j];
      }
    }
  }

  /** A job ends. */
  lemma EndOk(s: Net<Job>, a: nat, panics: bool, incidents: map<nat, Origin>, log: seq<Mark>)
    requires SourceOk(s, incidents, log) && IsRunning(s, a)
    ensures var chat := s.workers[a].chat;
            SourceOk(Finished(s, a, panics), incidents, log + [Ended(chat, |s.queues[chat].finished|)])
  {
    hide NetOk, Logged;
    FinishedOk(s, a, panics);
    EndLogged(s, a, panics, incidents, log);
  }

  lemma EndLogged(s: Net<Job>, a: nat, panics: bool, incidents: map<nat, Origin>, log: seq<Mark>)
    requires Logged(s, incidents, log) && IsRunning(s, a)
    ensures var chat := s.workers[a].chat;
            Logged(Finished(s, a, panics), incidents, log + [Ended(chat, |s.queues[chat].finished|)])
  {
    hide ClaimsWait, InOrder;
    var chat := s.workers[a].chat;
    var m := Ended(chat, |s.queues[chat].finished|);
    LogGrows(log, m);
    EndInOrder(log, m);
    assert (log + [m])[|log|] == m;
  }

  lemma EndInOrder(log: seq<Mark>, m: Mark)
    requires InOrder(log) && !m.Inserted?
    ensures InOrder(log + [m])
  {
  }

  /** A running press claims its incident: the job that inserted it has ended. */
  lemma ClaimOk(s: Net<Job>, a: nat, incidents: map<nat, Origin>, log: seq<Mark>)
    requires SourceOk(s, incidents, log) && IsRunning(s, a) && s.workers[a].pc.job.Press?
    ensures var id := s.workers[a].pc.job.id;
            && id in incidents && incidents[id].chat == s.workers[a].chat
            && incidents[id].job < |s.queues[s.workers[a].chat].finished|
            && SourceOk(s, incidents, log + [Claimed(id)])
  {
    RunningIsNext(s, a);
    var id := s.workers[a].pc.job.id;
    var q := s.queues[s.workers[a].chat];
    assert q.accepted[|q.finished|] == Press(id);
    ClaimLogged(incidents, log, id);
  }

  lemma ClaimLogged(incidents: map<nat, Origin>, log: seq<Mark>, id: nat)
    requires Lawful(incidents, log) && id in incidents
    requires Inserted(id, incidents[id]) in log && Ended(incidents[id].chat, incidents[id].job) in log
    ensures Lawful(incidents, log + [Claimed(id)])
  {
    var o := incidents[id];
    var i :| 0 <= i < |log| && log[i] == Inserted(id, o);
    var j :| 0 <= j < |log| && log[j] == Ended(o.chat, o.job);
    assert i < j;
    LogGrows(log, Claimed(id));
  }

  /** What the tables, the orders and the log say about one incident. */
  lemma Belongs(src: Net<Job>, incidents: map<nat, Origin>, log: seq<Mark>, id: nat)
    requires SourceOk(src, incidents, log)
    ensures id in incidents <==> exists k :: 0 <= k < |log| && log[k].Inserted? && log[k].id == id
    ensures forall k :: 0 <= k < |log| && log[k].Inserted? && log[k].id == id ==> id in incidents && incidents[id] == log[k].origin
    ensures forall k :: 0 <= k < |log| && log[k] == Claimed(id) ==> id in incidents
    ensures forall c :: c in src.queues && Press(id) in src.queues[c].accepted ==> id in incidents && incidents[id].chat == c
    ensures id in incidents ==> incidents[id].chat in src.queues
  {
    hide NetOk;
    if id in incidents {
      var k :| 0 <= k < |log| && log[k] == Inserted(id, incidents[id]);
    }
    forall k | 0 <= k < |log| && log[k] == Claimed(id)
      ensures id in incidents
    {
      assert ClaimedAfter(log, k);
    }
    forall c | c in src.queues && Press(id) in src.queues[c].accepted
      ensures id in incidents && incidents[id].chat == c
    {
      var n :| 0 <= n < |src.queues[c].accepted| && src.queues[c].accepted[n] == Press(id);
    }
  }

  // What holds between the routing queue and the source chats.

  /** A press queued at a chat stands in that chat's order, and since before the door closed. */
  predicate Honoured(src: Net<Job>, incidents: map<nat, Origin>, cb: Callback, fate: Fate) {
    && (fate.HandledHere? <==> cb.id.None?)
    && (fate.QueuedAt? ==>
          && cb.id.value in incidents && incidents[cb.id.value].chat == fate.chat
          && fate.chat in src.queues && Press(cb.id.value) in src.queues[fate.chat].accepted
          && (src.closed ==> fate.chat in src.atClose && Press(cb.id.value) in src.atClose[fate.chat]))
  }

  predicate FatesOk(rt: Net<Callback>, src: Net<Job>, incidents: map<nat, Origin>, fates: seq<Fate>, outcome: Option<Fate>) {
    && rt.queues.Keys <= {0}
    && (if 0 in rt.queues then |fates| == |rt.queues[0].finished| else fates == [])
    && (forall n :: 0 <= n < |fates| ==> Honoured(src, incidents, rt.queues[0].finished[n], fates[n]))
    && (outcome.Some? ==> forall a :: 0 <= a < |rt.workers| && rt.workers[a].pc.Running? ==> Honoured(src, incidents, rt.workers[a].pc.job, outcome.value))
  }

  /** What any step leaves of the chats' orders, of the door and of the incidents. */
  predicate Grown(s: Net<Job>, t: Net<Job>, before: map<nat, Origin>, after: map<nat, Origin>) {
    && (forall c :: c in s.queues ==> c in t.queues && s.queues[c].accepted <= t.queues[c].accepted)
    && (s.closed ==> t.closed && t.atClose == s.atClose)
    && (t.closed && !s.closed ==> forall c :: c in t.queues ==> c in t.atClose && t.atClose[c] == t.queues[c].accepted)
    && (forall id :: id in before ==> id in after && after[id] == before[id])
  }

  lemma StillGrown(s: Net<Job>, t: Net<Job>, incidents: map<nat, Origin>)
    requires Still(s, t) && s.closed == t.closed && s.atClose == t.atClose
    ensures Grown(s, t, incidents, incidents)
  {
  }

  lemma ClosedGrown(s: Net<Job>, incidents: map<nat, Origin>)
    ensures Still(s, Closed(s)) && Grown(s, Closed(s), incidents, incidents)
  {
  }

  lemma SentGrown(s: Net<Job>, chat: int, job: Job, arm: Arm, incidents: map<nat, Origin>)
    requires chat in s.queues
    ensures Grown(s, Sent(s, chat, job, arm), incidents, incidents)
  {
  }

  lemma EnteredStill(s: Net<Job>, chat: int)
    ensures Still(s, Entered(s, chat))
  {
  }

  lemma ReceivedStill(s: Net<Job>, a: nat)
    requires CanReceive(s, a)
    ensures Still(s, Received(s, a))
  {
  }

  lemma FatesStay(rt: Net<Callback>, s: Net<Job>, t: Net<Job>, before: map<nat, Origin>, after: map<nat, Origin>,
                  fates: seq<Fate>, outcome: Option<Fate>)
    requires FatesOk(rt, s, before, fates, outcome) && Grown(s, t, before, after)
    ensures FatesOk(rt, t, after, fates, outcome)
  {
  }

  /** The invariant of the whole: both sequencers, the incidents table, the fates and the log. */
  predicate DeskOk(rt: Net<Callback>, src: Net<Job>, incidents: map<nat, Origin>, fates: seq<Fate>, outcome: Option<Fate>,
                   log: seq<Mark>)
  {
    && NetOk(rt) && SourceOk(src, incidents, log)
    && (src.closed ==> Drained(rt))
    && FatesOk(rt, src, incidents, fates, outcome)
  }

  /** Steps of the source alone. */
  lemma SourceStep(rt: Net<Callback>, s: Net<Job>, t: Net<Job>, before: map<nat, Origin>, after: map<nat, Origin>,
                   fates: seq<Fate>, outcome: Option<Fate>, was: seq<Mark>, log: seq<Mark>)
    requires DeskOk(rt, s, before, fates, outcome, was)
    requires SourceOk(t, after, log) && Grown(s, t, before, after) && (t.closed ==> s.closed || Drained(rt))
    ensures DeskOk(rt, t, after, fates, outcome, log)
  {
    FatesStay(rt, s, t, before, after, fates, outcome);
  }

  lemma StillStep(rt: Net<Callback>, s: Net<Job>, t: Net<Job>, incidents: map<nat, Origin>, fates: seq<Fate>,
                  outcome: Option<Fate>, log: seq<Mark>)
    requires DeskOk(rt, s, incidents, fates, outcome, log)
    requires NetOk(t) && Still(s, t) && s.closed == t.closed && s.atClose == t.atClose
    ensures DeskOk(rt, t, incidents, fates, outcome, log)
  {
    StillOk(s, t, incidents, log);
    StillGrown(s, t, incidents);
    SourceStep(rt, s, t, incidents, incidents, fates, outcome, log, log);
  }

  lemma EnterStep(rt: Net<Callback>, src: Net<Job>, chat: int, incidents: map<nat, Origin>, fates: seq<Fate>,
                  outcome: Option<Fate>, log: seq<Mark>)
    requires DeskOk(rt, src, incidents, fates, outcome, log)
    ensures DeskOk(rt, Entered(src, chat), incidents, fates, outcome, log)
  {
    EnteredOk(src, chat);
    EnteredStill(src, chat);
    StillStep(rt, src, Entered(src, chat), incidents, fates, outcome, log);
  }

  lemma SendStep(rt: Net<Callback>, src: Net<Job>, chat: int, job: Job, arm: Arm, incidents: map<nat, Origin>,
                 fates: seq<Fate>, outcome: Option<Fate>, log: seq<Mark>)
    requires DeskOk(rt, src, incidents, fates, outcome, log) && chat in src.queues
    requires job.Press? ==> job.id in incidents && incidents[job.id].chat == chat
    ensures DeskOk(rt, Sent(src, chat, job, arm), incidents, fates, outcome, log)
  {
    SendOk(src, chat, job, arm, incidents, log);
    SentGrown(src, chat, job, arm, incidents);
    SourceStep(rt, src, Sent(src, chat, job, arm), incidents, incidents, fates, outcome, log, log);
  }

  lemma ReceiveStep(rt: Net<Callback>, src: Net<Job>, a: nat, incidents: map<nat, Origin>, fates: seq<Fate>,
                    outcome: Option<Fate>, log: seq<Mark>)
    requires DeskOk(rt, src, incidents, fates, outcome, log) && CanReceive(src, a)
    ensures DeskOk(rt, Received(src, a), incidents, fates, outcome, log)
  {
    ReceivedOk(src, a);
    ReceivedStill(src, a);
    StillStep(rt, src, Received(src, a), incidents, fates, outcome, log);
  }

  lemma EndStep(rt: Net<Callback>, src: Net<Job>, a: nat, panics: bool, incidents: map<nat, Origin>, fates: seq<Fate>,
                outcome: Option<Fate>, log: seq<Mark>)
    requires DeskOk(rt, src, incidents, fates, outcome, log) && IsRunning(src, a)
    ensures var chat := src.workers[a].chat;
            DeskOk(rt, Finished(src, a, panics), incidents, fates, outcome, log + [Ended(chat, |src.queues[chat].finished|)])
  {
    var m := Ended(src.workers[a].chat, |src.queues[src.workers[a].chat].finished|);
    EndOk(src, a, panics, incidents, log);
    SourceStep(rt, src, Finished(src, a, panics), incidents, incidents, fates, outcome, log, log + [m]);
  }

  lemma LeaveStep(rt: Net<Callback>, src: Net<Job>, a: nat, incidents: map<nat, Origin>, fates: seq<Fate>,
                  outcome: Option<Fate>, log: seq<Mark>)
    requires DeskOk(rt, src, incidents, fates, outcome, log) && CanLeave(src, a)
    ensures DeskOk(rt, Left(src, a), incidents, fates, outcome, log)
  {
    LeftOk(src, a);
    StillStep(rt, src, Left(src, a), incidents, fates, outcome, log);
  }

  lemma CloseStep(rt: Net<Callback>, src: Net<Job>, incidents: map<nat, Origin>, fates: seq<Fate>,
                  outcome: Option<Fate>, log: seq<Mark>)
    requires DeskOk(rt, src, incidents, fates, outcome, log) && Drained(rt)
    ensures DeskOk(rt, Closed(src), incidents, fates, outcome, log)
  {
    ClosedOk(src);
    ClosedGrown(src, incidents);
    StillOk(src, Closed(src), incidents, log);
    SourceStep(rt, src, Closed(src), incidents, incidents, fates, outcome, log, log);
  }

  /** Steps of the routing queue in which no routed press ends and none begins. */
  lemma RoutingStep(s: Net<Callback>, t: Net<Callback>, src: Net<Job>, incidents: map<nat, Origin>, fates: seq<Fate>,
                    outcome: Option<Fate>, log: seq<Mark>)
    requires DeskOk(s, src, incidents, fates, outcome, log) && NetOk(t) && t.queues.Keys <= {0}
    requires 0 in t.queues ==> t.queues[0].finished == if 0 in s.queues then s.queues[0].finished else []
    requires 0 in s.queues ==> 0 in t.queues
    requires forall a :: 0 <= a < |t.workers| && t.workers[a].pc.Running? ==> a < |s.workers| && t.workers[a] == s.workers[a]
    requires Drained(s) ==> Drained(t)
    ensures DeskOk(t, src, incidents, fates, outcome, log)
  {
  }

  lemma RoutingSendStep(rt: Net<Callback>, src: Net<Job>, cb: Callback, arm: Arm, incidents: map<nat, Origin>,
                        fates: seq<Fate>, outcome: Option<Fate>, log: seq<Mark>)
    requires DeskOk(rt, src, incidents, fates, outcome, log) && 0 in rt.queues
    ensures DeskOk(Sent(rt, 0, cb, arm), src, incidents, fates, outcome, log)
  {
    SentOk(rt, 0, cb, arm);
    RoutingStep(rt, Sent(rt, 0, cb, arm), src, incidents, fates, outcome, log);
  }

  lemma RoutingEnterStep(rt: Net<Callback>, src: Net<Job>, incidents: map<nat, Origin>, fates: seq<Fate>,
                         outcome: Option<Fate>, log: seq<Mark>)
    requires DeskOk(rt, src, incidents, fates, outcome, log)
    ensures DeskOk(Entered(rt, 0), src, incidents, fates, outcome, log)
  {
    EnteredOk(rt, 0);
    RoutingStep(rt, Entered(rt, 0), src, incidents, fates, outcome, log);
  }

  lemma RoutingCloseStep(rt: Net<Callback>, src: Net<Job>, incidents: map<nat, Origin>, fates: seq<Fate>,
                         outcome: Option<Fate>, log: seq<Mark>)
    requires DeskOk(rt, src, incidents, fates, outcome, log)
    ensures DeskOk(Closed(rt), src, incidents, fates, outcome, log)
  {
    ClosedOk(rt);
    RoutingStep(rt, Closed(rt), src, incidents, fates, outcome, log);
  }

  lemma RoutingLeaveStep(rt: Net<Callback>, src: Net<Job>, a: nat, incidents: map<nat, Origin>, fates: seq<Fate>,
                         outcome: Option<Fate>, log: seq<Mark>)
    requires DeskOk(rt, src, incidents, fates, outcome, log) && CanLeave(rt, a)
    ensures DeskOk(Left(rt, a), src, incidents, fates, outcome, log)
  {
    LeftOk(rt, a);
    RoutingStep(rt, Left(rt, a), src, incidents, fates, outcome, log);
  }

  /** A routing job begins, with nothing decided about its press yet. */
  lemma TakeStep(rt: Net<Callback>, src: Net<Job>, a: nat, incidents: map<nat, Origin>, fates: seq<Fate>,
                 outcome: Option<Fate>, log: seq<Mark>)
    requires DeskOk(rt, src, incidents, fates, outcome, log) && CanReceive(rt, a)
    ensures DeskOk(Received(rt, a), src, incidents, fates, None, log)
  {
    ReceivedOk(rt, a);
  }

  /** What was decided about the press being routed. */
  lemma DecideStep(rt: Net<Callback>, src: Net<Job>, a: nat, incidents: map<nat, Origin>, fates: seq<Fate>,
                   outcome: Option<Fate>, fate: Fate, log: seq<Mark>)
    requires DeskOk(rt, src, incidents, fates, outcome, log) && IsRunning(rt, a)
    requires Honoured(src, incidents, rt.workers[a].pc.job, fate)
    ensures DeskOk(rt, src, incidents, fates, Some(fate), log)
  {
    forall b | 0 <= b < |rt.workers| && rt.workers[b].pc.Running?
      ensures b == a
    {
      assert rt.workers[b].chat == 0 == rt.workers[a].chat;
    }
  }

  /** The press being routed is offered to its incident's chat. */
  lemma HandStep(rt: Net<Callback>, src: Net<Job>, a: nat, id: nat, chat: int, incidents: map<nat, Origin>,
                 fates: seq<Fate>, outcome: Option<Fate>, log: seq<Mark>)
    requires DeskOk(rt, src, incidents, fates, outcome, log) && IsRunning(rt, a) && rt.workers[a].pc.job.id == Some(id)
    requires id in incidents && incidents[id].chat == chat && chat in src.queues
    ensures DeskOk(rt, Sent(src, chat, Press(id), SendArm), incidents, fates,
                   Some(if Accepts(src, chat, SendArm) then QueuedAt(chat) else AnsweredNow), log)
  {
    var t := Sent(src, chat, Press(id), SendArm);
    var fate := if Accepts(src, chat, SendArm) then QueuedAt(chat) else AnsweredNow;
    SendStep(rt, src, chat, Press(id), SendArm, incidents, fates, outcome, log);
    if fate.QueuedAt? {
      var accepted := t.queues[chat].accepted;
      assert accepted[|accepted| - 1] == Press(id);
    }
    DecideStep(rt, t, a, incidents, fates, outcome, fate, log);
  }

  /** A routing job ends, and its press has its fate. */
  lemma FateStep(rt: Net<Callback>, src: Net<Job>, a: nat, incidents: map<nat, Origin>, fates: seq<Fate>,
                 fate: Fate, log: seq<Mark>)
    requires DeskOk(rt, src, incidents, fates, Some(fate), log) && IsRunning(rt, a)
    ensures DeskOk(Finished(rt, a, false), src, incidents, fates + [fate], None, log)
  {
    FinishedOk(rt, a, false);
    var t := Finished(rt, a, false);
    assert rt.workers[a].chat == 0;
    forall n | 0 <= n < |fates + [fate]|
      ensures Honoured(src, incidents, t.queues[0].finished[n], (fates + [fate])[n])
    {
      assert n < |fates| ==> t.queues[0].finished[n] == rt.queues[0].finished[n];
    }
  }

  class Router {
    const routing: Chats<Callback>
    const source: Chats<Job>
    var incidents: map<nat, Origin>
    /** What became of each routed press, in routing order, and of the one being routed. */
    var fates: seq<Fate>
    var outcome: Option<Fate>
    ghost var log: seq<Mark>

    ghost predicate Valid()
      reads this, routing, source
    {
      && (routing as object) != source
      && DeskOk(routing.s, source.s, incidents, fates, outcome, log)
    }

    constructor ()
      ensures Valid() && fresh(routing) && fresh(source)
      ensures incidents == map[] && fates == [] && outcome.None? && log == []
    {
      routing := new Chats<Callback>();
      source := new Chats<Job>();
      incidents, fates, outcome, log := map[], [], None, [];
    }

    // The polling goroutine: messages go to their chat, presses to the routing queue. Wait may
    // land between the locked part of a submission and its send.

    method EnterSource(chat: int) returns (open: bool)
      requires Valid()
      modifies source
      ensures Valid() && source.s == Entered(old(source.s), chat)
      ensures open ==> chat in source.s.queues && !source.s.closed
    {
      EnterStep(routing.s, source.s, chat, incidents, fates, outcome, log);
      open := source.Enter(chat);
    }

    method SendMessage(chat: int, arm: Arm) returns (accepted: bool)
      requires Valid() && chat in source.s.queues
      modifies source
      ensures Valid() && source.s == Sent(old(source.s), chat, Work, arm)
      ensures accepted == Accepts(old(source.s), chat, arm)
    {
      SendStep(routing.s, source.s, chat, Work, arm, incidents, fates, outcome, log);
      accepted := source.Send(chat, Work, arm);
    }

    method EnterRouting() returns (open: bool)
      requires Valid()
      modifies routing
      ensures Valid() && routing.s == Entered(old(routing.s), 0)
      ensures open <==> !routing.s.closed
      ensures open ==> 0 in routing.s.queues
    {
      RoutingEnterStep(routing.s, source.s, incidents, fates, outcome, log);
      open := routing.Enter(0);
    }

    /** A press that is not accepted is answered busy. */
    method SendPress(cb: Callback, arm: Arm) returns (accepted: bool)
      requires Valid() && 0 in routing.s.queues
      modifies routing
      ensures Valid() && routing.s == Sent(old(routing.s), 0, cb, arm)
      ensures accepted == Accepts(old(routing.s), 0, arm)
    {
      RoutingSendStep(routing.s, source.s, cb, arm, incidents, fates, outcome, log);
      accepted := routing.Send(0, cb, arm);
    }

    // The routing worker.

    method TakePress(a: nat) returns (cb: Callback)
      requires Valid() && CanReceive(routing.s, a)
      modifies this`outcome, routing
      ensures Valid() && routing.s == Received(old(routing.s), a) && cb == routing.s.workers[a].pc.job
      ensures outcome.None?
    {
      TakeStep(routing.s, source.s, a, incidents, fates, outcome, log);
      cb := routing.Receive(a);
      outcome := None;
    }

    /** GetIncidentChat. An incident is found if and only if some job inserted its row; the chat found
        is that job's, can be handed the press, and is the only one a press on this incident ever
        stands, runs or claims in. */
    method LookUp(id: nat) returns (chat: Option<int>)
      requires Valid()
      ensures chat.Some? <==> exists k :: 0 <= k < |log| && log[k].Inserted? && log[k].id == id
      ensures forall k :: 0 <= k < |log| && log[k].Inserted? && log[k].id == id ==> chat == Some(log[k].origin.chat)
      ensures forall k :: 0 <= k < |log| && log[k] == Claimed(id) ==> chat.Some?
      ensures forall c :: c in source.s.queues && Press(id) in source.s.queues[c].accepted ==> chat == Some(c)
      ensures chat.Some? ==> id in incidents && incidents[id].chat == chat.value && chat.value in source.s.queues
    {
      hide NetOk, FatesOk, Drained;
      Belongs(source.s, incidents, log, id);
      chat := if id in incidents then Some(incidents[id].chat) else None;
    }

    /** The chat looked up is offered the press, once its channel is there; rows are never
        removed and never move, so what was looked up still holds. */
    method HandOver(a: nat, id: nat, chat: int) returns (sent: bool)
      requires Valid() && IsRunning(routing.s, a) && routing.s.workers[a].pc.job.id == Some(id)
      requires id in incidents && incidents[id].chat == chat && chat in source.s.queues
      modifies this`outcome, source
      ensures Valid() && source.s == Sent(old(source.s), chat, Press(id), SendArm)
      ensures sent == Accepts(old(source.s), chat, SendArm)
      ensures outcome == Some(if sent then QueuedAt(chat) else AnsweredNow)
    {
      hide NetOk, Pressed, Rooted, Logged, FatesOk;
      HandStep(routing.s, source.s, a, id, chat, incidents, fates, outcome, log);
      sent := source.Send(chat, Press(id), SendArm);
      outcome := Some(if sent then QueuedAt(chat) else AnsweredNow);
    }

    /** The press is answered at once: it names no incident, or none that is found. */
    method AnswerHere(a: nat)
      requires Valid() && IsRunning(routing.s, a)
      modifies this`outcome
      ensures Valid()
      ensures outcome == Some(if routing.s.workers[a].pc.job.id.None? then HandledHere else AnsweredNow)
    {
      var fate := if routing.s.workers[a].pc.job.id.None? then HandledHere else AnsweredNow;
      DecideStep(routing.s, source.s, a, incidents, fates, outcome, fate, log);
      outcome := Some(fate);
    }

    method FinishPress(a: nat)
      requires Valid() && IsRunning(routing.s, a) && outcome.Some?
      modifies this`fates, this`outcome, routing
      ensures Valid() && routing.s == Finished(old(routing.s), a, false)
      ensures fates == old(fates) + [old(outcome).value]
    {
      FateStep(routing.s, source.s, a, incidents, fates, outcome.value, log);
      routing.Finish(a, false);
      fates := fates + [outcome.value];
      outcome := None;
    }

    method LeaveRouting(a: nat)
      requires Valid() && CanLeave(routing.s, a)
      modifies routing
      ensures Valid() && routing.s == Left(old(routing.s), a)
    {
      RoutingLeaveStep(routing.s, source.s, a, incidents, fates, outcome, log);
      routing.Leave(a);
    }

    // The workers of the chats.

    method ReceiveJob(a: nat) returns (job: Job)
      requires Valid() && CanReceive(source.s, a)
      modifies source
      ensures Valid() && source.s == Received(old(source.s), a) && job == source.s.workers[a].pc.job
    {
      ReceiveStep(routing.s, source.s, a, incidents, fates, outcome, log);
      job := source.Receive(a);
    }

    /** InsertPending, by a running job of the chat. */
    method Insert(a: nat, id: nat)
      requires Valid() && IsRunning(source.s, a) && id !in incidents
      modifies this`incidents, this`log
      ensures Valid()
      ensures incidents == old(incidents)[id := Origin(source.s.workers[a].chat, |source.s.queues[source.s.workers[a].chat].finished|)]
      ensures log == old(log) + [Inserted(id, incidents[id])]
    {
      hide NetOk, Pressed, Rooted, Logged, FatesOk;
      var o := Origin(source.s.workers[a].chat, |source.s.queues[source.s.workers[a].chat].finished|);
      InsertOk(source.s, a, id, incidents, log);
      SourceStep(routing.s, source.s, source.s, incidents, incidents[id := o], fates, outcome, log, log + [Inserted(id, o)]);
      incidents := incidents[id := o];
      log := log + [Inserted(id, o)];
    }

    /** A running press takes its claim: the job that inserted and first processed its incident
        is over. */
    method Claim(a: nat) returns (id: nat)
      requires Valid() && IsRunning(source.s, a) && source.s.workers[a].pc.job.Press?
      modifies this`log
      ensures Valid() && id == source.s.workers[a].pc.job.id && log == old(log) + [Claimed(id)]
      ensures id in incidents && incidents[id].chat == source.s.workers[a].chat
      ensures incidents[id].job < |source.s.queues[incidents[id].chat].finished|
    {
      ClaimOk(source.s, a, incidents, log);
      id := source.s.workers[a].pc.job.id;
      SourceStep(routing.s, source.s, source.s, incidents, incidents, fates, outcome, log, log + [Claimed(id)]);
      log := log + [Claimed(id)];
    }

    method EndJob(a: nat, panics: bool)
      requires Valid() && IsRunning(source.s, a)
      modifies this`log, source
      ensures Valid() && source.s == Finished(old(source.s), a, panics)
    {
      hide NetOk, Pressed, Rooted, Logged, FatesOk;
      EndStep(routing.s, source.s, a, panics, incidents, fates, outcome, log);
      log := log + [Ended(source.s.workers[a].chat, |source.s.queues[source.s.workers[a].chat].finished|)];
      source.Finish(a, panics);
    }

    method LeaveSource(a: nat)
      requires Valid() && CanLeave(source.s, a)
      modifies source
      ensures Valid() && source.s == Left(old(source.s), a)
    {
      LeaveStep(routing.s, source.s, a, incidents, fates, outcome, log);
      source.Leave(a);
    }

    // Shutdown, in the order main keeps: the source closes once the routing queue has drained.

    method CloseRouting()
      requires Valid()
      modifies routing
      ensures Valid() && routing.s == Closed(old(routing.s))
    {
      RoutingCloseStep(routing.s, source.s, incidents, fates, outcome, log);
      routing.Close();
    }

    method CloseSource()
      requires Valid() && Drained(routing.s)
      modifies source
      ensures Valid() && source.s == Closed(old(source.s))
    {
      CloseStep(routing.s, source.s, incidents, fates, outcome, log);
      source.Close();
    }

    // What every interleaving keeps.

    /** No press claims an incident before the job that inserted and first processed it has ended. */
    lemma NoEarlyClaim(k: nat)
      requires Valid() && k < |log| && log[k].Claimed?
      ensures log[k].id in incidents
      ensures var o := incidents[log[k].id];
              exists i, j :: 0 <= i < j < k && log[i] == Inserted(log[k].id, o) && log[j] == Ended(o.chat, o.job)
    {
      assert ClaimedAfter(log, k);
      var i, j :| 0 <= i < j < k && log[i].Inserted? && log[i].id == log[k].id
                  && log[j] == Ended(log[i].origin.chat, log[i].origin.job);
    }

    /** No press routed to a chat is lost: after an orderly shutdown, everything the routing queue
        accepted before its door closed has a fate, and what was queued at a chat ran there. */
    lemma NoPressLost(n: nat)
      requires Valid() && source.s.closed && Drained(source.s) && 0 in routing.s.queues
      requires 0 in routing.s.atClose && n < |routing.s.atClose[0]|
      ensures n < |fates| && routing.s.queues[0].finished[n] == routing.s.atClose[0][n]
      ensures fates[n].QueuedAt? ==>
                routing.s.atClose[0][n].id.Some? && fates[n].chat in source.s.queues
                && Press(routing.s.atClose[0][n].id.value) in source.s.queues[fates[n].chat].finished
    {
      DrainedRanEverything(routing.s, 0);
      assert Honoured(source.s, incidents, routing.s.queues[0].finished[n], fates[n]);
      if fates[n].QueuedAt? {
        DrainedRanEverything(source.s, fates[n].chat);
      }
    }
  }
}
