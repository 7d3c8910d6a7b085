/** internal/telegram/sequencer.go: one channel per chat, and workers that receive from it. Each
    method is one atomic step: the locked part of TrySubmit, its send, a worker receiving or
    finishing a job, a worker leaving, and Wait closing the door. */
module Sequencer {
  import opened Options

  const Capacity: nat := 1024

  /** One chat's channel. `accepted` and `finished` are the run's record: what the channel took,
      in order, and what ran to its end or to its panic. */
  datatype Queue<T> = Queue(waiting: seq<T>, accepted: seq<T>, finished: seq<T>)

  /** Where a worker is: at its select, in a job, or gone. */
  datatype Pc<T> = Selecting | Running(job: T) | Exited

  datatype Worker<T> = Worker(chat: int, pc: Pc<T>)

  /** Every chat's channel and every worker ever started; `atClose` is what each channel had
      accepted when Wait closed the door. */
  datatype Net<T> = Net(queues: map<int, Queue<T>>, workers: seq<Worker<T>>, closed: bool,
                        dropped: nat, panicked: nat, atClose: map<int, seq<T>>)

  function Current<T>(pc: Pc<T>): seq<T> {
    if pc.Running? then [pc.job] else []
  }

  /** Every accepted job is in exactly one place, and the places are in acceptance order. */
  predicate Accounted<T(==)>(q: Queue<T>, pc: Pc<T>) {
    q.accepted == q.finished + Current(pc) + q.waiting && |q.waiting| <= Capacity
  }

  /** Each chat with a channel has one worker, and no other chat has any. */
  predicate Staffed<T>(s: Net<T>) {
    && (forall a :: 0 <= a < |s.workers| ==> s.workers[a].chat in s.queues)
    && (forall chat :: chat in s.queues ==> exists a :: 0 <= a < |s.workers| && s.workers[a].chat == chat)
    && (forall a, b :: 0 <= a < |s.workers| && 0 <= b < |s.workers| && s.workers[a].chat == s.workers[b].chat ==> a == b)
  }

  predicate WorkerOk<T(==)>(s: Net<T>, a: nat)
    requires a < |s.workers| && s.workers[a].chat in s.queues
  {
    var chat, pc := s.workers[a].chat, s.workers[a].pc;
    && Accounted(s.queues[chat], pc)
    && (pc.Exited? ==> s.closed && chat in s.atClose && s.atClose[chat] <= s.queues[chat].finished)
  }

  predicate NetOk<T(==)>(s: Net<T>) {
    && Staffed(s)
    && (forall a :: 0 <= a < |s.workers| ==> WorkerOk(s, a))
    && (s.closed ==> s.atClose.Keys == s.queues.Keys)
    && (s.closed ==> forall chat :: chat in s.queues ==> s.atClose[chat] <= s.queues[chat].accepted)
  }

  // The steps.

  function Entered<T>(s: Net<T>, chat: int): Net<T> {
    if s.closed || chat in s.queues then s
    else s.(queues := s.queues[chat := Queue([], [], [])], workers := s.workers + [Worker(chat, Selecting)])
  }

  /** How the select of a send resolves when several of its arms are ready. */
  datatype Arm = SendArm | QuitArm

  predicate Accepts<T>(s: Net<T>, chat: int, arm: Arm)
    requires chat in s.queues
  {
    |s.queues[chat].waiting| < Capacity && !(s.closed && arm.QuitArm?)
  }

  function Sent<T>(s: Net<T>, chat: int, job: T, arm: Arm): Net<T>
    requires chat in s.queues
  {
    var q := s.queues[chat];
    if Accepts(s, chat, arm) then
      s.(queues := s.queues[chat := q.(waiting := q.waiting + [job], accepted := q.accepted + [job])])
    else s.(dropped := s.dropped + if s.closed then 0 else 1)
  }

  predicate CanReceive<T>(s: Net<T>, a: nat) {
    && a < |s.workers| && s.workers[a].pc.Selecting?
    && s.workers[a].chat in s.queues && s.queues[s.workers[a].chat].waiting != []
  }

  function Received<T>(s: Net<T>, a: nat): Net<T>
    requires CanReceive(s, a)
  {
    var w := s.workers[a];
    var q := s.queues[w.chat];
    s.(queues := s.queues[w.chat := q.(waiting := q.waiting[1..])],
       workers := s.workers[a := w.(pc := Running(q.waiting[0]))])
  }

  predicate IsRunning<T>(s: Net<T>, a: nat) {
    a < |s.workers| && s.workers[a].pc.Running? && s.workers[a].chat in s.queues
  }

  function Finished<T>(s: Net<T>, a: nat, panics: bool): Net<T>
    requires IsRunning(s, a)
  {
    var w := s.workers[a];
    var q := s.queues[w.chat];
    s.(queues := s.queues[w.chat := q.(finished := q.finished + [w.pc.job])],
       workers := s.workers[a := w.(pc := Selecting)],
       panicked := s.panicked + if panics then 1 else 0)
  }

  /** The drain loop finds the channel empty. */
  predicate CanLeave<T>(s: Net<T>, a: nat) {
    && a < |s.workers| && s.workers[a].pc.Selecting? && s.closed
    && s.workers[a].chat in s.queues && s.queues[s.workers[a].chat].waiting == []
  }

  function Left<T>(s: Net<T>, a: nat): Net<T>
    requires CanLeave(s, a)
  {
    s.(workers := s.workers[a := s.workers[a].(pc := Exited)])
  }

  function Closed<T>(s: Net<T>): Net<T> {
    if s.closed then s
    else s.(closed := true, atClose := map chat | chat in s.queues :: s.queues[chat].accepted)
  }

  /** Wait has returned when every worker has left. */
  predicate Drained<T>(s: Net<T>) {
    s.closed && forall a :: 0 <= a < |s.workers| ==> s.workers[a].pc.Exited?
  }

  // What every step keeps.

  lemma EnteredOk<T>(s: Net<T>, chat: int)
    requires NetOk(s)
    ensures NetOk(Entered(s, chat)) && (!s.closed ==> chat in Entered(s, chat).queues)
  {
    var t := Entered(s, chat);
    if t != s {
      assert t.workers[|s.workers|].chat == chat;
      forall c | c in t.queues
        ensures exists a :: 0 <= a < |t.workers| && t.workers[a].chat == c
      {
        if c != chat {
          var a :| 0 <= a < |s.workers| && s.workers[a].chat == c;
          assert t.workers[a].chat == c;
        }
      }
      forall a | 0 <= a < |t.workers|
        ensures WorkerOk(t, a)
      {
        assert a < |s.workers| ==> WorkerOk(s, a) && t.workers[a] == s.workers[a];
      }
    }
  }

  lemma SentOk<T>(s: Net<T>, chat: int, job: T, arm: Arm)
    requires NetOk(s) && chat in s.queues
    ensures NetOk(Sent(s, chat, job, arm))
  {
    var t := Sent(s, chat, job, arm);
    forall a | 0 <= a < |t.workers|
      ensures WorkerOk(t, a)
    {
      assert WorkerOk(s, a);
    }
  }

  /** A worker's step keeps the others out of it, because the chat has no other. */
  lemma ReceivedOk<T>(s: Net<T>, a: nat)
    requires NetOk(s) && CanReceive(s, a)
    ensures NetOk(Received(s, a))
  {
    var t := Received(s, a);
    SameChats(s, t);
    forall b | 0 <= b < |t.workers|
      ensures WorkerOk(t, b)
    {
      assert WorkerOk(s, b);
    }
  }

  lemma FinishedOk<T>(s: Net<T>, a: nat, panics: bool)
    requires NetOk(s) && IsRunning(s, a)
    ensures NetOk(Finished(s, a, panics))
  {
    var t := Finished(s, a, panics);
    SameChats(s, t);
    var chat, q := s.workers[a].chat, s.queues[s.workers[a].chat];
    assert WorkerOk(s, a);
    assert Accounted(t.queues[chat], Selecting) by {
      assert q.finished + [s.workers[a].pc.job] + q.waiting == q.finished + [s.workers[a].pc.job] + [] + q.waiting;
    }
    forall b | 0 <= b < |t.workers|
      ensures WorkerOk(t, b)
    {
      assert WorkerOk(s, b);
      assert b != a ==> t.workers[b] == s.workers[b] && t.workers[b].chat != chat;
    }
  }

  lemma LeftOk<T>(s: Net<T>, a: nat)
    requires NetOk(s) && CanLeave(s, a)
    ensures NetOk(Left(s, a))
  {
    var t := Left(s, a);
    SameChats(s, t);
    forall b | 0 <= b < |t.workers|
      ensures WorkerOk(t, b)
    {
      assert WorkerOk(s, b);
    }
  }

  lemma ClosedOk<T>(s: Net<T>)
    requires NetOk(s)
    ensures NetOk(Closed(s))
  {
    forall b | 0 <= b < |s.workers|
      ensures WorkerOk(Closed(s), b)
    {
      assert WorkerOk(s, b);
    }
  }

  lemma SameChats<T>(s: Net<T>, t: Net<T>)
    requires Staffed(s) && s.queues.Keys == t.queues.Keys && |s.workers| == |t.workers|
    requires forall a :: 0 <= a < |s.workers| ==> t.workers[a].chat == s.workers[a].chat
    ensures Staffed(t)
  {
    forall chat | chat in t.queues
      ensures exists a :: 0 <= a < |t.workers| && t.workers[a].chat == chat
    {
      var a :| 0 <= a < |s.workers| && s.workers[a].chat == chat;
      assert t.workers[a].chat == chat;
    }
  }

  // What it means.

  /** How many jobs of a chat have been started. */
  function Begun<T>(q: Queue<T>): int {
    |q.accepted| - |q.waiting|
  }

  /** When a job runs, exactly the jobs accepted before it are over. */
  lemma RunningIsNext<T>(s: Net<T>, a: nat)
    requires NetOk(s) && IsRunning(s, a)
    ensures var q := s.queues[s.workers[a].chat];
            && |q.finished| < |q.accepted| && q.accepted[|q.finished|] == s.workers[a].pc.job
            && q.finished == q.accepted[..|q.finished|]
            && Begun(q) == |q.finished| + 1
  {
    assert WorkerOk(s, a);
  }

  /** Two jobs of one chat never run at once, whichever workers run them. */
  lemma NeverTogether<T>(s: Net<T>, a: nat, b: nat)
    requires NetOk(s) && IsRunning(s, a) && IsRunning(s, b) && s.workers[a].chat == s.workers[b].chat
    ensures a == b
  {
  }

  /** Every job accepted before Wait closed the door has run exactly once, in acceptance order,
      whatever panicked on the way. */
  lemma DrainedRanEverything<T>(s: Net<T>, chat: int)
    requires NetOk(s) && Drained(s) && chat in s.queues
    ensures s.atClose[chat] <= s.queues[chat].finished <= s.queues[chat].accepted
  {
    var a :| 0 <= a < |s.workers| && s.workers[a].chat == chat;
    assert WorkerOk(s, a);
    var q := s.queues[chat];
    assert q.accepted[..|q.finished|] == q.finished;
  }

  class Chats<T(==)> {
    var s: Net<T>

    constructor ()
      ensures NetOk(s) && s == Net(map[], [], false, 0, 0, map[])
    {
      s := Net(map[], [], false, 0, 0, map[]);
    }

    /** The locked part of TrySubmit: refused once closed, else the chat has its channel, and with
        a new channel its worker. */
    method Enter(chat: int) returns (ok: bool)
      requires NetOk(s)
      modifies this
      ensures NetOk(s) && s == Entered(old(s), chat) && ok == !s.closed && (ok ==> chat in s.queues)
    {
      EnteredOk(s, chat);
      if s.closed {
        return false;
      }
      if chat !in s.queues {
        s := s.(queues := s.queues[chat := Queue([], [], [])], workers := s.workers + [Worker(chat, Selecting)]);
      }
      return true;
    }

    /** The send, outside the lock: Wait may have closed the door since. It never blocks. */
    method Send(chat: int, job: T, arm: Arm) returns (accepted: bool)
      requires NetOk(s) && chat in s.queues
      modifies this
      ensures NetOk(s) && s == Sent(old(s), chat, job, arm) && accepted == Accepts(old(s), chat, arm)
      ensures |old(s).queues[chat].waiting| < 1024 && !old(s.closed) ==> accepted
      ensures |old(s).queues[chat].waiting| >= 1024 ==> !accepted
    {
      SentOk(s, chat, job, arm);
      var q := s.queues[chat];
      var room := |q.waiting| < Capacity;
      if room && !(s.closed && arm.QuitArm?) {
        s := s.(queues := s.queues[chat := q.(waiting := q.waiting + [job], accepted := q.accepted + [job])]);
        return true;
      }
      if !s.closed {
        s := s.(dropped := s.dropped + 1);
      }
      return false;
    }

    /** Any worker at its select may receive from its chat's channel. */
    method Receive(a: nat) returns (job: T)
      requires NetOk(s) && CanReceive(s, a)
      modifies this
      ensures NetOk(s) && s == Received(old(s), a) && s.workers[a].pc == Running(job)
    {
      ReceivedOk(s, a);
      var w := s.workers[a];
      var q := s.queues[w.chat];
      job := q.waiting[0];
      s := s.(queues := s.queues[w.chat := q.(waiting := q.waiting[1..])],
              workers := s.workers[a := w.(pc := Running(job))]);
    }

    /** run returns, by the job's end or by its contained panic; the worker goes on either way. */
    method Finish(a: nat, panics: bool)
      requires NetOk(s) && IsRunning(s, a)
      modifies this
      ensures NetOk(s) && s == Finished(old(s), a, panics)
    {
      FinishedOk(s, a, panics);
      var w := s.workers[a];
      var q := s.queues[w.chat];
      s := s.(queues := s.queues[w.chat := q.(finished := q.finished + [w.pc.job])],
              workers := s.workers[a := w.(pc := Selecting)]);
      if panics {
        s := s.(panicked := s.panicked + 1);
      }
    }

    method Leave(a: nat)
      requires NetOk(s) && CanLeave(s, a)
      modifies this
      ensures NetOk(s) && s == Left(old(s), a)
    {
      LeftOk(s, a);
      s := s.(workers := s.workers[a := s.workers[a].(pc := Exited)]);
    }

    /** Wait signals shutdown; a second call changes nothing. */
    method Close()
      requires NetOk(s)
      modifies this
      ensures NetOk(s) && s.closed && s == Closed(old(s))
    {
      ClosedOk(s);
      if !s.closed {
        s := s.(closed := true, atClose := map chat | chat in s.queues :: s.queues[chat].accepted);
      }
    }
  }
}
