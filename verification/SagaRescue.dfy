/** From which states a saga can still come to be failed: from all in which it is not
    completed, except when it is stranded. */
module SagaRescue {
  import opened Base
  import opened Broker
  import opened SagaRows
  import opened SagaProtocol
  import opened SagaInvariant
  import opened SagaSteps
  import opened SagaTheorems
  import opened SagaStranded
  import Ledger

  ghost predicate LeadsToFailed(s: System, states: seq<System>, events: seq<Event>, x: SagaId) {
    IsPath(states, events) && states[0] == s && InState(states[|events|].rows, x, Failed)
  }

  /** Some steps lead from here to a state in which the saga is failed. */
  ghost predicate CanFail(s: System, x: SagaId) {
    exists states, events :: LeadsToFailed(s, states, events, x)
  }

  lemma FailedCanFail(s: System, x: SagaId)
    requires InState(s.rows, x, Failed)
    ensures CanFail(s, x)
  {
    assert LeadsToFailed(s, [s], [], x);
  }

  lemma OneStepBefore(s: System, e: Event, x: SagaId)
    requires Enabled(s, e) && CanFail(Apply(s, e), x)
    ensures CanFail(s, x)
  {
    hide Enabled, Apply;
    var states, events :| LeadsToFailed(Apply(s, e), states, events, x);
    var states', events' := [s] + states, [e] + events;
    forall i | 0 <= i < |events'|
      ensures Enabled(states'[i], events'[i]) && states'[i + 1] == Apply(states'[i], events'[i]) {
      if i > 0 {
        assert states'[i] == states[i - 1] && events'[i] == events[i - 1] && states'[i + 1] == states[i];
      }
    }
    assert LeadsToFailed(s, states', events', x);
  }

  // ---------------------------------------------------------------------------
  // A compensation that is under way

  function StepsLeft(c: Compensation): nat {
    match c
    case ToClaim => 4
    case ToFetch => 3
    case ToCancel(_) => 2
    case ToMark => 1
    case Finished(_) => 0
  }

  predicate Uncompleted(rows: Rows, x: SagaId) {
    x in rows && rows[x].state != Completed
  }

  function NextStep(c: Compensation): CompensationStep {
    match c
    case ToClaim => Claim(Ok)
    case ToFetch => Fetch(true)
    case ToCancel(_) => Cancel(Ok)
    case ToMark => Mark(Ok)
    case Finished(_) => Mark(Ok)
  }

  ghost predicate Compensates(s: System, a: Actor, x: SagaId) {
    TaskAt(s, a) && CurrentTask(s, a).saga == x && !CurrentTask(s, a).c.Finished?
  }

  /** Without a fault every step of compensate comes closer to the end, and the last one
      leaves the saga failed. */
  lemma StepAdvances(k: Known, x: SagaId, c: Compensation)
    requires CompensationOk(k, x, c) && !c.Finished? && Uncompleted(k.rows, x) && !InState(k.rows, x, Failed)
    ensures var e := NextStep(c);
            var rows := RowsAfterStep(k.rows, x, e);
            || InState(rows, x, Failed)
            || (Uncompleted(rows, x) && StepsLeft(AfterStep(k.rows, x, e)) in {1, 2, 3} &&
                StepsLeft(AfterStep(k.rows, x, e)) < StepsLeft(c))
  {
  }

  lemma Resumes(a: Actor, p: Proc, c: Compensation)
    requires TaskOf(a, p).Some?
    ensures TaskOf(a, Resume(p, c)) == Some(Task(TaskOf(a, p).value.saga, c))
  {
  }

  lemma TaskAdvances(s: System, a: Actor, x: SagaId)
    requires Compensates(s, a, x) && CompensationOk(K(s), x, CurrentTask(s, a).c)
    requires Uncompleted(s.rows, x) && !InState(s.rows, x, Failed)
    ensures var e := OfCompensation(a, NextStep(CurrentTask(s, a).c));
            && Enabled(s, e)
            && var s' := Apply(s, e);
               || InState(s'.rows, x, Failed)
               || (Compensates(s', a, x) && Uncompleted(s'.rows, x) &&
                   StepsLeft(CurrentTask(s', a).c) < StepsLeft(CurrentTask(s, a).c))
  {
    hide TaskOf, Resume, ApplyCompensation, AfterStep, RowsAfterStep, CompensationOk;
    var c := CurrentTask(s, a).c;
    StepAdvances(K(s), x, c);
    CompensationFrame(s, a, NextStep(c));
    Resumes(a, s.procs[a], AfterStep(s.rows, x, NextStep(c)));
  }

  lemma {:induction false} TaskCanFail(s: System, a: Actor, x: SagaId)
    requires Inv(s) && Compensates(s, a, x) && Uncompleted(s.rows, x)
    ensures CanFail(s, x)
    decreases StepsLeft(CurrentTask(s, a).c)
  {
    if InState(s.rows, x, Failed) {
      FailedCanFail(s, x);
    } else {
      assert CompensationOk(K(s), x, CurrentTask(s, a).c) by { TaskOk(s, a); }
      TaskAdvances(s, a, x);
      hide Inv, CanFail, TaskOf, Enabled, Apply, CompensationOk, Compensates;
      var e := OfCompensation(a, NextStep(CurrentTask(s, a).c));
      var s' := Apply(s, e);
      if InState(s'.rows, x, Failed) {
        FailedCanFail(s', x);
      } else {
        StepKeepsInv(s, e);
        TaskCanFail(s', a, x);
      }
      OneStepBefore(s, e, x);
    }
  }

  // ---------------------------------------------------------------------------
  // Processes that come to compensate the saga

  lemma StarterCanFail(s: System, x: SagaId)
    requires Inv(s) && Uncompleted(s.rows, x) && (StarterAt(s, x, ToRegister) || StarterAt(s, x, ToPublish))
    ensures CanFail(s, x)
    decreases StarterAt(s, x, ToRegister)
  {
    hide Inv, CanFail;
    if StarterAt(s, x, ToRegister) {
      var e := OfStarter(x, Register);
      StepKeepsInv(s, e);
      StarterCanFail(Apply(s, e), x);
      OneStepBefore(s, e, x);
    } else {
      var e := OfStarter(x, PublishCommand(ErrNoEffect));
      StepKeepsInv(s, e);
      TaskCanFail(Apply(s, e), Starter(x), x);
      OneStepBefore(s, e, x);
    }
  }

  lemma HandlerCanFail(s: System, n: nat, x: SagaId)
    requires Inv(s) && Uncompleted(s.rows, x) && ReplierAt(s, n, ToDispatch)
    requires s.procs[Replier(n)].body == ConfirmationFailed(x)
    ensures CanFail(s, x)
  {
    hide Inv, CanFail;
    var e := OfReplier(n, Dispatch);
    StepKeepsInv(s, e);
    TaskCanFail(Apply(s, e), Replier(n), x);
    OneStepBefore(s, e, x);
  }

  /** Any task can be brought to its end by a fault, without a change to a row. */
  function Fault(c: Compensation): CompensationStep {
    match c
    case ToClaim => Claim(ErrNoEffect)
    case ToFetch => Fetch(false)
    case ToCancel(_) => Cancel(ErrNoEffect)
    case ToMark => Mark(ErrNoEffect)
    case Finished(_) => Mark(ErrNoEffect)
  }

  lemma ReaperStops(s: System, n: nat)
    requires Reaping(s, n) && s.procs[Reaper(n)].ids != [] && !s.procs[Reaper(n)].c.Finished?
    ensures var e := OfCompensation(Reaper(n), Fault(s.procs[Reaper(n)].c));
            && Enabled(s, e) && Reaping(Apply(s, e), n) && Apply(s, e).rows == s.rows
            && Apply(s, e).procs[Reaper(n)] == Reap(s.procs[Reaper(n)].ids, Finished(false))
  {
    hide ApplyCompensation;
    CompensationFrame(s, Reaper(n), Fault(s.procs[Reaper(n)].c));
  }

  lemma ReaperGoesOn(s: System, n: nat)
    requires Reaping(s, n) && |s.procs[Reaper(n)].ids| > 1 && s.procs[Reaper(n)].c.Finished?
    ensures var e := OfReaper(n, ReapNext);
            && Enabled(s, e) && Reaping(Apply(s, e), n) && Apply(s, e).rows == s.rows
            && Apply(s, e).procs[Reaper(n)] == Reap(s.procs[Reaper(n)].ids[1..], ToClaim)
  {
  }

  lemma {:induction false} ReaperCanFail(s: System, n: nat, x: SagaId)
    requires Inv(s) && Uncompleted(s.rows, x) && Reaping(s, n) && s.procs[Reaper(n)].ids != []
    requires x in s.procs[Reaper(n)].ids[1..]
    ensures CanFail(s, x)
    decreases |s.procs[Reaper(n)].ids|, StepsLeft(s.procs[Reaper(n)].c)
  {
    hide Inv, CanFail, Enabled, Apply;
    var p := s.procs[Reaper(n)];
    if p.c.Finished? {
      var e := OfReaper(n, ReapNext);
      ReaperGoesOn(s, n);
      StepKeepsInv(s, e);
      if p.ids[1] == x {
        TaskCanFail(Apply(s, e), Reaper(n), x);
      } else {
        ReaperCanFail(Apply(s, e), n, x);
      }
      OneStepBefore(s, e, x);
    } else {
      var e := OfCompensation(Reaper(n), Fault(p.c));
      ReaperStops(s, n);
      StepKeepsInv(s, e);
      ReaperCanFail(Apply(s, e), n, x);
      OneStepBefore(s, e, x);
    }
  }

  // ---------------------------------------------------------------------------
  // Messages and workers that lead to a failed reply

  lemma ReplyCanFail(s: System, m: nat, x: SagaId)
    requires Inv(s) && Uncompleted(s.rows, x) && m in s.replies.msgs && s.replies.msgs[m].body == ConfirmationFailed(x)
    ensures CanFail(s, x)
  {
    hide Inv, CanFail;
    StepKeepsInv(s, CrashOrchestrator);
    var t, e := Apply(s, CrashOrchestrator), OfReplier(0, TakeReply(m));
    StepKeepsInv(t, e);
    HandlerCanFail(Apply(t, e), 0, x);
    OneStepBefore(t, e, x);
    OneStepBefore(s, CrashOrchestrator, x);
  }

  function WorkLeft(pc: PartPc, phase: Ledger.Phase): nat {
    match pc
    case ToInspect => 3
    case InSend => if phase.Done? then 1 else 2
    case _ => 0
  }

  /** The step by which a worker comes closer to the answer that confirmation failed. */
  function Refuse(w: nat, p: Part, phase: Ledger.Phase): Event
    requires p.pc.InSend? ==> p.body.SendConfirmation?
  {
    match p.pc
    case ToInspect => OfWorker(w, Inspect)
    case InSend =>
      if phase.Idle? then OfLedger(Ledger.Reserve(w, MailFor(p.body), ErrNoEffect))
      else if phase.Reserved? then OfLedger(Ledger.Send(w, ErrNoEffect))
      else OfWorker(w, ReturnFromSend)
    case _ => OfWorker(w, PublishReply(Ok))
  }

  /** The worker can still refuse, and has less to do until then. */
  predicate ComesCloser(s: System, s': System, w: nat, x: SagaId) {
    && s'.rows == s.rows && w in s.parts && w in s.ledger.workers && w in s'.parts && w in s'.ledger.workers
    && MayRefuse(s'.parts[w], s'.ledger.workers[w], x)
    && WorkLeft(s'.parts[w].pc, s'.ledger.workers[w]) < WorkLeft(s.parts[w].pc, s.ledger.workers[w])
  }

  lemma InspectComesCloser(s: System, w: nat, x: SagaId)
    requires PartAt(s, w, ToInspect) && CommandOf(s.parts[w].body, x) && s.ledger.workers[w].Idle?
    ensures ComesCloser(s, ApplyInspect(s, w), w, x)
  {
  }

  lemma SendComesCloser(s: System, w: nat, x: SagaId)
    requires PartAt(s, w, InSend) && CommandOf(s.parts[w].body, x)
    requires s.ledger.workers[w].Idle? || s.ledger.workers[w].Reserved?
    ensures var e := Refuse(w, s.parts[w], s.ledger.workers[w]);
            && e.OfLedger? && LedgerStepAllowed(s, e.ledger)
            && ComesCloser(s, s.(ledger := Ledger.Apply(s.ledger, e.ledger)), w, x)
  {
    hide Ledger.KeyOf;
  }

  lemma ReturnComesCloser(s: System, w: nat, x: SagaId)
    requires PartAt(s, w, InSend) && CommandOf(s.parts[w].body, x)
    requires s.ledger.workers[w].Done? && s.ledger.workers[w].err
    ensures ComesCloser(s, ApplyReturnFromSend(s, w), w, x)
  {
  }

  lemma WorkerRefuses(s: System, w: nat, x: SagaId)
    requires Inv(s) && w in s.parts && w in s.ledger.workers && MayRefuse(s.parts[w], s.ledger.workers[w], x)
    requires !s.parts[w].pc.ToReply?
    ensures s.parts[w].pc.InSend? ==> s.parts[w].body.SendConfirmation?
    ensures var e := Refuse(w, s.parts[w], s.ledger.workers[w]); Enabled(s, e) && ComesCloser(s, Apply(s, e), w, x)
  {
    hide ProcsInv, PartsInv, CommandsInv, RepliesInv, RowsInv, TransitInv, CancelsInv, WaitersInv, Ledger.Inv,
         ComesCloser, Ledger.Apply, ApplyInspect, ApplyReturnFromSend, LedgerStepAllowed;
    WorkerOk(s, w);
    if s.parts[w].pc.ToInspect? {
      InspectComesCloser(s, w, x);
    } else if s.ledger.workers[w].Done? {
      ReturnComesCloser(s, w, x);
    } else {
      SendComesCloser(s, w, x);
    }
  }

  lemma {:induction false} WorkerCanFail(s: System, w: nat, x: SagaId)
    requires Inv(s) && Uncompleted(s.rows, x) && w in s.parts && w in s.ledger.workers
    requires MayRefuse(s.parts[w], s.ledger.workers[w], x)
    ensures CanFail(s, x)
    decreases WorkLeft(s.parts[w].pc, s.ledger.workers[w])
  {
    hide Inv, CanFail;
    if s.parts[w].pc.ToReply? {
      var e := OfWorker(w, PublishReply(Ok));
      StepKeepsInv(s, e);
      ReplyCanFail(Apply(s, e), s.replies.next, x);
      OneStepBefore(s, e, x);
    } else {
      WorkerRefuses(s, w, x);
      hide Enabled, Apply;
      var e := Refuse(w, s.parts[w], s.ledger.workers[w]);
      StepKeepsInv(s, e);
      WorkerCanFail(Apply(s, e), w, x);
      OneStepBefore(s, e, x);
    }
  }

  // ---------------------------------------------------------------------------
  // A command in the queue

  /** A command that is out with a worker is in that worker's hands. */
  ghost predicate HeldInHand(q: Queue<CommandBody>, parts: map<nat, Part>) {
    forall m :: m in q.msgs && q.msgs[m].holder.Some? ==>
      q.msgs[m].holder.value in parts && parts[q.msgs[m].holder.value].msg == m
  }

  lemma WorkKeepsInHand(s: System, w: nat, e: PartStep)
    requires HeldInHand(s.commands, s.parts) && CanWork(s, w, e)
    ensures HeldInHand(ApplyWork(s, w, e).commands, ApplyWork(s, w, e).parts)
  {
    hide Ledger.Apply;
    match e
    case TakeCommand(_) =>
    case Inspect =>
    case ReturnFromSend =>
    case PublishReply(_) =>
    case SettleCommand =>
    case LoseCommandChannel =>
    case CrashWorker =>
  }

  lemma StepKeepsInHand(s: System, e: Event)
    requires HeldInHand(s.commands, s.parts) && Enabled(s, e)
    ensures HeldInHand(Apply(s, e).commands, Apply(s, e).parts)
  {
    hide HeldInHand, ApplyStart, ApplyCompensation, ApplyReply, ApplyReap, ApplyWork, Ledger.Apply, LedgerStepAllowed,
         CanStart, CanCompensate, CanReply, CanReap, CanWork;
    match e
    case OfStarter(y, step) =>
      StarterSpares(s, y, step, y);
      if step.PublishCommand? {
        PublishKeepsInHand(s, y, step.out);
      }
    case OfCompensation(a, step) => CompensationFrame(s, a, step);
    case OfReplier(n, step) => ReplierFrame(s, n, step);
    case OfReaper(n, step) => ReapFrame(s, n, step);
    case OfWorker(w, step) => WorkKeepsInHand(s, w, step);
    case InjectBadCommand => PublishedIsReady(s.commands, BadCommand, s.parts);
    case _ =>
  }

  lemma PublishKeepsInHand(s: System, y: SagaId, out: Outcome)
    requires HeldInHand(s.commands, s.parts) && CanStart(s, y, PublishCommand(out))
    ensures HeldInHand(ApplyStart(s, y, PublishCommand(out)).commands, s.parts)
  {
    hide HeldInHand, CommandFor;
    PublishedIsReady(s.commands, CommandFor(y, s.issued[y]), s.parts);
  }

  lemma PublishedIsReady(q: Queue<CommandBody>, body: CommandBody, parts: map<nat, Part>)
    requires HeldInHand(q, parts)
    ensures HeldInHand(q.Publish(body), parts)
  {
  }

  lemma {:induction false} RunKeepsInHand(states: seq<System>, events: seq<Event>, i: nat)
    requires IsRun(states, events) && i < |states|
    ensures HeldInHand(states[i].commands, states[i].parts)
  {
    if i > 0 {
      hide HeldInHand, Enabled, Apply;
      RunKeepsInHand(states, events, i - 1);
      StepKeepsInHand(states[i - 1], events[i - 1]);
    }
  }

  /** The worker that has the command, or any worker if none has it. */
  lemma HolderOf(s: System, m: nat) returns (w: nat)
    requires Inv(s) && HeldInHand(s.commands, s.parts) && s.ledger.workers.Keys != {} && m in s.commands.msgs
    ensures w in s.ledger.workers
    ensures s.commands.Ready(m) || (s.commands.HeldBy(m, w) && w in s.parts && s.parts[w].msg == m)
  {
    hide ProcsInv, PartsInv, CommandsInv, RepliesInv, RowsInv, TransitInv, CancelsInv, WaitersInv, Ledger.Inv;
    w :| w in s.ledger.workers.Keys;
    if s.commands.msgs[m].holder.Some? {
      w := s.commands.msgs[m].holder.value;
      WorkerOk(s, w);
    }
  }

  /** Once it has restarted, it is idle and the command is ready. */
  lemma WorkerRestarts(s: System, m: nat, w: nat)
    requires w in s.ledger.workers && m in s.commands.msgs
    requires s.commands.Ready(m) || (s.commands.HeldBy(m, w) && w in s.parts && s.parts[w].msg == m)
    ensures var s' := ApplyCrashWorker(s, w);
            && s'.rows == s.rows && CanWork(s', w, TakeCommand(m))
            && s'.commands.msgs[m].body == s.commands.msgs[m].body
  {
    hide Ledger.KeyOf;
    var l := Ledger.Apply(s.ledger, Ledger.Crash(w));
    assert w in l.workers && l.workers[w].Idle?;
    hide Ledger.Apply;
  }

  lemma ReadyCommandCanFail(s: System, m: nat, w: nat, x: SagaId)
    requires Inv(s) && Uncompleted(s.rows, x) && CanWork(s, w, TakeCommand(m))
    requires CommandOf(s.commands.msgs[m].body, x)
    ensures CanFail(s, x)
  {
    hide Inv, CanFail;
    var e := OfWorker(w, TakeCommand(m));
    StepKeepsInv(s, e);
    WorkerCanFail(Apply(s, e), w, x);
    OneStepBefore(s, e, x);
  }

  lemma CommandCanFail(s: System, m: nat, x: SagaId)
    requires Inv(s) && HeldInHand(s.commands, s.parts) && Uncompleted(s.rows, x) && s.ledger.workers.Keys != {}
    requires m in s.commands.msgs && CommandOf(s.commands.msgs[m].body, x)
    ensures CanFail(s, x)
  {
    hide Inv, CanFail, ApplyCrashWorker, HeldInHand;
    var w := HolderOf(s, m);
    WorkerRestarts(s, m, w);
    var e := OfWorker(w, CrashWorker);
    StepKeepsInv(s, e);
    ReadyCommandCanFail(Apply(s, e), m, w, x);
    OneStepBefore(s, e, x);
  }

  // ---------------------------------------------------------------------------
  // A saga that is still awaiting

  /** A reaper in a restarted orchestrator takes the oldest sagas; in the end this is `x`. */
  lemma ReaperIsStarted(s: System, x: SagaId) returns (ids: seq<SagaId>)
    requires InState(s.rows, x, Awaiting)
    ensures var now, t := s.rows[x].timeoutAt + 1, Apply(s, CrashOrchestrator);
            var e := OfReaper(0, StartReap(now, ids));
            && Enabled(s, CrashOrchestrator) && Enabled(t, e) && ids != [] && ids[0] in TimedOutIds(s.rows, now)
            && Apply(t, e).rows == s.rows && Apply(t, e).procs == map[Reaper(0) := Reap(ids, ToClaim)]
  {
    ids := BatchExists(s.rows, s.rows[x].timeoutAt + 1, REAPER_BATCH);
    assert x in TimedOutIds(s.rows, s.rows[x].timeoutAt + 1);
  }

  /** A claimed saga is not listed again. */
  lemma ClaimShrinksBatch(s: System, ids: seq<SagaId>, now: int, x: SagaId)
    requires s.procs == map[Reaper(0) := Reap(ids, ToClaim)] && ids != [] && ids[0] in TimedOutIds(s.rows, now)
    requires ids[0] != x && x in s.rows
    ensures var e := Claim(Ok);
            && CanCompensate(s, Reaper(0), e)
            && var s' := ApplyCompensation(s, Reaper(0), e);
               && x in s'.rows && s'.rows[x] == s.rows[x]
               && TimedOutIds(s'.rows, now) == TimedOutIds(s.rows, now) - {ids[0]}
  {
    hide ApplyCompensation;
    CompensationFrame(s, Reaper(0), Claim(Ok));
  }

  lemma {:induction false} AwaitingCanFail(s: System, x: SagaId)
    requires Inv(s) && InState(s.rows, x, Awaiting)
    ensures CanFail(s, x)
    decreases TimedOutIds(s.rows, s.rows[x].timeoutAt + 1), 1
  {
    hide Inv, CanFail, Enabled, Apply, TimedOutIds;
    var ids := ReaperIsStarted(s, x);
    var t, e := Apply(s, CrashOrchestrator), OfReaper(0, StartReap(s.rows[x].timeoutAt + 1, ids));
    var u := Apply(t, e);
    assert Inv(u) by {
      StepKeepsInv(s, CrashOrchestrator);
      StepKeepsInv(t, e);
    }
    ReapedCanFail(u, ids, x);
    OneStepBefore(t, e, x);
    OneStepBefore(s, CrashOrchestrator, x);
  }

  lemma {:induction false} ReapedCanFail(s: System, ids: seq<SagaId>, x: SagaId)
    requires Inv(s) && InState(s.rows, x, Awaiting) && s.procs == map[Reaper(0) := Reap(ids, ToClaim)]
    requires ids != [] && ids[0] in TimedOutIds(s.rows, s.rows[x].timeoutAt + 1)
    ensures CanFail(s, x)
    decreases TimedOutIds(s.rows, s.rows[x].timeoutAt + 1), 0
  {
    hide Inv, CanFail, ApplyCompensation, TimedOutIds;
    if ids[0] == x {
      TaskCanFail(s, Reaper(0), x);
    } else {
      var e := OfCompensation(Reaper(0), Claim(Ok));
      ClaimShrinksBatch(s, ids, s.rows[x].timeoutAt + 1, x);
      StepKeepsInv(s, e);
      AwaitingCanFail(Apply(s, e), x);
      OneStepBefore(s, e, x);
    }
  }

  // ---------------------------------------------------------------------------
  // The exact condition

  lemma ProcCanFail(s: System, a: Actor, x: SagaId)
    requires Inv(s) && Uncompleted(s.rows, x) && a in s.procs && Pursues(a, s.procs[a], x)
    ensures CanFail(s, x)
  {
    hide Inv, CanFail;
    var p := s.procs[a];
    if TaskOf(a, p).Some? && TaskOf(a, p).value.saga == x && !TaskOf(a, p).value.c.Finished? {
      TaskCanFail(s, a, x);
    } else if p.Start? {
      SagaIsIssued(s, x);
      StarterCanFail(s, x);
    } else if p.Handle? {
      ActorIsReplier(s, a);
      HandlerCanFail(s, a.n, x);
    } else {
      ActorIsReaper(s, a);
      ReaperCanFail(s, a.n, x);
    }
  }

  lemma SagaIsIssued(s: System, x: SagaId)
    requires Inv(s) && x in s.rows
    ensures x in s.issued
  {
    hide ProcsInv, PartsInv, CommandsInv, RepliesInv, RowsInv, TransitInv, CancelsInv, WaitersInv, Ledger.Inv;
    OneRowOk(K(s), s.history, x);
  }

  lemma ActorIsReplier(s: System, a: Actor)
    requires Inv(s) && a in s.procs && s.procs[a].Handle?
    ensures a.Replier?
  {
    hide PartsInv, CommandsInv, RepliesInv, RowsInv, TransitInv, CancelsInv, WaitersInv, Ledger.Inv;
    assert ProcOk(K(s), s.waiters.Keys, s.replies, a, s.procs[a]);
  }

  lemma ActorIsReaper(s: System, a: Actor)
    requires Inv(s) && a in s.procs && s.procs[a].Reap?
    ensures a.Reaper?
  {
    hide PartsInv, CommandsInv, RepliesInv, RowsInv, TransitInv, CancelsInv, WaitersInv, Ledger.Inv;
    assert ProcOk(K(s), s.waiters.Keys, s.replies, a, s.procs[a]);
  }

  lemma UnstrandedCanFail(s: System, x: SagaId)
    requires Inv(s) && HeldInHand(s.commands, s.parts) && InState(s.rows, x, Compensating) && !Stranded(s, x)
    ensures CanFail(s, x)
  {
    hide Inv, CanFail, HeldInHand, Pursues, MayRefuse;
    if !NonePursues(s.procs, x) {
      var a :| a in s.procs && Pursues(a, s.procs[a], x);
      ProcCanFail(s, a, x);
    } else if !NoRefusal(s.replies, x) {
      var m :| m in s.replies.msgs && s.replies.msgs[m].body == ConfirmationFailed(x);
      ReplyCanFail(s, m, x);
    } else if !NoneRefuses(s.parts, s.ledger.workers, x) {
      var w :| w in s.parts && w in s.ledger.workers && MayRefuse(s.parts[w], s.ledger.workers[w], x);
      WorkerCanFail(s, w, x);
    } else {
      var m :| m in s.commands.msgs && CommandOf(s.commands.msgs[m].body, x);
      CommandCanFail(s, m, x);
    }
  }

  /** The run can be continued to one that ends with the saga failed. */
  ghost predicate CanComeToFail(states: seq<System>, events: seq<Event>, x: SagaId) {
    exists states': seq<System>, events' ::
      Continues(states, events, states', events') && InState(states'[|events'|].rows, x, Failed)
  }

  ghost predicate Continues(states: seq<System>, events: seq<Event>, states': seq<System>, events': seq<Event>) {
    IsRun(states', events') && states <= states' && events <= events'
  }

  lemma PathContinuesRun(states: seq<System>, events: seq<Event>, path: seq<System>, steps: seq<Event>)
    requires IsRun(states, events) && IsPath(path, steps) && path[0] == states[|events|]
    ensures Continues(states, events, states + path[1..], events + steps)
  {
    hide Enabled, Apply;
    var states', events' := states + path[1..], events + steps;
    forall i | 0 <= i < |events'|
      ensures Enabled(states'[i], events'[i]) && states'[i + 1] == Apply(states'[i], events'[i]) {
      if i >= |events| {
        var k := i - |events|;
        assert states'[i] == path[k] && events'[i] == steps[k] && states'[i + 1] == path[k + 1];
      }
    }
    assert states'[0] == states[0];
  }

  lemma UncompletedCanFail(s: System, x: SagaId)
    requires Inv(s) && HeldInHand(s.commands, s.parts) && Uncompleted(s.rows, x) && !Stranded(s, x)
    ensures CanFail(s, x)
  {
    hide Inv, CanFail, HeldInHand, Stranded;
    match s.rows[x].state
    case Awaiting => AwaitingCanFail(s, x);
    case Compensating => UnstrandedCanFail(s, x);
    case Failed => FailedCanFail(s, x);
  }

  /** A completed saga stays completed, a stranded one stays half compensated. */
  lemma NeverFails(states: seq<System>, events: seq<Event>, i: nat, j: nat, x: SagaId)
    requires IsRun(states, events) && i <= j < |states|
    requires InState(states[i].rows, x, Completed) || Stranded(states[i], x)
    ensures !InState(states[j].rows, x, Failed)
  {
    hide Enabled, Apply, NonePursues, NoRefusal, NoneAsked;
    RunForward(states, events, i, j);
    if Stranded(states[i], x) {
      StrandedStays(states, events, i, j, x);
    }
  }

  /** After any run, a saga that has a row can still come to be failed if and only if it
      is neither completed nor stranded. */
  lemma FailsUnlessStranded(states: seq<System>, events: seq<Event>, x: SagaId)
    requires IsRun(states, events) && x in states[|events|].rows
    ensures var s := states[|events|];
            CanComeToFail(states, events, x) <==> !InState(s.rows, x, Completed) && !Stranded(s, x)
  {
    hide Inv, Enabled, Apply, Stranded, HeldInHand;
    var s, n := states[|events|], |events|;
    if !InState(s.rows, x, Completed) && !Stranded(s, x) {
      RunInv(states, events, n);
      RunKeepsInHand(states, events, n);
      UncompletedCanFail(s, x);
      var path, steps :| LeadsToFailed(s, path, steps, x);
      PathContinuesRun(states, events, path, steps);
    } else if CanComeToFail(states, events, x) {
      var states': seq<System>, events' :|
        Continues(states, events, states', events') && InState(states'[|events'|].rows, x, Failed);
      NeverFails(states', events', n, |events'|, x);
    }
  }
}
