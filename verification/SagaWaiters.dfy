/** What a failure received through the waiter means when one reply is handled at
    a time and a CompleteIfAwaiting that reported an error had no effect. */
module SagaWaiters {
  import opened Base
  import opened SagaRows
  import opened SagaProtocol
  import opened SagaInvariant
  import opened SagaSteps
  import opened SagaTheorems
  import Ledger

  /** The sequential pump: at most one reply is in the hands of a handler. */
  ghost predicate OneReplyAtATime(s: System) {
    forall n, m :: Replier(n) in s.procs && Replier(m) in s.procs ==> n == m
  }

  predicate HidesCompletion(e: Event) {
    e.OfReplier? && e.reply == Complete(ErrAfterEffect)
  }

  predicate Announcing(p: Proc, x: SagaId) {
    p.Handle? && p.body == ConfirmationSent(x) && p.reply == ToSignal(Completed)
  }

  ghost predicate Announced(procs: map<Actor, Proc>, x: SagaId) {
    exists n :: Replier(n) in procs && Announcing(procs[Replier(n)], x)
  }

  /** A completion is in the waiter's buffer or about to be put there, and a
      buffered failure is a durable one. */
  ghost predicate SignalOk(rows: Rows, procs: map<Actor, Proc>, x: SagaId, buffer: Option<SagaState>) {
    && (buffer.Some? ==> buffer.value == Completed || (buffer.value == Failed && InState(rows, x, Failed)))
    && (InState(rows, x, Completed) ==> buffer == Some(Completed) || Announced(procs, x))
  }

  ghost predicate SignalsOk(rows: Rows, procs: map<Actor, Proc>, waiters: map<SagaId, Option<SagaState>>) {
    forall x :: x in waiters ==> SignalOk(rows, procs, x, waiters[x])
  }

  ghost predicate FailuresOk(rows: Rows, returned: map<SagaId, Return>) {
    forall x :: x in returned && returned[x] == FailureReported ==> InState(rows, x, Failed)
  }

  ghost predicate SequentialInv(s: System) {
    SignalsOk(s.rows, s.procs, s.waiters) && FailuresOk(s.rows, s.returned)
  }

  // ---------------------------------------------------------------------------
  // Steps that neither complete a saga nor signal

  ghost predicate Quiet(s: System, s': System) {
    && RowsGrow(s.rows, s'.rows)
    && NoneCompletes(s.rows, s'.rows)
    && (forall x :: x in s'.waiters ==> x in s.waiters && s'.waiters[x] == s.waiters[x])
    && (forall x :: x in s'.returned && s'.returned[x] == FailureReported ==>
          x in s.returned && s.returned[x] == FailureReported)
    && (forall x :: x in s'.waiters && Announced(s.procs, x) ==> Announced(s'.procs, x))
  }

  ghost predicate NoneCompletes(rows: Rows, rows': Rows) {
    forall x :: InState(rows', x, Completed) ==> InState(rows, x, Completed)
  }

  lemma MoveCompletesNone(rows: Rows, x: SagaId, from: SagaState, to: SagaState)
    requires to != Completed
    ensures NoneCompletes(rows, Move(rows, x, from, to)) && NoneCompletes(rows, rows)
  {
  }

  lemma InsertCompletesNone(rows: Rows, x: SagaId, row: Row)
    requires row.state == Awaiting
    ensures NoneCompletes(rows, InsertRow(rows, x, row)) && NoneCompletes(rows, rows)
  {
  }

  lemma QuietKeeps(s: System, s': System)
    requires SequentialInv(s) && Quiet(s, s')
    ensures SequentialInv(s')
  {
    forall x | x in s'.waiters ensures SignalOk(s'.rows, s'.procs, x, s'.waiters[x]) {
      assert SignalOk(s.rows, s.procs, x, s.waiters[x]);
    }
  }

  /** Handlers that were announcing a completion still are. */
  lemma AnnouncedKept(procs: map<Actor, Proc>, procs': map<Actor, Proc>, a: Actor)
    requires forall b :: b != a && b in procs ==> b in procs' && procs'[b] == procs[b]
    requires a in procs && a.Replier? ==> !procs[a].Handle? || !procs[a].reply.ToSignal?
    ensures forall x :: Announced(procs, x) ==> Announced(procs', x)
  {
    forall x | Announced(procs, x) ensures Announced(procs', x) {
      var n :| Replier(n) in procs && Announcing(procs[Replier(n)], x);
      assert Replier(n) in procs' && Announcing(procs'[Replier(n)], x);
    }
  }

  /** A step of one process that completes nothing and leaves waiters and returns alone. */
  lemma ProcStepQuiet(s: System, s': System, a: Actor)
    requires Forward(s, s') && NoneCompletes(s.rows, s'.rows)
    requires s'.waiters == s.waiters && s'.returned == s.returned
    requires forall b :: b != a && b in s.procs ==> b in s'.procs && s'.procs[b] == s.procs[b]
    requires a in s.procs && a.Replier? ==> !s.procs[a].Handle? || !s.procs[a].reply.ToSignal?
    ensures Quiet(s, s')
  {
    hide Announced;
    AnnouncedKept(s.procs, s'.procs, a);
  }

  lemma FinishQuiet(s: System, s': System, x: SagaId, r: Return)
    requires StarterFrame(s, s', x) && r != FailureReported
    requires s'.waiters == s.waiters - {x} && s'.returned == s.returned[x := r]
    ensures Quiet(s, s')
  {
    hide Announced;
    AnnouncedKept(s.procs, s'.procs, Starter(x));
  }

  lemma StartQuiet(s: System, x: SagaId, e: StartStep)
    requires CanStart(s, x, e) && !e.Register? && !e.Receive?
    ensures Quiet(s, ApplyStart(s, x, e))
  {
    hide Announced, Quiet, ApplyBegin, ApplyCreateRow, ApplyCancelReserved, ApplyPublishCommand, Finish;
    var s' := ApplyStart(s, x, e);
    match e
    case Begin(data, deadline) => BeginFrame(s, x, data, deadline); SameRowsQuiet(s, s', Starter(x));
    case CreateRow(out) => CreateQuiet(s, x, out);
    case CancelReserved(out) => CancelReservedFrame(s, x, out); FinishQuiet(s, s', x, StartFailed);
    case PublishCommand(out) => PublishFrame(s, x, out); SameRowsQuiet(s, s', Starter(x));
    case GiveUp(timeout) =>
      var r := if timeout then TimedOutWaiting else ContextDone;
      FinishFrame(s, x, r);
      FinishQuiet(s, s', x, r);
    case ReturnAfterCompensation => FinishFrame(s, x, PublishFailed); FinishQuiet(s, s', x, PublishFailed);
  }

  lemma CreateQuiet(s: System, x: SagaId, out: Outcome)
    requires CanStart(s, x, CreateRow(out))
    ensures Quiet(s, ApplyCreateRow(s, x, out))
  {
    hide Announced, NoneCompletes, Forward, Quiet;
    StartForward(s, x, CreateRow(out));
    InsertCompletesNone(s.rows, x, Row(Awaiting, s.issued[x], s.procs[Starter(x)].deadline));
    ProcStepQuiet(s, ApplyCreateRow(s, x, out), Starter(x));
  }

  lemma NoSignalDuringTask(s: System, a: Actor)
    requires TaskAt(s, a)
    ensures a.Replier? ==> !s.procs[a].Handle? || !s.procs[a].reply.ToSignal?
  {
  }

  lemma CompensationQuiet(s: System, a: Actor, e: CompensationStep)
    requires CanCompensate(s, a, e)
    ensures Quiet(s, ApplyCompensation(s, a, e))
  {
    hide Announced, NoneCompletes, Forward, Quiet, TaskOf, Resume;
    var s' := ApplyCompensation(s, a, e);
    CompensationForward(s, a, e);
    NoSignalDuringTask(s, a);
    var x := CurrentTask(s, a).saga;
    MoveCompletesNone(s.rows, x, Awaiting, Compensating);
    MoveCompletesNone(s.rows, x, Compensating, Failed);
    match e
    case Claim(_) => ProcStepQuiet(s, s', a);
    case Fetch(_) => ProcStepQuiet(s, s', a);
    case Cancel(_) => ProcStepQuiet(s, s', a);
    case Mark(_) => ProcStepQuiet(s, s', a);
  }

  lemma ReapQuiet(s: System, n: nat, e: ReapStep)
    requires CanReap(s, n, e)
    ensures Quiet(s, ApplyReap(s, n, e))
  {
    hide Announced, Quiet, CanReap, ApplyReap;
    ReapFrame(s, n, e);
    SameRowsQuiet(s, ApplyReap(s, n, e), Reaper(n));
  }

  /** A step of one process that leaves the rows, the waiters and the returns alone. */
  lemma SameRowsQuiet(s: System, s': System, a: Actor)
    requires s'.rows == s.rows && s'.waiters == s.waiters && s'.returned == s.returned
    requires forall b :: b != a && b in s.procs ==> b in s'.procs && s'.procs[b] == s.procs[b]
    requires a in s.procs && a.Replier? && s'.procs != s.procs ==> !s.procs[a].Handle? || !s.procs[a].reply.ToSignal?
    ensures Quiet(s, s')
  {
    hide Announced;
    if s'.procs != s.procs {
      AnnouncedKept(s.procs, s'.procs, a);
    }
  }

  lemma ReplyQuiet(s: System, n: nat, e: ReplyStep)
    requires CanReply(s, n, e) && !e.Complete? && !e.Signal?
    ensures Quiet(s, ApplyReply(s, n, e))
  {
    hide Announced, Quiet;
    var s' := ApplyReply(s, n, e);
    match e
    case TakeReply(_) => SameRowsQuiet(s, s', Replier(n));
    case Dispatch => SameRowsQuiet(s, s', Replier(n));
    case AfterCompensation => SameRowsQuiet(s, s', Replier(n));
    case SettleReply => SameRowsQuiet(s, s', Replier(n));
    case LoseReplyChannel => SameRowsQuiet(s, s', Replier(n));
  }

  lemma WorkQuiet(s: System, w: nat, e: PartStep)
    requires CanWork(s, w, e)
    ensures Quiet(s, ApplyWork(s, w, e))
  {
    hide Announced, Quiet, ApplyWork, CanWork;
    WorkFrame(s, w, e);
    SameRowsQuiet(s, ApplyWork(s, w, e), Reaper(0));
  }

  // ---------------------------------------------------------------------------
  // The four steps that matter

  lemma RegisterKeeps(s: System, x: SagaId)
    requires Inv(s) && SequentialInv(s) && CanStart(s, x, Register)
    ensures SequentialInv(ApplyRegister(s, x))
  {
    hide Ledger.Inv, PartsInv, TransitInv, CommandsInv, RepliesInv, CancelsInv, RowsInv, ProcsInv, WaitersInv,
         Announced;
    var s' := ApplyRegister(s, x);
    StarterIsOk(s, x);
    OneRowOk(K(s), s.history, x);
    AnnouncedKept(s.procs, s'.procs, Starter(x));
    forall y | y in s'.waiters ensures SignalOk(s'.rows, s'.procs, y, s'.waiters[y]) {
      if y != x {
        assert SignalOk(s.rows, s.procs, y, s.waiters[y]);
      }
    }
  }

  lemma ReceiveKeeps(s: System, x: SagaId)
    requires SequentialInv(s) && CanStart(s, x, Receive)
    ensures SequentialInv(ApplyReceive(s, x))
  {
    hide Announced;
    var s' := ApplyReceive(s, x);
    AnnouncedKept(s.procs, s'.procs, Starter(x));
    assert SignalOk(s.rows, s.procs, x, s.waiters[x]);
    forall y | y in s'.waiters ensures SignalOk(s'.rows, s'.procs, y, s'.waiters[y]) {
      assert SignalOk(s.rows, s.procs, y, s.waiters[y]);
    }
  }

  lemma CompleteKeeps(s: System, n: nat, out: Outcome)
    requires SequentialInv(s) && CanReply(s, n, Complete(out)) && out != ErrAfterEffect
    ensures SequentialInv(ApplyComplete(s, n, out))
  {
    hide Announced;
    var s' := ApplyComplete(s, n, out);
    var x := s.procs[Replier(n)].body.saga;
    AnnouncedKept(s.procs, s'.procs, Replier(n));
    if out.Ok? && InState(s.rows, x, Awaiting) {
      AnnouncedBy(s'.procs, n, x);
      SignalsFollow(s.rows, s.procs, s.waiters, s'.rows, s'.procs, x);
    } else {
      assert s'.rows == s.rows;
      SignalsFollow(s.rows, s.procs, s.waiters, s'.rows, s'.procs, x);
    }
  }

  /** Rows move and only an announced saga completes: the buffers still tell the truth. */
  lemma SignalsFollow(rows: Rows, procs: map<Actor, Proc>, waiters: map<SagaId, Option<SagaState>>,
                      rows': Rows, procs': map<Actor, Proc>, x: SagaId)
    requires SignalsOk(rows, procs, waiters) && (forall y :: Announced(procs, y) ==> Announced(procs', y))
    requires || rows' == rows
             || (InState(rows, x, Awaiting) && rows' == rows[x := rows[x].(state := Completed)] && Announced(procs', x))
    ensures SignalsOk(rows', procs', waiters)
  {
    hide Announced;
    forall y | y in waiters ensures SignalOk(rows', procs', y, waiters[y]) {
      assert SignalOk(rows, procs, y, waiters[y]);
    }
  }

  lemma AnnouncedBy(procs: map<Actor, Proc>, n: nat, x: SagaId)
    requires Replier(n) in procs && Announcing(procs[Replier(n)], x)
    ensures Announced(procs, x)
  {
  }

  /** With one handler, a failure signalled for a completed saga finds the buffer full. */
  lemma SignalKeeps(s: System, n: nat)
    requires Inv(s) && SequentialInv(s) && OneReplyAtATime(s) && CanReply(s, n, Signal)
    ensures SequentialInv(ApplySignal(s, n))
  {
    hide Ledger.Inv, PartsInv, TransitInv, CommandsInv, RepliesInv, CancelsInv, RowsInv, ProcsInv, WaitersInv;
    var s' := ApplySignal(s, n);
    var p := s.procs[Replier(n)];
    HandlerOk(s, n);
    forall y | y in s'.waiters ensures SignalOk(s'.rows, s'.procs, y, s'.waiters[y]) {
      assert SignalOk(s.rows, s.procs, y, s.waiters[y]);
      assert Announced(s.procs, y) ==> Announcing(p, y);
    }
  }

  // ---------------------------------------------------------------------------
  // Whole runs

  lemma SequentialStep(s: System, e: Event)
    requires Inv(s) && SequentialInv(s) && OneReplyAtATime(s) && Enabled(s, e) && !HidesCompletion(e)
    ensures SequentialInv(Apply(s, e))
  {
    hide SequentialInv, Quiet, Announced, OneReplyAtATime, ApplyStart, ApplyCompensation, ApplyReply, ApplyReap,
         ApplyWork,
         CanStart, CanCompensate, CanReply, CanReap, CanWork, LedgerStepAllowed, Ledger.Apply, Inv;
    match e
    case OfStarter(x, step) => StartKeeps(s, x, step);
    case OfCompensation(a, step) => CompensationQuiet(s, a, step); QuietKeeps(s, Apply(s, e));
    case OfReplier(n, step) => ReplyKeeps(s, n, step);
    case OfReaper(n, step) => ReapQuiet(s, n, step); QuietKeeps(s, Apply(s, e));
    case OfWorker(w, step) => WorkQuiet(s, w, step); QuietKeeps(s, Apply(s, e));
    case _ => SilentKeeps(s, Apply(s, e));
  }

  lemma SilentKeeps(s: System, s': System)
    requires SequentialInv(s) && s'.rows == s.rows && s'.returned == s.returned
    requires (s'.procs == s.procs && s'.waiters == s.waiters) || s'.waiters == map[]
    ensures SequentialInv(s')
  {
  }

  lemma StartKeeps(s: System, x: SagaId, e: StartStep)
    requires Inv(s) && SequentialInv(s) && CanStart(s, x, e)
    ensures SequentialInv(ApplyStart(s, x, e))
  {
    hide SequentialInv, Quiet, ApplyRegister, ApplyReceive, ProcsInv, PartsInv, CommandsInv, RepliesInv,
         TransitInv, CancelsInv, WaitersInv, Ledger.Inv;
    if e.Register? {
      RegisterKeeps(s, x);
    } else if e.Receive? {
      ReceiveKeeps(s, x);
    } else {
      StartQuiet(s, x, e);
      QuietKeeps(s, ApplyStart(s, x, e));
    }
  }

  lemma ReplyKeeps(s: System, n: nat, e: ReplyStep)
    requires Inv(s) && SequentialInv(s) && OneReplyAtATime(s) && CanReply(s, n, e) && e != Complete(ErrAfterEffect)
    ensures SequentialInv(ApplyReply(s, n, e))
  {
    hide SequentialInv, Quiet, ApplyComplete, ApplySignal, Inv, OneReplyAtATime;
    match e
    case Complete(out) => CompleteKeeps(s, n, out);
    case Signal => SignalKeeps(s, n);
    case _ => ReplyQuiet(s, n, e); QuietKeeps(s, ApplyReply(s, n, e));
  }

  ghost predicate IsSequentialRun(states: seq<System>, events: seq<Event>) {
    && IsRun(states, events)
    && (forall i :: 0 <= i < |states| ==> OneReplyAtATime(states[i]))
    && (forall i :: 0 <= i < |events| ==> !HidesCompletion(events[i]))
  }

  lemma {:induction false} SequentialRunInv(states: seq<System>, events: seq<Event>, i: nat)
    requires IsSequentialRun(states, events) && i < |states|
    ensures SequentialInv(states[i])
  {
    hide Enabled, Apply, Inv, OneReplyAtATime, HidesCompletion;
    if i > 0 {
      SequentialRunInv(states, events, i - 1);
      RunInv(states, events, i - 1);
      SequentialStep(states[i - 1], events[i - 1]);
    }
  }

  /** A failure that StartAndWait received through its waiter means the saga is
      durably failed, however late, duplicated or contradictory the replies were. */
  lemma FailureMeansFailed(states: seq<System>, events: seq<Event>, i: nat, j: nat, x: SagaId)
    requires IsSequentialRun(states, events) && i <= j < |states|
    requires x in states[i].returned && states[i].returned[x] == FailureReported
    ensures InState(states[i].rows, x, Failed) && InState(states[j].rows, x, Failed)
  {
    hide Enabled, Apply, OneReplyAtATime, HidesCompletion;
    SequentialRunInv(states, events, i);
    RunForward(states, events, i, j);
  }
}
