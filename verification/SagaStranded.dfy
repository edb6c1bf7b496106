/** A saga that nobody will finish: it is half compensated, and no process, message or
    worker can bring about the compensation that would end it. */
module SagaStranded {
  import opened Base
  import opened Broker
  import opened SagaRows
  import opened SagaProtocol
  import opened SagaInvariant
  import opened SagaSteps
  import opened SagaTheorems
  import Ledger

  // ---------------------------------------------------------------------------
  // What can still lead to a compensation of saga `x`

  /** Process `p` of actor `a` is compensating the saga, or may come to it. */
  predicate Pursues(a: Actor, p: Proc, x: SagaId) {
    || (TaskOf(a, p).Some? && TaskOf(a, p).value.saga == x && !TaskOf(a, p).value.c.Finished?)
    || (a == Starter(x) && p.Start? && (p.start.ToRegister? || p.start.ToPublish?))
    || (p.Handle? && p.body == ConfirmationFailed(x) && p.reply.ToDispatch?)
    || (p.Reap? && p.ids != [] && x in p.ids[1..])
  }

  /** A worker can still answer the saga's command with a failure. */
  predicate MayRefuse(p: Part, phase: Ledger.Phase, x: SagaId) {
    match p.pc
    case ToInspect => CommandOf(p.body, x)
    case InSend => CommandOf(p.body, x) && (phase.Idle? || phase.Reserved? || (phase.Done? && phase.err))
    case ToReply(reply) => reply == ConfirmationFailed(x)
    case PartToSettle(_) => false
  }

  ghost predicate NonePursues(procs: map<Actor, Proc>, x: SagaId) {
    forall a :: a in procs ==> !Pursues(a, procs[a], x)
  }

  ghost predicate NoRefusal(q: Queue<ReplyBody>, x: SagaId) {
    forall m :: m in q.msgs ==> q.msgs[m].body != ConfirmationFailed(x)
  }

  ghost predicate NoneRefuses(parts: map<nat, Part>, workers: map<nat, Ledger.Phase>, x: SagaId) {
    forall w :: w in parts && w in workers ==> !MayRefuse(parts[w], workers[w], x)
  }

  /** No worker can refuse the command it has in hand, and none will be given it. */
  ghost predicate NoneAsked(s: System, x: SagaId) {
    NoneRefuses(s.parts, s.ledger.workers, x) && (s.ledger.workers.Keys == {} || !CommandOut(s.commands, x))
  }

  ghost predicate Stranded(s: System, x: SagaId) {
    InState(s.rows, x, Compensating) && NonePursues(s.procs, x) && NoRefusal(s.replies, x) && NoneAsked(s, x)
  }

  // ---------------------------------------------------------------------------
  // No step of the orchestrator takes the saga up

  lemma OneProcMoves(procs: map<Actor, Proc>, procs': map<Actor, Proc>, a: Actor, x: SagaId)
    requires NonePursues(procs, x) && (a in procs' ==> !Pursues(a, procs'[a], x))
    requires forall b :: b != a && b in procs' ==> b in procs && procs'[b] == procs[b]
    ensures NonePursues(procs', x)
  {
    hide Pursues;
  }

  /** Row `x` and the workers stay as they are, and only process `a` moves. */
  ghost predicate Spares(s: System, s': System, a: Actor, x: SagaId) {
    && (x in s.rows ==> x in s'.rows && s'.rows[x] == s.rows[x])
    && s'.parts == s.parts && s'.ledger == s.ledger
    && forall b :: b != a && b in s'.procs ==> b in s.procs && s'.procs[b] == s.procs[b]
  }

  lemma SparedStaysStranded(s: System, s': System, a: Actor, x: SagaId)
    requires Stranded(s, x) && Spares(s, s', a, x) && (a in s'.procs ==> !Pursues(a, s'.procs[a], x))
    requires NoRefusal(s'.replies, x) && (CommandOut(s'.commands, x) ==> CommandOut(s.commands, x))
    ensures Stranded(s', x)
  {
    hide Pursues, NoRefusal, NonePursues, NoneRefuses, CommandOut;
    OneProcMoves(s.procs, s'.procs, a, x);
  }

  lemma StarterSpares(s: System, y: SagaId, e: StartStep, x: SagaId)
    requires CanStart(s, y, e)
    ensures var s' := ApplyStart(s, y, e);
            && Spares(s, s', Starter(y), x) && s'.replies == s.replies
            && (!e.PublishCommand? ==> s'.commands == s.commands)
  {
    hide CommandFor, WithRows;
    match e
    case Begin(_, _) =>
    case CreateRow(_) =>
    case CancelReserved(_) =>
    case Register =>
    case PublishCommand(_) =>
    case Receive =>
    case GiveUp(_) =>
    case ReturnAfterCompensation =>
  }

  lemma StarterDoesNotPursue(s: System, y: SagaId, e: StartStep, x: SagaId)
    requires NonePursues(s.procs, x) && CanStart(s, y, e) && (y == x ==> !e.Begin? && !e.CreateRow?)
    ensures var procs := ApplyStart(s, y, e).procs;
            Starter(y) in procs ==> !Pursues(Starter(y), procs[Starter(y)], x)
  {
    hide CommandFor, InsertRow, WithRows;
    if Starter(y) in s.procs {
      assert !Pursues(Starter(y), s.procs[Starter(y)], x);
    }
    hide NonePursues;
    match e
    case Begin(_, _) =>
    case CreateRow(_) =>
    case CancelReserved(_) =>
    case Register =>
    case PublishCommand(_) =>
    case Receive =>
    case GiveUp(_) =>
    case ReturnAfterCompensation =>
  }

  lemma PublishesAnother(s: System, y: SagaId, out: Outcome, x: SagaId)
    requires NonePursues(s.procs, x) && CanStart(s, y, PublishCommand(out))
    ensures CommandOut(ApplyPublishCommand(s, y, out).commands, x) ==> CommandOut(s.commands, x)
  {
    assert !Pursues(Starter(y), s.procs[Starter(y)], x);
  }

  lemma NotBegunAgain(s: System, y: SagaId, e: StartStep, x: SagaId)
    requires Inv(s) && x in s.rows && CanStart(s, y, e)
    ensures y == x ==> !e.Begin? && !e.CreateRow?
  {
    hide ProcsInv, PartsInv, CommandsInv, RepliesInv, RowsInv, TransitInv, CancelsInv, WaitersInv, Ledger.Inv;
    OneRowOk(K(s), s.history, x);
    if e.CreateRow? {
      StarterIsOk(s, y);
    }
  }

  lemma StarterStrands(s: System, y: SagaId, e: StartStep, x: SagaId)
    requires Inv(s) && Stranded(s, x) && CanStart(s, y, e)
    ensures Stranded(ApplyStart(s, y, e), x)
  {
    hide Inv, Pursues, NonePursues, NoRefusal, NoneAsked, Spares, CommandOut, CanStart;
    StarterSpares(s, y, e, x);
    NotBegunAgain(s, y, e, x);
    StarterDoesNotPursue(s, y, e, x);
    if e.PublishCommand? {
      PublishesAnother(s, y, e.out, x);
    }
    hide ApplyStart;
    SparedStaysStranded(s, ApplyStart(s, y, e), Starter(y), x);
  }

  /** A task that can go on is of another saga. */
  lemma TaskIsAnothers(s: System, a: Actor, e: CompensationStep, x: SagaId)
    requires NonePursues(s.procs, x) && CanCompensate(s, a, e)
    ensures CurrentTask(s, a).saga != x && !Pursues(a, s.procs[a], x)
  {
    assert !Pursues(a, s.procs[a], x);
  }

  /** Where a step of compensate for saga `x` leads its process. */
  function AfterStep(rows: Rows, x: SagaId, e: CompensationStep): Compensation {
    match e
    case Claim(out) => AfterClaim(rows, x, out)
    case Fetch(ok) => AfterFetch(rows, x, ok)
    case Cancel(out) => if out.Ok? then ToMark else Finished(false)
    case Mark(out) => Finished(out.Ok?)
  }

  function RowsAfterStep(rows: Rows, x: SagaId, e: CompensationStep): Rows {
    if e.Claim? && e.out.TakesEffect() then ClaimRow(rows, x)
    else if e.Mark? && e.out.TakesEffect() then MarkRow(rows, x)
    else rows
  }

  ghost predicate MovesRowAndTask(s: System, s': System, a: Actor, rows: Rows, c: Compensation) {
    && s'.parts == s.parts && s'.ledger == s.ledger && s'.replies == s.replies && s'.commands == s.commands
    && s'.rows == rows && a in s.procs && s'.procs == s.procs[a := Resume(s.procs[a], c)]
  }

  lemma SetTaskMoves(s: System, t: System, a: Actor, c: Compensation)
    requires a in s.procs && t == s.(rows := t.rows, history := t.history, tried := t.tried, cancelled := t.cancelled)
    ensures MovesRowAndTask(s, SetTask(t, a, c), a, t.rows, c)
  {
    hide Resume;
  }

  /** A step of compensate moves one row and one process. */
  lemma CompensationFrame(s: System, a: Actor, e: CompensationStep)
    requires CanCompensate(s, a, e)
    ensures var x := CurrentTask(s, a).saga;
            MovesRowAndTask(s, ApplyCompensation(s, a, e), a, RowsAfterStep(s.rows, x, e), AfterStep(s.rows, x, e))
  {
    hide TaskOf, SetTask, AfterClaim, AfterFetch, WithRows, ClaimRow, MarkRow, MovesRowAndTask;
    var x, c := CurrentTask(s, a).saga, AfterStep(s.rows, CurrentTask(s, a).saga, e);
    match e
    case Claim(out) => SetTaskMoves(s, if out.TakesEffect() then WithRows(s, ClaimRow(s.rows, x), x) else s, a, c);
    case Fetch(_) => SetTaskMoves(s, s, a, c);
    case Cancel(out) => SetTaskMoves(s, RecordCancel(s, x, CurrentTask(s, a).c.subscriptionId, out), a, c);
    case Mark(out) => SetTaskMoves(s, if out.TakesEffect() then WithRows(s, MarkRow(s.rows, x), x) else s, a, c);
  }

  lemma ResumedIsAnothers(a: Actor, p: Proc, c: Compensation, x: SagaId)
    requires !Pursues(a, p, x) && TaskOf(a, p).Some? && TaskOf(a, p).value.saga != x
    ensures !Pursues(a, Resume(p, c), x)
  {
  }

  lemma CompensationStrands(s: System, a: Actor, e: CompensationStep, x: SagaId)
    requires Stranded(s, x) && CanCompensate(s, a, e)
    ensures Stranded(ApplyCompensation(s, a, e), x)
  {
    hide Pursues, NonePursues, NoRefusal, NoneAsked, CommandOut, TaskOf, Resume, ApplyCompensation, AfterStep;
    TaskIsAnothers(s, a, e, x);
    CompensationFrame(s, a, e);
    ResumedIsAnothers(a, s.procs[a], AfterStep(s.rows, CurrentTask(s, a).saga, e), x);
    SparedStaysStranded(s, ApplyCompensation(s, a, e), a, x);
  }

  lemma ReplierFrame(s: System, n: nat, e: ReplyStep)
    requires CanReply(s, n, e)
    ensures var s' := ApplyReply(s, n, e);
            && s'.parts == s.parts && s'.ledger == s.ledger && s'.commands == s.commands
            && forall b :: b != Replier(n) && b in s'.procs ==> b in s.procs && s'.procs[b] == s.procs[b]
  {
    hide Notify, WithRows, CompleteRow;
    match e
    case TakeReply(_) =>
    case Dispatch =>
    case Complete(_) =>
    case Signal =>
    case AfterCompensation =>
    case SettleReply =>
    case LoseReplyChannel =>
  }

  lemma ReplierSparesRow(s: System, n: nat, e: ReplyStep, x: SagaId)
    requires CanReply(s, n, e) && InState(s.rows, x, Compensating)
    ensures x in ApplyReply(s, n, e).rows && ApplyReply(s, n, e).rows[x] == s.rows[x]
  {
    hide Notify, WithRows;
    match e
    case TakeReply(_) =>
    case Dispatch =>
    case Complete(_) =>
    case Signal =>
    case AfterCompensation =>
    case SettleReply =>
    case LoseReplyChannel =>
  }

  lemma ReplierDoesNotPursue(s: System, n: nat, e: ReplyStep, x: SagaId)
    requires NonePursues(s.procs, x) && NoRefusal(s.replies, x) && CanReply(s, n, e)
    ensures var procs := ApplyReply(s, n, e).procs;
            Replier(n) in procs ==> !Pursues(Replier(n), procs[Replier(n)], x)
  {
    hide Notify, CompleteRow, WithRows;
    if Replier(n) in s.procs {
      assert !Pursues(Replier(n), s.procs[Replier(n)], x);
    }
    hide NonePursues;
    match e
    case TakeReply(_) =>
    case Dispatch =>
    case Complete(_) =>
    case Signal =>
    case AfterCompensation =>
    case SettleReply =>
    case LoseReplyChannel =>
  }

  lemma HandlersAddNoReply(s: System, n: nat, e: ReplyStep, x: SagaId)
    requires NoRefusal(s.replies, x) && CanReply(s, n, e)
    ensures NoRefusal(ApplyReply(s, n, e).replies, x)
  {
    hide Notify, CompleteRow;
    match e
    case TakeReply(_) =>
    case Dispatch =>
    case Complete(_) =>
    case Signal =>
    case AfterCompensation =>
    case SettleReply =>
    case LoseReplyChannel =>
  }

  lemma ReplierStrands(s: System, n: nat, e: ReplyStep, x: SagaId)
    requires Stranded(s, x) && CanReply(s, n, e)
    ensures Stranded(ApplyReply(s, n, e), x)
  {
    hide Pursues, NonePursues, NoRefusal, NoneAsked, CommandOut, CanReply, ApplyReply;
    ReplierFrame(s, n, e);
    ReplierSparesRow(s, n, e, x);
    ReplierDoesNotPursue(s, n, e, x);
    HandlersAddNoReply(s, n, e, x);
    SparedStaysStranded(s, ApplyReply(s, n, e), Replier(n), x);
  }

  /** A batch has no half-compensated saga, and a reaper goes on with what it has. */
  lemma ReaperDoesNotPursue(s: System, n: nat, e: ReapStep, x: SagaId)
    requires NonePursues(s.procs, x) && InState(s.rows, x, Compensating) && CanReap(s, n, e)
    ensures var procs := ApplyReap(s, n, e).procs;
            Reaper(n) in procs ==> !Pursues(Reaper(n), procs[Reaper(n)], x)
  {
    if Reaper(n) in s.procs {
      assert !Pursues(Reaper(n), s.procs[Reaper(n)], x);
    }
    hide NonePursues;
    match e
    case StartReap(now, ids) => assert forall i :: 0 <= i < |ids| ==> ids[i] in TimedOutIds(s.rows, now);
    case ReapNext =>
    case StopReap =>
  }

  lemma ReaperStrands(s: System, n: nat, e: ReapStep, x: SagaId)
    requires Stranded(s, x) && CanReap(s, n, e)
    ensures Stranded(ApplyReap(s, n, e), x)
  {
    hide Pursues, NonePursues, NoRefusal, NoneAsked, CommandOut, CanReap, ApplyReap;
    ReapFrame(s, n, e);
    ReaperDoesNotPursue(s, n, e, x);
    SparedStaysStranded(s, ApplyReap(s, n, e), Reaper(n), x);
  }

  // ---------------------------------------------------------------------------
  // No step of the notifier brings a refusal

  lemma WorkerStrands(s: System, w: nat, e: PartStep, x: SagaId)
    requires Inv(s) && Stranded(s, x) && CanWork(s, w, e)
    ensures Stranded(ApplyWork(s, w, e), x)
  {
    hide Pursues, NonePursues, CanWork, ApplyWork, Inv, NoRefusal, NoneRefuses, CommandOut, MayRefuse;
    WorkFrame(s, w, e);
    WorkerMovesLedger(s, w, e);
    WorkerMovesPart(s, w, e);
    WorkerAddsNoCommand(s, w, e, x);
    WorkerPublishesNoRefusal(s, w, e, x);
    WorkerDoesNotRefuse(s, w, e, x);
    var s' := ApplyWork(s, w, e);
    OneWorkerMoves(s.parts, s.ledger.workers, s'.parts, s'.ledger.workers, w, x);
  }

  lemma OneWorkerMoves(parts: map<nat, Part>, workers: map<nat, Ledger.Phase>, parts': map<nat, Part>,
                       workers': map<nat, Ledger.Phase>, w: nat, x: SagaId)
    requires NoneRefuses(parts, workers, x) && workers'.Keys == workers.Keys
    requires forall v :: v != w && v in parts' ==> v in parts && parts'[v] == parts[v]
    requires forall v :: v != w && v in workers ==> workers'[v] == workers[v]
    requires w in parts' && w in workers' ==> !MayRefuse(parts'[w], workers'[w], x)
    ensures NoneRefuses(parts', workers', x)
  {
    hide MayRefuse;
  }

  /** A step of the ledger is a step of one worker. */
  lemma LedgerMovesOne(l: Ledger.State, e: Ledger.Event)
    requires Ledger.Enabled(l, e)
    ensures Ledger.Apply(l, e).workers.Keys == l.workers.Keys
    ensures forall v :: v != e.w && v in l.workers ==> Ledger.Apply(l, e).workers[v] == l.workers[v]
  {
    hide Ledger.KeyOf;
  }

  lemma WorkerMovesLedger(s: System, w: nat, e: PartStep)
    requires CanWork(s, w, e)
    ensures var workers := ApplyWork(s, w, e).ledger.workers;
            && workers.Keys == s.ledger.workers.Keys
            && forall v :: v != w && v in s.ledger.workers ==> workers[v] == s.ledger.workers[v]
  {
    hide Ledger.Apply;
    match e
    case TakeCommand(_) =>
    case Inspect =>
    case ReturnFromSend => LedgerMovesOne(s.ledger, Ledger.Collect(w));
    case PublishReply(_) =>
    case SettleCommand =>
    case LoseCommandChannel =>
    case CrashWorker => LedgerMovesOne(s.ledger, Ledger.Crash(w));
  }

  lemma WorkerMovesPart(s: System, w: nat, e: PartStep)
    requires CanWork(s, w, e)
    ensures var parts := ApplyWork(s, w, e).parts;
            forall v :: v != w && v in parts ==> v in s.parts && parts[v] == s.parts[v]
  {
    hide Ledger.Apply;
    match e
    case TakeCommand(_) =>
    case Inspect =>
    case ReturnFromSend =>
    case PublishReply(_) =>
    case SettleCommand =>
    case LoseCommandChannel =>
    case CrashWorker =>
  }

  lemma WorkerAddsNoCommand(s: System, w: nat, e: PartStep, x: SagaId)
    requires CanWork(s, w, e)
    ensures CommandOut(ApplyWork(s, w, e).commands, x) ==> CommandOut(s.commands, x)
  {
    hide Ledger.Apply, CommandOf;
    match e
    case TakeCommand(_) =>
    case Inspect =>
    case ReturnFromSend =>
    case PublishReply(_) =>
    case SettleCommand =>
    case LoseCommandChannel =>
    case CrashWorker =>
  }

  lemma WorkerPublishesNoRefusal(s: System, w: nat, e: PartStep, x: SagaId)
    requires Inv(s) && NoRefusal(s.replies, x) && NoneRefuses(s.parts, s.ledger.workers, x) && CanWork(s, w, e)
    ensures NoRefusal(ApplyWork(s, w, e).replies, x)
  {
    hide Ledger.Apply, ProcsInv, PartsInv, CommandsInv, RepliesInv, RowsInv, TransitInv, CancelsInv, WaitersInv,
         Ledger.Inv;
    if e.PublishReply? {
      WorkerOk(s, w);
      assert !MayRefuse(s.parts[w], s.ledger.workers[w], x);
    }
    match e
    case TakeCommand(_) =>
    case Inspect =>
    case ReturnFromSend =>
    case PublishReply(_) =>
    case SettleCommand =>
    case LoseCommandChannel =>
    case CrashWorker =>
  }

  lemma WorkerDoesNotRefuse(s: System, w: nat, e: PartStep, x: SagaId)
    requires Inv(s) && NoneAsked(s, x) && CanWork(s, w, e)
    ensures var s' := ApplyWork(s, w, e);
            w in s'.parts && w in s'.ledger.workers ==> !MayRefuse(s'.parts[w], s'.ledger.workers[w], x)
  {
    hide ProcsInv, PartsInv, CommandsInv, RepliesInv, RowsInv, TransitInv, CancelsInv, WaitersInv, Ledger.Inv;
    hide Ledger.KeyOf;
    match e
    case TakeCommand(_) =>
    case Inspect => WorkerOk(s, w);
    case ReturnFromSend =>
    case PublishReply(_) =>
    case SettleCommand =>
    case LoseCommandChannel =>
    case CrashWorker =>
  }

  // ---------------------------------------------------------------------------
  // Whole runs

  lemma LedgerStrands(s: System, e: Ledger.Event, x: SagaId)
    requires Stranded(s, x) && LedgerStepAllowed(s, e)
    ensures Stranded(s.(ledger := Ledger.Apply(s.ledger, e)), x)
  {
    hide Pursues, NonePursues, NoRefusal, CommandOut;
    LedgerMovesOne(s.ledger, e);
    LedgerStepDoesNotRefuse(s, e, x);
    hide NoneRefuses, MayRefuse, Ledger.Apply;
    OneWorkerMoves(s.parts, s.ledger.workers, s.parts, Ledger.Apply(s.ledger, e).workers, e.w, x);
  }

  lemma LedgerStepDoesNotRefuse(s: System, e: Ledger.Event, x: SagaId)
    requires NoneRefuses(s.parts, s.ledger.workers, x) && LedgerStepAllowed(s, e)
    ensures e.w in s.parts ==> !MayRefuse(s.parts[e.w], Ledger.Apply(s.ledger, e).workers[e.w], x)
  {
    hide Ledger.KeyOf;
    if e.w in s.parts {
      assert !MayRefuse(s.parts[e.w], s.ledger.workers[e.w], x);
    }
  }

  /** Crashes of the orchestrator and messages that cannot be decoded. */
  lemma RestStrands(s: System, e: Event, x: SagaId)
    requires Stranded(s, x) && (e.CrashOrchestrator? || e.InjectBadCommand? || e.InjectBadReply?)
    ensures Stranded(Apply(s, e), x)
  {
  }

  lemma StepStrands(s: System, e: Event, x: SagaId)
    requires Inv(s) && Enabled(s, e) && Stranded(s, x)
    ensures Stranded(Apply(s, e), x)
  {
    hide Inv, Stranded, ApplyStart, ApplyCompensation, ApplyReply, ApplyReap, ApplyWork, Ledger.Apply,
         LedgerStepAllowed, CanStart, CanCompensate, CanReply, CanReap, CanWork;
    match e
    case OfStarter(y, step) => StarterStrands(s, y, step, x);
    case OfCompensation(a, step) => CompensationStrands(s, a, step, x);
    case OfReplier(n, step) => ReplierStrands(s, n, step, x);
    case OfReaper(n, step) => ReaperStrands(s, n, step, x);
    case OfWorker(w, step) => WorkerStrands(s, w, step, x);
    case OfLedger(step) => LedgerStrands(s, step, x);
    case _ => RestStrands(s, e, x);
  }

  lemma NotListed(s: System, x: SagaId)
    requires Stranded(s, x)
    ensures forall now, ids :: IsBatch(s.rows, now, REAPER_BATCH, ids) ==> x !in ids
  {
    forall now, ids | IsBatch(s.rows, now, REAPER_BATCH, ids) ensures x !in ids {
      assert forall i :: 0 <= i < |ids| ==> ids[i] in TimedOutIds(s.rows, now);
    }
  }

  /** A stranded saga stays stranded in every continuation of the run, and no batch that
      a reaper could list has it. */
  lemma {:induction false} StrandedStays(states: seq<System>, events: seq<Event>, i: nat, j: nat, x: SagaId)
    requires IsRun(states, events) && i <= j < |states| && Stranded(states[i], x)
    ensures Stranded(states[j], x)
    ensures forall now, ids :: IsBatch(states[j].rows, now, REAPER_BATCH, ids) ==> x !in ids
    decreases j
  {
    hide Inv, Enabled, Apply, Stranded, IsBatch;
    if i < j {
      StrandedStays(states, events, i, j - 1, x);
      RunInv(states, events, j - 1);
      StepStrands(states[j - 1], events[j - 1], x);
    }
    NotListed(states[j], x);
  }
}
