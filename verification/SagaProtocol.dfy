/** The subscribe saga as one transition system: request goroutines in
    StartAndWait, reply handlers, reapers, the saga table, the command and reply
    queues, the participant's workers and the dedup ledger. Each SQL statement,
    publish, send and settlement is one step; any step of any process may come
    next, faults and crashes included. */
module SagaProtocol {
  import opened Base
  import opened Broker
  import opened SagaRows
  import Ledger

  // ---------------------------------------------------------------------------
  // Messages

  /** A body the receiver cannot decode, or whose type it does not know, is `Bad`; a
      command of the known type can still have a payload that cannot be decoded. */
  datatype CommandBody =
    | BadCommand
    | BadPayload(saga: SagaId)
    | SendConfirmation(saga: SagaId, email: string, repo: string, confirmUrl: string)

  datatype ReplyBody =
    | BadReply
    | ConfirmationSent(saga: SagaId)
    | ConfirmationFailed(saga: SagaId)

  // ---------------------------------------------------------------------------
  // Processes

  /** Where a run of compensate stands. */
  datatype Compensation =
    | ToClaim
    | ToFetch
    | ToCancel(subscriptionId: int)
    | ToMark
    | Finished(ok: bool)

  datatype StartPc =
    | ToCreate
    | ToCancelReserved
    | ToRegister
    | ToPublish
    | StartCompensates(c: Compensation)
    | Waiting

  datatype ReplyPc =
    | ToDispatch
    | ToComplete
    | ToSignal(final: SagaState)
    | ReplyCompensates(c: Compensation)
    | ToSettle(action: Action)

  datatype Proc =
    | Start(deadline: int, start: StartPc)
    | Handle(msg: nat, body: ReplyBody, reply: ReplyPc)
    | Reap(ids: seq<SagaId>, c: Compensation)

  /** One request goroutine per saga; any number of reply handlers and reapers. */
  datatype Actor = Starter(saga: SagaId) | Replier(n: nat) | Reaper(n: nat)

  datatype PartPc =
    | ToInspect
    | InSend
    | ToReply(reply: ReplyBody)
    | PartToSettle(action: Action)

  datatype Part = Part(msg: nat, body: CommandBody, pc: PartPc)

  /** What StartAndWait returned. */
  datatype Return = Success | FailureReported | PublishFailed | TimedOutWaiting | ContextDone | StartFailed

  /** `issued`, `accepted`, `tried`, `cancelled`, `returned` and
      `history` record what happened; nothing in the source reads them. */
  datatype System = System(
    issued: map<SagaId, SubscriptionData>,
    rows: Rows,
    history: map<SagaId, seq<SagaState>>,
    procs: map<Actor, Proc>,
    waiters: map<SagaId, Option<SagaState>>,
    returned: map<SagaId, Return>,
    accepted: set<SagaId>,
    commands: Queue<CommandBody>,
    replies: Queue<ReplyBody>,
    tried: set<(SagaId, int)>,
    cancelled: set<SagaId>,
    parts: map<nat, Part>,
    ledger: Ledger.State)

  function Init(workers: set<nat>): System {
    System(map[], map[], map[], map[], map[], map[], {}, Queue(0, map[]), Queue(0, map[]), {}, {}, map[],
           Ledger.Init(workers))
  }

  /** One step of the request goroutine of a saga, in StartAndWait. */
  datatype StartStep =
    | Begin(data: SubscriptionData, deadline: int)
    | CreateRow(out: Outcome)
    | CancelReserved(out: Outcome)
    | Register
    | PublishCommand(out: Outcome)
    | Receive
    | GiveUp(timeout: bool)
    | ReturnAfterCompensation

  /** One step of compensate, run by any of its three callers. */
  datatype CompensationStep =
    | Claim(out: Outcome)
    | Fetch(ok: bool)
    | Cancel(out: Outcome)
    | Mark(out: Outcome)

  /** One step of the handler of a reply delivery. */
  datatype ReplyStep =
    | TakeReply(msg: nat)
    | Dispatch
    | Complete(out: Outcome)
    | Signal
    | AfterCompensation
    | SettleReply
    | LoseReplyChannel

  datatype ReapStep =
    | StartReap(now: int, ids: seq<SagaId>)
    | ReapNext
    | StopReap

  /** One step of a worker of the notification service. */
  datatype PartStep =
    | TakeCommand(msg: nat)
    | Inspect
    | ReturnFromSend
    | PublishReply(out: Outcome)
    | SettleCommand
    | LoseCommandChannel
    | CrashWorker

  datatype Event =
    | OfStarter(saga: SagaId, start: StartStep)
    | OfCompensation(actor: Actor, comp: CompensationStep)
    | OfReplier(n: nat, reply: ReplyStep)
    | OfReaper(n: nat, reap: ReapStep)
    | OfWorker(w: nat, part: PartStep)
    | OfLedger(ledger: Ledger.Event)
    | CrashOrchestrator
    | InjectBadCommand
    | InjectBadReply

  // ---------------------------------------------------------------------------
  // StartAndWait

  const REAPER_BATCH: nat := 100

  predicate StarterAt(s: System, x: SagaId, pc: StartPc) {
    && Starter(x) in s.procs && x in s.issued
    && s.procs[Starter(x)].Start? && s.procs[Starter(x)].start == pc
  }

  function SetStarter(s: System, x: SagaId, pc: StartPc): System
    requires Starter(x) in s.procs && s.procs[Starter(x)].Start?
  {
    s.(procs := s.procs[Starter(x) := s.procs[Starter(x)].(start := pc)])
  }

  function Finish(s: System, x: SagaId, r: Return): System {
    s.(procs := s.procs - {Starter(x)}, waiters := s.waiters - {x}, returned := s.returned[x := r])
  }

  function Record(history: map<SagaId, seq<SagaState>>, x: SagaId, state: SagaState): map<SagaId, seq<SagaState>> {
    history[x := (if x in history then history[x] else []) + [state]]
  }

  /** The table after a statement about row `x`, with the change of state recorded. */
  function WithRows(s: System, rows: Rows, x: SagaId): (s': System)
    ensures s' == s.(rows := rows, history := s'.history)
  {
    if x in rows && (x !in s.rows || s.rows[x].state != rows[x].state) then
      s.(rows := rows, history := Record(s.history, x, rows[x].state))
    else
      s.(rows := rows)
  }

  function ApplyBegin(s: System, x: SagaId, data: SubscriptionData, deadline: int): System {
    s.(issued := s.issued[x := data], procs := s.procs[Starter(x) := Start(deadline, ToCreate)])
  }

  function ApplyCreateRow(s: System, x: SagaId, out: Outcome): System
    requires StarterAt(s, x, ToCreate)
  {
    var row := Row(Awaiting, s.issued[x], s.procs[Starter(x)].deadline);
    var t := if out.TakesEffect() then WithRows(s, InsertRow(s.rows, x, row), x) else s;
    SetStarter(t, x, if out.Ok? then ToRegister else ToCancelReserved)
  }

  function ApplyCancelReserved(s: System, x: SagaId, out: Outcome): System
    requires StarterAt(s, x, ToCancelReserved)
  {
    Finish(RecordCancel(s, x, s.issued[x].subscriptionId, out), x, StartFailed)
  }

  function RecordCancel(s: System, x: SagaId, sub: int, out: Outcome): System {
    s.(tried := s.tried + {(x, sub)}, cancelled := if out.Ok? then s.cancelled + {x} else s.cancelled)
  }

  function ApplyRegister(s: System, x: SagaId): System
    requires StarterAt(s, x, ToRegister)
  {
    SetStarter(s.(waiters := s.waiters[x := None]), x, ToPublish)
  }

  function CommandFor(x: SagaId, data: SubscriptionData): CommandBody {
    SendConfirmation(x, data.email, data.repo, data.confirmUrl)
  }

  function ApplyPublishCommand(s: System, x: SagaId, out: Outcome): System
    requires StarterAt(s, x, ToPublish)
  {
    var t := if out.TakesEffect()
             then s.(accepted := s.accepted + {x}, commands := s.commands.Publish(CommandFor(x, s.issued[x])))
             else s;
    SetStarter(t, x, if out.Ok? then Waiting else StartCompensates(ToClaim))
  }

  function ApplyReceive(s: System, x: SagaId): System
    requires x in s.waiters && s.waiters[x].Some?
  {
    Finish(s, x, if s.waiters[x].value == Completed then Success else FailureReported)
  }

  // ---------------------------------------------------------------------------
  // compensate

  /** The saga that process `p` of actor `a` is compensating, and where it stands. */
  datatype Task = Task(saga: SagaId, c: Compensation)

  function TaskOf(a: Actor, p: Proc): Option<Task> {
    match p
    case Start(_, StartCompensates(c)) => if a.Starter? then Some(Task(a.saga, c)) else None
    case Handle(_, ConfirmationFailed(x), ReplyCompensates(c)) => Some(Task(x, c))
    case Reap(ids, c) => if ids != [] then Some(Task(ids[0], c)) else None
    case _ => None
  }

  predicate TaskAt(s: System, a: Actor) {
    a in s.procs && TaskOf(a, s.procs[a]).Some?
  }

  function CurrentTask(s: System, a: Actor): Task
    requires TaskAt(s, a)
  {
    TaskOf(a, s.procs[a]).value
  }

  function Resume(p: Proc, c: Compensation): Proc {
    match p
    case Start(_, StartCompensates(_)) => p.(start := StartCompensates(c))
    case Handle(_, _, ReplyCompensates(_)) => p.(reply := ReplyCompensates(c))
    case Reap(_, _) => p.(c := c)
    case _ => p
  }

  function SetTask(s: System, a: Actor, c: Compensation): System
    requires a in s.procs
  {
    s.(procs := s.procs[a := Resume(s.procs[a], c)])
  }

  function AfterClaim(rows: Rows, x: SagaId, out: Outcome): Compensation {
    if !out.Ok? then Finished(false)
    else if InState(rows, x, Awaiting) then ToCancel(rows[x].data.subscriptionId)
    else ToFetch
  }

  function ApplyClaim(s: System, a: Actor, out: Outcome): System
    requires TaskAt(s, a)
  {
    var x := CurrentTask(s, a).saga;
    var t := if out.TakesEffect() then WithRows(s, ClaimRow(s.rows, x), x) else s;
    SetTask(t, a, AfterClaim(s.rows, x, out))
  }

  function AfterFetch(rows: Rows, x: SagaId, ok: bool): Compensation {
    if !ok || x !in rows then Finished(false)
    else if rows[x].state != Compensating then Finished(true)
    else ToCancel(rows[x].data.subscriptionId)
  }

  function ApplyFetch(s: System, a: Actor, ok: bool): System
    requires TaskAt(s, a)
  {
    SetTask(s, a, AfterFetch(s.rows, CurrentTask(s, a).saga, ok))
  }

  function ApplyCancel(s: System, a: Actor, out: Outcome): System
    requires TaskAt(s, a) && CurrentTask(s, a).c.ToCancel?
  {
    var task := CurrentTask(s, a);
    SetTask(RecordCancel(s, task.saga, task.c.subscriptionId, out), a, if out.Ok? then ToMark else Finished(false))
  }

  function ApplyMark(s: System, a: Actor, out: Outcome): System
    requires TaskAt(s, a)
  {
    var x := CurrentTask(s, a).saga;
    var t := if out.TakesEffect() then WithRows(s, MarkRow(s.rows, x), x) else s;
    SetTask(t, a, Finished(out.Ok?))
  }

  // ---------------------------------------------------------------------------
  // The reply handler

  predicate ReplierAt(s: System, n: nat, pc: ReplyPc) {
    Replier(n) in s.procs && s.procs[Replier(n)].Handle? && s.procs[Replier(n)].reply == pc
  }

  function SetReplier(s: System, n: nat, pc: ReplyPc): System
    requires Replier(n) in s.procs && s.procs[Replier(n)].Handle?
  {
    s.(procs := s.procs[Replier(n) := s.procs[Replier(n)].(reply := pc)])
  }

  function ApplyTakeReply(s: System, n: nat, m: nat): System
    requires s.replies.Ready(m)
  {
    s.(replies := s.replies.Take(m, n), procs := s.procs[Replier(n) := Handle(m, s.replies.msgs[m].body, ToDispatch)])
  }

  function ApplyDispatch(s: System, n: nat): System
    requires ReplierAt(s, n, ToDispatch)
  {
    SetReplier(s, n,
               match s.procs[Replier(n)].body
               case BadReply => ToSettle(Drop)
               case ConfirmationSent(_) => ToComplete
               case ConfirmationFailed(_) => ReplyCompensates(ToClaim))
  }

  function ApplyComplete(s: System, n: nat, out: Outcome): System
    requires ReplierAt(s, n, ToComplete) && s.procs[Replier(n)].body.ConfirmationSent?
  {
    var x := s.procs[Replier(n)].body.saga;
    var t := if out.TakesEffect() then WithRows(s, CompleteRow(s.rows, x), x) else s;
    SetReplier(t, n,
               if !out.Ok? then ToSettle(Requeue)
               else if InState(s.rows, x, Awaiting) then ToSignal(Completed)
               else ToSettle(Ack))
  }

  /** A send on the buffered channel of the registered waiter; a second signal is dropped. */
  function Notify(waiters: map<SagaId, Option<SagaState>>, x: SagaId, final: SagaState)
    : map<SagaId, Option<SagaState>>
  {
    if x in waiters && waiters[x].None? then waiters[x := Some(final)] else waiters
  }

  function ApplySignal(s: System, n: nat): System
    requires Replier(n) in s.procs && s.procs[Replier(n)].Handle?
    requires s.procs[Replier(n)].reply.ToSignal? && !s.procs[Replier(n)].body.BadReply?
  {
    var p := s.procs[Replier(n)];
    SetReplier(s.(waiters := Notify(s.waiters, p.body.saga, p.reply.final)), n, ToSettle(Ack))
  }

  function ApplyAfterCompensation(s: System, n: nat): System
    requires Replier(n) in s.procs && s.procs[Replier(n)].Handle?
    requires s.procs[Replier(n)].reply.ReplyCompensates? && s.procs[Replier(n)].reply.c.Finished?
  {
    SetReplier(s, n, if s.procs[Replier(n)].reply.c.ok then ToSignal(Failed) else ToSettle(Requeue))
  }

  function ApplySettleReply(s: System, n: nat): System
    requires Replier(n) in s.procs && s.procs[Replier(n)].Handle? && s.procs[Replier(n)].reply.ToSettle?
  {
    var p := s.procs[Replier(n)];
    s.(replies := s.replies.Settle(p.msg, n, p.reply.action), procs := s.procs - {Replier(n)})
  }

  // ---------------------------------------------------------------------------
  // The reaper

  function ApplyReapNext(s: System, n: nat): System
    requires Reaper(n) in s.procs && s.procs[Reaper(n)].Reap? && s.procs[Reaper(n)].ids != []
  {
    var rest := s.procs[Reaper(n)].ids[1..];
    if rest == [] then s.(procs := s.procs - {Reaper(n)})
    else s.(procs := s.procs[Reaper(n) := Reap(rest, ToClaim)])
  }

  // ---------------------------------------------------------------------------
  // The participant

  predicate PartAt(s: System, w: nat, pc: PartPc) {
    w in s.parts && w in s.ledger.workers && s.parts[w].pc == pc
  }

  function SetPart(s: System, w: nat, pc: PartPc): System
    requires w in s.parts
  {
    s.(parts := s.parts[w := s.parts[w].(pc := pc)])
  }

  function MailFor(body: CommandBody): Ledger.Mail
    requires body.SendConfirmation?
  {
    Ledger.ConfirmationMail(body.email, body.confirmUrl, body.repo)
  }

  function ApplyTakeCommand(s: System, w: nat, m: nat): System
    requires s.commands.Ready(m)
  {
    s.(commands := s.commands.Take(m, w), parts := s.parts[w := Part(m, s.commands.msgs[m].body, ToInspect)])
  }

  function ApplyInspect(s: System, w: nat): System
    requires PartAt(s, w, ToInspect)
  {
    var body := s.parts[w].body;
    SetPart(s, w,
            if body.BadCommand? then PartToSettle(Drop)
            else if body.BadPayload? then ToReply(ConfirmationFailed(body.saga))
            else if body.email == "" || body.confirmUrl == "" || body.repo == ""
            then ToReply(ConfirmationFailed(body.saga))
            else InSend)
  }

  /** Workers that serve no saga command run the ledger protocol for mails of
      their own; a worker inside SendConfirmation reserves its command's mail. */
  predicate LedgerStepAllowed(s: System, e: Ledger.Event) {
    && Ledger.Enabled(s.ledger, e)
    && !e.Crash?
    && (e.w in s.parts ==>
          && s.parts[e.w].pc.InSend? && s.parts[e.w].body.SendConfirmation?
          && !e.Collect?
          && (e.Reserve? ==> e.mail == MailFor(s.parts[e.w].body)))
  }

  function ApplyReturnFromSend(s: System, w: nat): System
    requires PartAt(s, w, InSend) && s.ledger.workers[w].Done? && s.parts[w].body.SendConfirmation?
  {
    var x := s.parts[w].body.saga;
    SetPart(s.(ledger := Ledger.Apply(s.ledger, Ledger.Collect(w))), w,
            ToReply(if s.ledger.workers[w].err then ConfirmationFailed(x) else ConfirmationSent(x)))
  }

  function ApplyPublishReply(s: System, w: nat, out: Outcome): System
    requires w in s.parts && s.parts[w].pc.ToReply?
  {
    var t := if out.TakesEffect() then s.(replies := s.replies.Publish(s.parts[w].pc.reply)) else s;
    SetPart(t, w, PartToSettle(if out.Ok? then Ack else Requeue))
  }

  function ApplySettleCommand(s: System, w: nat): System
    requires w in s.parts && s.parts[w].pc.PartToSettle?
  {
    var p := s.parts[w];
    s.(commands := s.commands.Settle(p.msg, w, p.pc.action), parts := s.parts - {w})
  }

  // ---------------------------------------------------------------------------
  // Crashes

  /** All goroutines and waiters of the orchestrator are gone; rows and queues stay. */
  function ApplyCrashOrchestrator(s: System): System {
    s.(procs := map[], waiters := map[], replies := s.replies.ReleaseAll())
  }

  function ApplyCrashWorker(s: System, w: nat): System
    requires w in s.ledger.workers
  {
    var t := s.(ledger := Ledger.Apply(s.ledger, Ledger.Crash(w)));
    if w in s.parts
    then t.(commands := s.commands.Release(s.parts[w].msg, w), parts := s.parts - {w})
    else t
  }

  // ---------------------------------------------------------------------------
  // Steps and runs

  predicate CanStart(s: System, x: SagaId, e: StartStep) {
    match e
    case Begin(_, _) => x !in s.issued
    case CreateRow(_) => StarterAt(s, x, ToCreate)
    case CancelReserved(_) => StarterAt(s, x, ToCancelReserved)
    case Register => StarterAt(s, x, ToRegister)
    case PublishCommand(_) => StarterAt(s, x, ToPublish)
    case Receive => StarterAt(s, x, Waiting) && x in s.waiters && s.waiters[x].Some?
    case GiveUp(_) => StarterAt(s, x, Waiting)
    case ReturnAfterCompensation =>
      StarterAt(s, x, StartCompensates(Finished(true))) || StarterAt(s, x, StartCompensates(Finished(false)))
  }

  function ApplyStart(s: System, x: SagaId, e: StartStep): System
    requires CanStart(s, x, e)
  {
    match e
    case Begin(data, deadline) => ApplyBegin(s, x, data, deadline)
    case CreateRow(out) => ApplyCreateRow(s, x, out)
    case CancelReserved(out) => ApplyCancelReserved(s, x, out)
    case Register => ApplyRegister(s, x)
    case PublishCommand(out) => ApplyPublishCommand(s, x, out)
    case Receive => ApplyReceive(s, x)
    case GiveUp(timeout) => Finish(s, x, if timeout then TimedOutWaiting else ContextDone)
    case ReturnAfterCompensation => Finish(s, x, PublishFailed)
  }

  predicate CanCompensate(s: System, a: Actor, e: CompensationStep) {
    && TaskAt(s, a)
    && match e
       case Claim(_) => CurrentTask(s, a).c.ToClaim?
       case Fetch(_) => CurrentTask(s, a).c.ToFetch?
       case Cancel(_) => CurrentTask(s, a).c.ToCancel?
       case Mark(_) => CurrentTask(s, a).c.ToMark?
  }

  function ApplyCompensation(s: System, a: Actor, e: CompensationStep): System
    requires CanCompensate(s, a, e)
  {
    match e
    case Claim(out) => ApplyClaim(s, a, out)
    case Fetch(ok) => ApplyFetch(s, a, ok)
    case Cancel(out) => ApplyCancel(s, a, out)
    case Mark(out) => ApplyMark(s, a, out)
  }

  predicate Handling(s: System, n: nat) {
    Replier(n) in s.procs && s.procs[Replier(n)].Handle?
  }

  predicate CanReply(s: System, n: nat, e: ReplyStep) {
    match e
    case TakeReply(m) => Replier(n) !in s.procs && s.replies.Ready(m)
    case Dispatch => ReplierAt(s, n, ToDispatch)
    case Complete(_) => ReplierAt(s, n, ToComplete) && s.procs[Replier(n)].body.ConfirmationSent?
    case Signal => Handling(s, n) && s.procs[Replier(n)].reply.ToSignal? && !s.procs[Replier(n)].body.BadReply?
    case AfterCompensation =>
      Handling(s, n) && s.procs[Replier(n)].reply.ReplyCompensates? && s.procs[Replier(n)].reply.c.Finished?
    case SettleReply => Handling(s, n) && s.procs[Replier(n)].reply.ToSettle?
    case LoseReplyChannel => Handling(s, n)
  }

  function ApplyReply(s: System, n: nat, e: ReplyStep): System
    requires CanReply(s, n, e)
  {
    match e
    case TakeReply(m) => ApplyTakeReply(s, n, m)
    case Dispatch => ApplyDispatch(s, n)
    case Complete(out) => ApplyComplete(s, n, out)
    case Signal => ApplySignal(s, n)
    case AfterCompensation => ApplyAfterCompensation(s, n)
    case SettleReply => ApplySettleReply(s, n)
    case LoseReplyChannel => s.(replies := s.replies.Release(s.procs[Replier(n)].msg, n))
  }

  ghost predicate CanReap(s: System, n: nat, e: ReapStep) {
    match e
    case StartReap(now, ids) => Reaper(n) !in s.procs && ids != [] && IsBatch(s.rows, now, REAPER_BATCH, ids)
    case ReapNext => Reaping(s, n) && s.procs[Reaper(n)].ids != [] && s.procs[Reaper(n)].c.Finished?
    case StopReap => Reaping(s, n) && s.procs[Reaper(n)].c.ToClaim?
  }

  predicate Reaping(s: System, n: nat) {
    Reaper(n) in s.procs && s.procs[Reaper(n)].Reap?
  }

  ghost function ApplyReap(s: System, n: nat, e: ReapStep): System
    requires CanReap(s, n, e)
  {
    match e
    case StartReap(now, ids) => s.(procs := s.procs[Reaper(n) := Reap(ids, ToClaim)])
    case ReapNext => ApplyReapNext(s, n)
    case StopReap => s.(procs := s.procs - {Reaper(n)})
  }

  predicate CanWork(s: System, w: nat, e: PartStep) {
    match e
    case TakeCommand(m) => w in s.ledger.workers && w !in s.parts && s.ledger.workers[w].Idle? && s.commands.Ready(m)
    case Inspect => PartAt(s, w, ToInspect)
    case ReturnFromSend => PartAt(s, w, InSend) && s.ledger.workers[w].Done? && s.parts[w].body.SendConfirmation?
    case PublishReply(_) => w in s.parts && s.parts[w].pc.ToReply?
    case SettleCommand => w in s.parts && s.parts[w].pc.PartToSettle?
    case LoseCommandChannel => w in s.parts
    case CrashWorker => w in s.ledger.workers
  }

  function ApplyWork(s: System, w: nat, e: PartStep): System
    requires CanWork(s, w, e)
  {
    match e
    case TakeCommand(m) => ApplyTakeCommand(s, w, m)
    case Inspect => ApplyInspect(s, w)
    case ReturnFromSend => ApplyReturnFromSend(s, w)
    case PublishReply(out) => ApplyPublishReply(s, w, out)
    case SettleCommand => ApplySettleCommand(s, w)
    case LoseCommandChannel => s.(commands := s.commands.Release(s.parts[w].msg, w))
    case CrashWorker => ApplyCrashWorker(s, w)
  }

  ghost predicate Enabled(s: System, e: Event) {
    match e
    case OfStarter(x, step) => CanStart(s, x, step)
    case OfCompensation(a, step) => CanCompensate(s, a, step)
    case OfReplier(n, step) => CanReply(s, n, step)
    case OfReaper(n, step) => CanReap(s, n, step)
    case OfWorker(w, step) => CanWork(s, w, step)
    case OfLedger(step) => LedgerStepAllowed(s, step)
    case CrashOrchestrator => true
    case InjectBadCommand => true
    case InjectBadReply => true
  }

  ghost function Apply(s: System, e: Event): System
    requires Enabled(s, e)
  {
    match e
    case OfStarter(x, step) => ApplyStart(s, x, step)
    case OfCompensation(a, step) => ApplyCompensation(s, a, step)
    case OfReplier(n, step) => ApplyReply(s, n, step)
    case OfReaper(n, step) => ApplyReap(s, n, step)
    case OfWorker(w, step) => ApplyWork(s, w, step)
    case OfLedger(step) => s.(ledger := Ledger.Apply(s.ledger, step))
    case CrashOrchestrator => ApplyCrashOrchestrator(s)
    case InjectBadCommand => s.(commands := s.commands.Publish(BadCommand))
    case InjectBadReply => s.(replies := s.replies.Publish(BadReply))
  }

  ghost predicate IsPath(states: seq<System>, events: seq<Event>) {
    && |states| == |events| + 1
    && forall i :: 0 <= i < |events| ==>
         Enabled(states[i], events[i]) && states[i + 1] == Apply(states[i], events[i])
  }

  ghost predicate IsRun(states: seq<System>, events: seq<Event>) {
    IsPath(states, events) && exists workers :: states[0] == Init(workers)
  }
}
