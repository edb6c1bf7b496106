/** Every step of the subscribe saga keeps the invariant. */
module SagaSteps {
  import opened Base
  import opened Broker
  import opened SagaRows
  import opened SagaProtocol
  import opened SagaInvariant
  import Ledger

  // ---------------------------------------------------------------------------
  // Steps inside the orchestrator: the queues and the notifier stay as they are

  ghost predicate InsideOrchestrator(s: System, s': System) {
    && s'.commands == s.commands && s'.replies == s.replies && s'.parts == s.parts && s'.ledger == s.ledger
    && s'.accepted == s.accepted
  }

  lemma RowsGrowKeepCovers(rows: Rows, rows': Rows, q: Queue<ReplyBody>)
    requires RowsGrow(rows, rows')
    ensures CoversGrow(rows, q, rows', q)
  {
  }

  /** The parts of the invariant that a step inside the orchestrator cannot hurt. */
  lemma QueuesKeptInside(s: System, s': System)
    requires Inv(s) && InsideOrchestrator(s, s') && Grows(K(s), K(s'))
    ensures PartsInv(K(s'), s'.commands, s'.replies, s'.parts, s'.ledger.workers)
    ensures CommandsInv(K(s'), s'.commands)
    ensures RepliesInv(K(s'), s'.replies)
    ensures TransitInv(s'.rows, s'.accepted, s'.commands, s'.replies)
    ensures Ledger.Inv(s'.ledger)
  {
    hide Ledger.Inv, ProcsInv, RowsInv, CancelsInv, WaitersInv, PartsInv, TransitInv;
    var k, k' := K(s), K(s');
    RowsGrowKeepCovers(s.rows, s'.rows, s.replies);
    PartsKeptAll(k, s.commands, s.replies, s.parts, s.ledger.workers, k');
    CommandsKept(k, s.commands, k', s'.commands);
    RepliesKept(k, s.replies, k', s'.replies);
    TransitKept(s.rows, s.accepted, s.commands, s.replies, s'.rows, s'.accepted, s'.commands, s'.replies);
  }

  lemma PartsKeptAll(k: Known, commands: Queue<CommandBody>, replies: Queue<ReplyBody>,
                     parts: map<nat, Part>, workers: map<nat, Ledger.Phase>, k': Known)
    requires PartsInv(k, commands, replies, parts, workers) && Grows(k, k')
    ensures PartsInv(k', commands, replies, parts, workers)
  {
    RowsGrowKeepCovers(k.rows, k'.rows, replies);
    forall w | w in parts ensures PartOk(k', commands, replies, parts[w], workers[w]) {
      PartStable(k, commands, replies, k', commands, replies, parts[w], workers[w]);
    }
  }

  // ---------------------------------------------------------------------------
  // Moving a row

  predicate Allowed(from: SagaState, to: SagaState) {
    || (from == Awaiting && (to == Completed || to == Compensating))
    || (from == Compensating && to == Failed)
  }

  lemma MoveOk(k: Known, history: map<SagaId, seq<SagaState>>, k': Known, x: SagaId, from: SagaState, to: SagaState)
    requires RowsInv(k, history) && Allowed(from, to) && InState(k.rows, x, from) && x in history
    requires to == Completed ==> Mailed(k, x) && x in k.accepted
    requires to == Failed ==> x in k.cancelled
    requires k' == k.(rows := k.rows[x := k.rows[x].(state := to)])
    ensures Grows(k, k') && RowsInv(k', history[x := history[x] + [to]])
  {
    hide RowsInv, Grows, RowOk;
    OneRowOk(k, history, x);
    RowMoves(k, history, k', x, from, to);
    AcceptedHaveRows(k, history);
    RowsKept(k, history, k', history[x := history[x] + [to]], x);
  }

  lemma RowMoves(k: Known, history: map<SagaId, seq<SagaState>>, k': Known, x: SagaId, from: SagaState, to: SagaState)
    requires Allowed(from, to) && InState(k.rows, x, from) && x in history && RowOk(k, history, x)
    requires to == Completed ==> Mailed(k, x) && x in k.accepted
    requires to == Failed ==> x in k.cancelled
    requires k' == k.(rows := k.rows[x := k.rows[x].(state := to)])
    ensures Grows(k, k') && RowOk(k', history[x := history[x] + [to]], x)
  {
    assert Path(from) + [to] == Path(to);
  }

  lemma OneRowOk(k: Known, history: map<SagaId, seq<SagaState>>, x: SagaId)
    requires RowsInv(k, history) && x in k.rows
    ensures RowOk(k, history, x)
  {
  }

  lemma AcceptedHaveRows(k: Known, history: map<SagaId, seq<SagaState>>)
    requires RowsInv(k, history)
    ensures forall x :: x in k.accepted || x in history ==> x in k.rows
  {
  }

  /** A guarded transition along the saga's path, recorded in its history. */
  lemma MoveKept(s: System, x: SagaId, from: SagaState, to: SagaState)
    requires RowsInv(K(s), s.history) && Allowed(from, to)
    requires to == Completed ==> Mailed(K(s), x) && x in s.accepted
    requires to == Failed ==> x in s.cancelled
    ensures var s' := WithRows(s, Move(s.rows, x, from, to), x);
            && Grows(K(s), K(s')) && RowsInv(K(s'), s'.history)
            && s'.rows.Keys == s.rows.Keys
            && s' == s.(rows := s'.rows, history := s'.history)
  {
    hide RowsInv;
    var s' := WithRows(s, Move(s.rows, x, from, to), x);
    if InState(s.rows, x, from) {
      OneRowOk(K(s), s.history, x);
      MoveOk(K(s), s.history, K(s'), x, from, to);
    } else {
      assert s' == s;
    }
  }

  // ---------------------------------------------------------------------------
  // compensate

  /** `s'` is `s` after a statement of compensate, with `a` standing at `c`. */
  ghost predicate CompensationStepTo(s: System, s': System, a: Actor, c: Compensation) {
    && TaskAt(s, a)
    && s'.procs == s.procs[a := Resume(s.procs[a], c)]
    && s'.rows.Keys == s.rows.Keys
    && s' == s.(rows := s'.rows, history := s'.history, procs := s'.procs, tried := s'.tried, cancelled := s'.cancelled)
  }

  lemma ResumedOk(k: Known, waiting: set<SagaId>, q: Queue<ReplyBody>, a: Actor, p: Proc, k': Known, c: Compensation)
    requires ProcOk(k, waiting, q, a, p) && TaskOf(a, p).Some? && Grows(k, k')
    requires CompensationOk(k', TaskOf(a, p).value.saga, c)
    ensures ProcOk(k', waiting, q, a, Resume(p, c))
  {
  }

  lemma CompensationKeepsInv(s: System, s': System, a: Actor, c: Compensation)
    requires Inv(s) && CompensationStepTo(s, s', a, c)
    requires Grows(K(s), K(s')) && RowsInv(K(s'), s'.history)
    requires CompensationOk(K(s'), CurrentTask(s, a).saga, c)
    requires forall x, sub :: (x, sub) in s'.tried ==> (x, sub) in s.tried || CancelOk(K(s'), s'.procs.Keys, x, sub)
    ensures Inv(s')
  {
    hide Ledger.Inv, PartsInv, TransitInv, RowsInv, CommandsInv, RepliesInv;
    var k, k' := K(s), K(s');
    QueuesKeptInside(s, s');
    ResumedOk(k, s.waiters.Keys, s.replies, a, s.procs[a], k', c);
    ProcsKept(k, s.waiters.Keys, s.replies, s.procs, k', s'.waiters.Keys, s'.replies, s'.procs, a);
    assert s'.procs.Keys == s.procs.Keys;
    CancelsKept(k, s.procs.Keys, s.tried, k', s'.procs.Keys, s'.tried);
    WaitersStay(s.rows, s.procs.Keys, s.waiters, s.returned, s'.rows);
  }

  lemma WaitersStay(rows: Rows, active: set<Actor>, waiters: map<SagaId, Option<SagaState>>,
                    returned: map<SagaId, Return>, rows': Rows)
    requires WaitersInv(rows, active, waiters, returned) && RowsGrow(rows, rows')
    ensures WaitersInv(rows', active, waiters, returned)
  {
  }

  lemma TaskOk(s: System, a: Actor)
    requires ProcsInv(K(s), s.waiters.Keys, s.replies, s.procs) && TaskAt(s, a)
    ensures CompensationOk(K(s), CurrentTask(s, a).saga, CurrentTask(s, a).c)
  {
    assert ProcOk(K(s), s.waiters.Keys, s.replies, a, s.procs[a]);
  }

  lemma ClaimKeepsInv(s: System, a: Actor, out: Outcome)
    requires Inv(s) && CanCompensate(s, a, Claim(out))
    ensures Inv(ApplyClaim(s, a, out))
  {
    hide Ledger.Inv, PartsInv, TransitInv, CommandsInv, RepliesInv, CancelsInv, WaitersInv, RowsInv, ProcsInv;
    var s' := ApplyClaim(s, a, out);
    var x := CurrentTask(s, a).saga;
    TaskOk(s, a);
    MoveKept(s, x, Awaiting, Compensating);
    CompensationKeepsInv(s, s', a, AfterClaim(s.rows, x, out));
  }

  lemma FetchKeepsInv(s: System, a: Actor, ok: bool)
    requires Inv(s) && CanCompensate(s, a, Fetch(ok))
    ensures Inv(ApplyFetch(s, a, ok))
  {
    hide Ledger.Inv, PartsInv, TransitInv, CommandsInv, RepliesInv, CancelsInv, WaitersInv, RowsInv, ProcsInv;
    var s' := ApplyFetch(s, a, ok);
    TaskOk(s, a);
    CompensationKeepsInv(s, s', a, AfterFetch(s.rows, CurrentTask(s, a).saga, ok));
  }

  /** A successful cancel only adds to what is known; no row changes. */
  lemma CancelledGrows(s: System, s': System, x: SagaId)
    requires RowsInv(K(s), s.history)
    requires s'.history == s.history && s'.cancelled >= s.cancelled && K(s') == K(s).(cancelled := s'.cancelled)
    ensures Grows(K(s), K(s')) && RowsInv(K(s'), s'.history)
    ensures x in s.rows ==> x in s.issued && s.rows[x].data == s.issued[x]
  {
    assert x in s.rows ==> RowOk(K(s), s.history, x);
    RowsKept(K(s), s.history, K(s'), s'.history, x);
  }

  lemma CancelKeepsInv(s: System, a: Actor, out: Outcome)
    requires Inv(s) && CanCompensate(s, a, Cancel(out))
    ensures Inv(ApplyCancel(s, a, out))
  {
    hide Ledger.Inv, PartsInv, TransitInv, CommandsInv, RepliesInv, CancelsInv, WaitersInv, RowsInv, ProcsInv;
    var s' := ApplyCancel(s, a, out);
    var x := CurrentTask(s, a).saga;
    TaskOk(s, a);
    CancelledGrows(s, s', x);
    CompensationKeepsInv(s, s', a, if out.Ok? then ToMark else Finished(false));
  }

  lemma MarkKeepsInv(s: System, a: Actor, out: Outcome)
    requires Inv(s) && CanCompensate(s, a, Mark(out))
    ensures Inv(ApplyMark(s, a, out))
  {
    hide Ledger.Inv, PartsInv, TransitInv, CommandsInv, RepliesInv, CancelsInv, WaitersInv, RowsInv, ProcsInv;
    var s' := ApplyMark(s, a, out);
    var x := CurrentTask(s, a).saga;
    TaskOk(s, a);
    MoveKept(s, x, Compensating, Failed);
    CompensationKeepsInv(s, s', a, Finished(out.Ok?));
  }

  lemma CompensationStepKeepsInv(s: System, a: Actor, e: CompensationStep)
    requires Inv(s) && CanCompensate(s, a, e)
    ensures Inv(ApplyCompensation(s, a, e))
  {
    hide Inv, ApplyClaim, ApplyFetch, ApplyCancel, ApplyMark;
    match e
    case Claim(out) => ClaimKeepsInv(s, a, out);
    case Fetch(ok) => FetchKeepsInv(s, a, ok);
    case Cancel(out) => CancelKeepsInv(s, a, out);
    case Mark(out) => MarkKeepsInv(s, a, out);
  }

  // ---------------------------------------------------------------------------
  // The reply handler and the reaper

  /** A step that changes one handler or reaper, and no durable state. */
  lemma ProcStepKeepsInv(s: System, s': System, a: Actor)
    requires Inv(s) && !a.Starter?
    requires s' == s.(procs := s'.procs)
    requires forall b :: b != a ==> (b in s'.procs <==> b in s.procs) && (b in s.procs ==> s'.procs[b] == s.procs[b])
    requires a in s'.procs ==> ProcOk(K(s), s.waiters.Keys, s.replies, a, s'.procs[a])
    ensures Inv(s')
  {
    hide Ledger.Inv, PartsInv, TransitInv, CommandsInv, RepliesInv, RowsInv, ProcsInv, CancelsInv, WaitersInv;
    assert K(s') == K(s);
    ProcsKept(K(s), s.waiters.Keys, s.replies, s.procs, K(s), s.waiters.Keys, s.replies, s'.procs, a);
    CancelsKept(K(s), s.procs.Keys, s.tried, K(s), s'.procs.Keys, s.tried);
    ActiveStartersSame(s.rows, s.procs.Keys, s.waiters, s.returned, s'.procs.Keys);
  }

  lemma ActiveStartersSame(rows: Rows, active: set<Actor>, waiters: map<SagaId, Option<SagaState>>,
                           returned: map<SagaId, Return>, active': set<Actor>)
    requires WaitersInv(rows, active, waiters, returned)
    requires forall x :: Starter(x) in active ==> Starter(x) in active'
    ensures WaitersInv(rows, active', waiters, returned)
  {
  }

  lemma DispatchKeepsInv(s: System, n: nat)
    requires Inv(s) && CanReply(s, n, Dispatch)
    ensures Inv(ApplyDispatch(s, n))
  {
    hide Ledger.Inv, PartsInv, TransitInv, CommandsInv, RepliesInv, RowsInv, CancelsInv, WaitersInv;
    assert ProcOk(K(s), s.waiters.Keys, s.replies, Replier(n), s.procs[Replier(n)]);
    ProcStepKeepsInv(s, ApplyDispatch(s, n), Replier(n));
  }

  lemma AfterCompensationKeepsInv(s: System, n: nat)
    requires Inv(s) && CanReply(s, n, AfterCompensation)
    ensures Inv(ApplyAfterCompensation(s, n))
  {
    hide Ledger.Inv, PartsInv, TransitInv, CommandsInv, RepliesInv, RowsInv, CancelsInv, WaitersInv;
    assert ProcOk(K(s), s.waiters.Keys, s.replies, Replier(n), s.procs[Replier(n)]);
    ProcStepKeepsInv(s, ApplyAfterCompensation(s, n), Replier(n));
  }

  lemma CompleteKeepsInv(s: System, n: nat, out: Outcome)
    requires Inv(s) && CanReply(s, n, Complete(out))
    ensures Inv(ApplyComplete(s, n, out))
  {
    hide Ledger.Inv, PartsInv, TransitInv, CommandsInv, RepliesInv, RowsInv, CancelsInv, WaitersInv, ProcsInv,
         QueueGrows, Grows, ProcOk;
    var s' := ApplyComplete(s, n, out);
    CompleteMoves(s, n, out);
    QueuesKeptInside(s, s');
    QueueGrowsRefl(s.replies);
    ProcsKept(K(s), s.waiters.Keys, s.replies, s.procs, K(s'), s'.waiters.Keys, s'.replies, s'.procs, Replier(n));
    CancelsKept(K(s), s.procs.Keys, s.tried, K(s'), s'.procs.Keys, s'.tried);
    GrowsGivesRows(K(s), K(s'));
    WaitersStay(s.rows, s.procs.Keys, s.waiters, s.returned, s'.rows);
  }

  lemma GrowsGivesRows(k: Known, k': Known)
    requires Grows(k, k')
    ensures RowsGrow(k.rows, k'.rows)
  {
  }

  /** What completing does to the table, and where it leaves its handler. */
  lemma CompleteMoves(s: System, n: nat, out: Outcome)
    requires RowsInv(K(s), s.history) && ProcsInv(K(s), s.waiters.Keys, s.replies, s.procs)
    requires CanReply(s, n, Complete(out))
    ensures var s' := ApplyComplete(s, n, out);
            && s' == s.(rows := s'.rows, history := s'.history, procs := s'.procs)
            && s'.procs == s.procs[Replier(n) := s'.procs[Replier(n)]] && s'.procs.Keys == s.procs.Keys
            && Grows(K(s), K(s')) && RowsInv(K(s'), s'.history) && s'.rows.Keys == s.rows.Keys
            && ProcOk(K(s'), s.waiters.Keys, s.replies, Replier(n), s'.procs[Replier(n)])
  {
    hide RowsInv, ProcsInv;
    HandlerOk(s, n);
    MoveKept(s, s.procs[Replier(n)].body.saga, Awaiting, Completed);
  }

  lemma HandlerOk(s: System, n: nat)
    requires ProcsInv(K(s), s.waiters.Keys, s.replies, s.procs) && Handling(s, n)
    ensures var p := s.procs[Replier(n)];
            SameBody(s.replies, p.msg, p.body) && ReplyBodyOk(K(s), p.body) && HandleOk(K(s), p.body, p.reply)
  {
    assert ProcOk(K(s), s.waiters.Keys, s.replies, Replier(n), s.procs[Replier(n)]);
  }

  lemma SignalKeepsInv(s: System, n: nat)
    requires Inv(s) && CanReply(s, n, Signal)
    ensures Inv(ApplySignal(s, n))
  {
    hide Ledger.Inv, PartsInv, TransitInv, CommandsInv, RepliesInv, RowsInv, CancelsInv, WaitersInv, ProcsInv;
    var s' := ApplySignal(s, n);
    var p := s.procs[Replier(n)];
    HandlerOk(s, n);
    assert s'.waiters.Keys == s.waiters.Keys && s'.procs.Keys == s.procs.Keys;
    assert K(s') == K(s);
    ProcsKept(K(s), s.waiters.Keys, s.replies, s.procs, K(s), s.waiters.Keys, s.replies, s'.procs, Replier(n));
    NotifyKeeps(s.rows, s.procs.Keys, s.waiters, s.returned, p.body.saga, p.reply.final);
  }

  lemma NotifyKeeps(rows: Rows, active: set<Actor>, waiters: map<SagaId, Option<SagaState>>,
                    returned: map<SagaId, Return>, x: SagaId, final: SagaState)
    requires WaitersInv(rows, active, waiters, returned)
    requires final == Completed ==> InState(rows, x, Completed)
    ensures WaitersInv(rows, active, Notify(waiters, x, final), returned)
  {
  }

  lemma ReapStepKeepsInv(s: System, n: nat, e: ReapStep)
    requires Inv(s) && CanReap(s, n, e)
    ensures Inv(ApplyReap(s, n, e))
  {
    hide Ledger.Inv, PartsInv, TransitInv, CommandsInv, RepliesInv, RowsInv, CancelsInv, WaitersInv, ProcsInv, ProcOk;
    ReaperStaysOk(s, n, e);
    hide IsBatch;
    ProcStepKeepsInv(s, ApplyReap(s, n, e), Reaper(n));
  }

  lemma ReaperStaysOk(s: System, n: nat, e: ReapStep)
    requires ProcsInv(K(s), s.waiters.Keys, s.replies, s.procs) && CanReap(s, n, e)
    ensures var procs := ApplyReap(s, n, e).procs;
            Reaper(n) in procs ==> ProcOk(K(s), s.waiters.Keys, s.replies, Reaper(n), procs[Reaper(n)])
  {
    assert Reaper(n) in s.procs ==> ProcOk(K(s), s.waiters.Keys, s.replies, Reaper(n), s.procs[Reaper(n)]);
    hide ProcsInv;
    match e
    case StartReap(now, ids) => assert forall i :: 0 <= i < |ids| ==> ids[i] in TimedOutIds(s.rows, now);
    case ReapNext =>
    case StopReap =>
  }

  // ---------------------------------------------------------------------------
  // The reply queue

  ghost predicate SameMessages<B(!new)>(q: Queue<B>, q': Queue<B>) {
    && q'.next == q.next && q'.msgs.Keys == q.msgs.Keys
    && forall m :: m in q.msgs ==> q'.msgs[m].body == q.msgs[m].body
  }

  lemma SameMessagesKeep(q: Queue<ReplyBody>, q': Queue<ReplyBody>, rows: Rows)
    requires SameMessages(q, q')
    ensures QueueGrows(q, q') && CoversGrow(rows, q, rows, q')
  {
    forall x | ReplyOut(q, x) ensures ReplyOut(q', x) {
      var m :| m in q.msgs && ReplyOf(q.msgs[m].body, x);
      assert ReplyOf(q'.msgs[m].body, x);
    }
  }

  /** A step of a reply handler that touches the reply queue. */
  lemma ReplyQueueStepKeepsInv(s: System, s': System, a: Actor)
    requires Inv(s) && !a.Starter?
    requires s' == s.(replies := s'.replies, procs := s'.procs)
    requires QueueGrows(s.replies, s'.replies) && RepliesInv(K(s), s'.replies)
    requires CoversGrow(s.rows, s.replies, s.rows, s'.replies)
    requires forall b :: b != a ==> (b in s'.procs <==> b in s.procs) && (b in s.procs ==> s'.procs[b] == s.procs[b])
    requires a in s'.procs ==> ProcOk(K(s), s.waiters.Keys, s'.replies, a, s'.procs[a])
    ensures Inv(s')
  {
    hide Ledger.Inv, PartsInv, TransitInv, CommandsInv, RepliesInv, RowsInv, ProcsInv, CancelsInv, WaitersInv,
         QueueGrows;
    assert K(s') == K(s);
    ProcsKept(K(s), s.waiters.Keys, s.replies, s.procs, K(s), s.waiters.Keys, s'.replies, s'.procs, a);
    CancelsKept(K(s), s.procs.Keys, s.tried, K(s), s'.procs.Keys, s.tried);
    ActiveStartersSame(s.rows, s.procs.Keys, s.waiters, s.returned, s'.procs.Keys);
    RepliesChangedKeepParts(K(s), s.commands, s.replies, s.parts, s.ledger.workers, s'.replies);
    RepliesChangedKeepTransit(s.rows, s.accepted, s.commands, s.replies, s'.replies);
  }

  lemma RepliesChangedKeepParts(k: Known, commands: Queue<CommandBody>, replies: Queue<ReplyBody>,
                                parts: map<nat, Part>, workers: map<nat, Ledger.Phase>, replies': Queue<ReplyBody>)
    requires PartsInv(k, commands, replies, parts, workers) && CoversGrow(k.rows, replies, k.rows, replies')
    ensures PartsInv(k, commands, replies', parts, workers)
  {
  }

  lemma RepliesChangedKeepTransit(rows: Rows, accepted: set<SagaId>, commands: Queue<CommandBody>,
                                  replies: Queue<ReplyBody>, replies': Queue<ReplyBody>)
    requires TransitInv(rows, accepted, commands, replies) && CoversGrow(rows, replies, rows, replies')
    ensures TransitInv(rows, accepted, commands, replies')
  {
  }

  lemma TakeReplyKeepsInv(s: System, n: nat, m: nat)
    requires Inv(s) && CanReply(s, n, TakeReply(m))
    ensures Inv(ApplyTakeReply(s, n, m))
  {
    hide Ledger.Inv, PartsInv, TransitInv, CommandsInv, RowsInv, ProcsInv, CancelsInv, WaitersInv;
    var s' := ApplyTakeReply(s, n, m);
    SameMessagesKeep(s.replies, s'.replies, s.rows);
    ReplyQueueStepKeepsInv(s, s', Replier(n));
  }

  lemma LoseReplyChannelKeepsInv(s: System, n: nat)
    requires Inv(s) && CanReply(s, n, LoseReplyChannel)
    ensures Inv(ApplyReply(s, n, LoseReplyChannel))
  {
    hide Ledger.Inv, PartsInv, TransitInv, CommandsInv, RowsInv, ProcsInv, CancelsInv, WaitersInv;
    var s' := ApplyReply(s, n, LoseReplyChannel);
    SameMessagesKeep(s.replies, s'.replies, s.rows);
    HandlerOk(s, n);
    ReplyQueueStepKeepsInv(s, s', Replier(n));
  }

  /** Settling a reply keeps every saga covered: an acked answer is no longer needed. */
  lemma SettleReplyCovers(q: Queue<ReplyBody>, m: nat, n: nat, action: Action, body: ReplyBody, k: Known)
    requires SameBody(q, m, body) && HandleOk(k, body, ToSettle(action))
    ensures CoversGrow(k.rows, q, k.rows, q.Settle(m, n, action)) && QueueGrows(q, q.Settle(m, n, action))
  {
    var q' := q.Settle(m, n, action);
    forall x | Covered(k.rows, q, x) ensures Covered(k.rows, q', x) {
      if !NotAwaiting(k.rows, x) {
        var i :| i in q.msgs && ReplyOf(q.msgs[i].body, x);
        assert i in q'.msgs && ReplyOf(q'.msgs[i].body, x);
      }
    }
  }

  lemma SettleReplyKeepsInv(s: System, n: nat)
    requires Inv(s) && CanReply(s, n, SettleReply)
    ensures Inv(ApplySettleReply(s, n))
  {
    hide Ledger.Inv, PartsInv, TransitInv, CommandsInv, RowsInv, ProcsInv, CancelsInv, WaitersInv;
    var s' := ApplySettleReply(s, n);
    var p := s.procs[Replier(n)];
    HandlerOk(s, n);
    SettleReplyCovers(s.replies, p.msg, n, p.reply.action, p.body, K(s));
    ReplyQueueStepKeepsInv(s, s', Replier(n));
  }

  lemma ReplyStepKeepsInv(s: System, n: nat, e: ReplyStep)
    requires Inv(s) && CanReply(s, n, e)
    ensures Inv(ApplyReply(s, n, e))
  {
    hide Inv, ApplyTakeReply, ApplyDispatch, ApplyComplete, ApplySignal, ApplyAfterCompensation, ApplySettleReply;
    match e
    case TakeReply(m) => TakeReplyKeepsInv(s, n, m);
    case Dispatch => DispatchKeepsInv(s, n);
    case Complete(out) => CompleteKeepsInv(s, n, out);
    case Signal => SignalKeepsInv(s, n);
    case AfterCompensation => AfterCompensationKeepsInv(s, n);
    case SettleReply => SettleReplyKeepsInv(s, n);
    case LoseReplyChannel => LoseReplyChannelKeepsInv(s, n);
  }

  // ---------------------------------------------------------------------------
  // The request goroutine

  /** A step of the starter of `x` that leaves the queues alone. */
  lemma StarterStepKeepsInv(s: System, s': System, x: SagaId)
    requires Inv(s) && InsideOrchestrator(s, s') && Grows(K(s), K(s')) && RowsInv(K(s'), s'.history)
    requires forall y :: y != x ==> SameForStarter(K(s), s.waiters.Keys, K(s'), s'.waiters.Keys, y)
    requires forall b :: b != Starter(x) ==>
        (b in s'.procs <==> b in s.procs) && (b in s.procs ==> s'.procs[b] == s.procs[b])
    requires Starter(x) in s'.procs ==> ProcOk(K(s'), s'.waiters.Keys, s'.replies, Starter(x), s'.procs[Starter(x)])
    requires Starter(x) in s'.procs ==> Starter(x) in s.procs || x !in s.issued
    requires forall y, sub :: (y, sub) in s'.tried ==> (y, sub) in s.tried || CancelOk(K(s'), s'.procs.Keys, y, sub)
    requires WaitersInv(s'.rows, s'.procs.Keys, s'.waiters, s'.returned)
    ensures Inv(s')
  {
    hide Ledger.Inv, PartsInv, TransitInv, CommandsInv, RepliesInv, RowsInv, ProcsInv, CancelsInv, WaitersInv, Grows,
         RowsGrow, CancelOk;
    QueuesKeptInside(s, s');
    QueueGrowsRefl(s.replies);
    ProcsKept(K(s), s.waiters.Keys, s.replies, s.procs, K(s'), s'.waiters.Keys, s'.replies, s'.procs, Starter(x));
    CancelsKept(K(s), s.procs.Keys, s.tried, K(s'), s'.procs.Keys, s'.tried);
  }

  lemma QueueGrowsRefl<B(!new)>(q: Queue<B>)
    ensures QueueGrows(q, q)
  {
  }

  lemma BeginKeepsInv(s: System, x: SagaId, data: SubscriptionData, deadline: int)
    requires Inv(s) && CanStart(s, x, Begin(data, deadline))
    ensures Inv(ApplyBegin(s, x, data, deadline))
  {
    hide Ledger.Inv, PartsInv, TransitInv, CommandsInv, RepliesInv, CancelsInv, RowsInv, ProcsInv, WaitersInv;
    var s' := ApplyBegin(s, x, data, deadline);
    IssuingKeepsRows(s, s', x, data);
    NoWaiterBeforeBegin(s, x);
    MoreActive(s.rows, s.procs.Keys, s.waiters, s.returned, s'.procs.Keys);
    StarterStepKeepsInv(s, s', x);
  }

  lemma IssuingKeepsRows(s: System, s': System, x: SagaId, data: SubscriptionData)
    requires RowsInv(K(s), s.history) && x !in s.issued
    requires K(s') == K(s).(issued := s.issued[x := data]) && s'.history == s.history
    ensures x !in s.rows && x !in s.accepted && Grows(K(s), K(s')) && RowsInv(K(s'), s'.history)
  {
    assert x in s.rows ==> RowOk(K(s), s.history, x);
    forall y | y in s'.rows ensures RowOk(K(s'), s'.history, y) {
      assert RowOk(K(s), s.history, y);
    }
  }

  lemma MoreActive(rows: Rows, active: set<Actor>, waiters: map<SagaId, Option<SagaState>>,
                   returned: map<SagaId, Return>, active': set<Actor>)
    requires WaitersInv(rows, active, waiters, returned) && active <= active'
    ensures WaitersInv(rows, active', waiters, returned)
  {
  }

  lemma NoWaiterBeforeBegin(s: System, x: SagaId)
    requires ProcsInv(K(s), s.waiters.Keys, s.replies, s.procs)
    requires WaitersInv(s.rows, s.procs.Keys, s.waiters, s.returned)
    requires x !in s.issued
    ensures x !in s.waiters && Starter(x) !in s.procs
  {
  }

  lemma CreateRowKeepsInv(s: System, x: SagaId, out: Outcome)
    requires Inv(s) && CanStart(s, x, CreateRow(out))
    ensures Inv(ApplyCreateRow(s, x, out))
  {
    hide Ledger.Inv, PartsInv, TransitInv, CommandsInv, RepliesInv, CancelsInv, RowsInv, ProcsInv, WaitersInv;
    var s' := ApplyCreateRow(s, x, out);
    StarterIsOk(s, x);
    InsertKept(s, s', x, s.procs[Starter(x)].deadline);
    assert s'.procs.Keys == s.procs.Keys;
    WaitersStay(s.rows, s.procs.Keys, s.waiters, s.returned, s'.rows);
    StarterStepKeepsInv(s, s', x);
  }

  lemma StarterIsOk(s: System, x: SagaId)
    requires ProcsInv(K(s), s.waiters.Keys, s.replies, s.procs) && Starter(x) in s.procs
    ensures s.procs[Starter(x)].Start? && StarterOk(K(s), s.waiters.Keys, x, s.procs[Starter(x)].start)
  {
    assert ProcOk(K(s), s.waiters.Keys, s.replies, Starter(x), s.procs[Starter(x)]);
  }

  /** The INSERT of a fresh row, if it took effect. */
  lemma InsertKept(s: System, s': System, x: SagaId, deadline: int)
    requires RowsInv(K(s), s.history) && x !in s.rows && x in s.issued
    requires K(s') == K(s).(rows := s'.rows)
    requires || (s'.rows == s.rows && s'.history == s.history)
             || (s'.rows == s.rows[x := Row(Awaiting, s.issued[x], deadline)] &&
                 s'.history == s.history[x := (if x in s.history then s.history[x] else []) + [Awaiting]])
    ensures Grows(K(s), K(s')) && RowsInv(K(s'), s'.history)
  {
    hide RowsInv, Grows, RowOk;
    AcceptedHaveRows(K(s), s.history);
    RowAppears(s, s', x, deadline);
    if s'.rows != s.rows {
      RowsKept(K(s), s.history, K(s'), s'.history, x);
    } else {
      assert K(s') == K(s);
    }
  }

  lemma RowAppears(s: System, s': System, x: SagaId, deadline: int)
    requires x !in s.rows && x in s.issued && x !in s.history && K(s') == K(s).(rows := s'.rows)
    requires s'.rows == s.rows || s'.rows == s.rows[x := Row(Awaiting, s.issued[x], deadline)]
    ensures Grows(K(s), K(s'))
    ensures s'.rows != s.rows ==> RowOk(K(s'), s.history[x := [Awaiting]], x)
  {
  }

  lemma CancelReservedKeepsInv(s: System, x: SagaId, out: Outcome)
    requires Inv(s) && CanStart(s, x, CancelReserved(out))
    ensures Inv(ApplyCancelReserved(s, x, out))
  {
    hide Ledger.Inv, PartsInv, TransitInv, CommandsInv, RepliesInv, CancelsInv, RowsInv, ProcsInv, WaitersInv;
    var s' := ApplyCancelReserved(s, x, out);
    StarterIsOk(s, x);
    CancelledGrows(s, s', x);
    FinishKeepsWaiters(s.rows, s.procs.Keys, s.waiters, s.returned, x, StartFailed);
    StarterStepKeepsInv(s, s', x);
  }

  lemma FinishKeepsWaiters(rows: Rows, active: set<Actor>, waiters: map<SagaId, Option<SagaState>>,
                           returned: map<SagaId, Return>, x: SagaId, r: Return)
    requires WaitersInv(rows, active, waiters, returned)
    requires r == Success ==> InState(rows, x, Completed)
    ensures WaitersInv(rows, active - {Starter(x)}, waiters - {x}, returned[x := r])
  {
  }

  lemma RegisterKeepsInv(s: System, x: SagaId)
    requires Inv(s) && CanStart(s, x, Register)
    ensures Inv(ApplyRegister(s, x))
  {
    hide Ledger.Inv, PartsInv, TransitInv, CommandsInv, RepliesInv, CancelsInv, RowsInv, ProcsInv, WaitersInv;
    var s' := ApplyRegister(s, x);
    StarterIsOk(s, x);
    assert s'.procs.Keys == s.procs.Keys && K(s') == K(s);
    WaitersKept(s.rows, s.procs.Keys, s.waiters, s.returned, s.rows, s.procs.Keys, s'.waiters, s.returned, x) by {
      ReturnedIsOver(s.rows, s.procs.Keys, s.waiters, s.returned);
    }
    StarterStepKeepsInv(s, s', x);
  }

  lemma ReturnedIsOver(rows: Rows, active: set<Actor>, waiters: map<SagaId, Option<SagaState>>,
                       returned: map<SagaId, Return>)
    requires WaitersInv(rows, active, waiters, returned)
    ensures forall x :: x in returned && returned[x] == Success ==> InState(rows, x, Completed)
  {
  }

  lemma FinishKeepsInv(s: System, x: SagaId, r: Return)
    requires Inv(s) && Starter(x) in s.procs
    requires r == Success ==> InState(s.rows, x, Completed)
    ensures Inv(Finish(s, x, r))
  {
    hide Ledger.Inv, PartsInv, TransitInv, CommandsInv, RepliesInv, CancelsInv, RowsInv, ProcsInv, WaitersInv;
    var s' := Finish(s, x, r);
    assert K(s') == K(s);
    FinishKeepsWaiters(s.rows, s.procs.Keys, s.waiters, s.returned, x, r);
    StarterStepKeepsInv(s, s', x);
  }

  lemma ReceiveKeepsInv(s: System, x: SagaId)
    requires Inv(s) && CanStart(s, x, Receive)
    ensures Inv(ApplyReceive(s, x))
  {
    assert WaiterOk(s.rows, s.procs.Keys, x, s.waiters[x]);
    FinishKeepsInv(s, x, if s.waiters[x].value == Completed then Success else FailureReported);
  }

  // ---------------------------------------------------------------------------
  // The command queue

  lemma PublishGrows<B(!new)>(q: Queue<B>, body: B)
    requires q.Valid()
    ensures QueueGrows(q, q.Publish(body)) && q.Publish(body).Valid()
  {
  }

  lemma PublishOut(q: Queue<CommandBody>, body: CommandBody)
    requires q.Valid()
    ensures forall x :: CommandOut(q, x) || CommandOf(body, x) ==> CommandOut(q.Publish(body), x)
  {
    var q' := q.Publish(body);
    assert q'.msgs[q.next].body == body;
    forall x | CommandOut(q, x) ensures CommandOut(q', x) {
      var m :| m in q.msgs && CommandOf(q.msgs[m].body, x);
      assert m in q'.msgs && CommandOf(q'.msgs[m].body, x);
    }
  }

  /** A publish by the starter of `x`, accepted by the broker or not. */
  lemma PublishCommandKeepsInv(s: System, x: SagaId, out: Outcome)
    requires Inv(s) && CanStart(s, x, PublishCommand(out))
    ensures Inv(ApplyPublishCommand(s, x, out))
  {
    hide Ledger.Inv, PartsInv, TransitInv, CommandsInv, RepliesInv, CancelsInv, RowsInv, ProcsInv, WaitersInv,
         Grows, QueueGrows, ProcOk;
    var s' := ApplyPublishCommand(s, x, out);
    var k, k' := K(s), K(s');
    PublishMoves(s, x, out);
    CommandsAfterPublish(s, s', x);
    QueueGrowsRefl(s.replies);
    ProcsKept(k, s.waiters.Keys, s.replies, s.procs, k', s'.waiters.Keys, s'.replies, s'.procs, Starter(x));
    RepliesStay(k, s.replies, k');
    CancelsKept(k, s.procs.Keys, s.tried, k', s'.procs.Keys, s'.tried);
    PartsKeptCommands(k, s.commands, s.replies, s.parts, s.ledger.workers, k', s'.commands);
  }

  /** What publishing records, and where it leaves the request. */
  lemma PublishMoves(s: System, x: SagaId, out: Outcome)
    requires RowsInv(K(s), s.history) && ProcsInv(K(s), s.waiters.Keys, s.replies, s.procs)
    requires CanStart(s, x, PublishCommand(out))
    ensures var s' := ApplyPublishCommand(s, x, out);
            && s' == s.(accepted := s'.accepted, commands := s'.commands, procs := s'.procs)
            && s'.procs == s.procs[Starter(x) := s'.procs[Starter(x)]] && s'.procs.Keys == s.procs.Keys
            && s.accepted <= s'.accepted <= s.accepted + {x} && x in s.rows && x in s.issued
            && s.rows[x].data == s.issued[x] && Grows(K(s), K(s')) && RowsInv(K(s'), s'.history)
            && ProcOk(K(s'), s.waiters.Keys, s.replies, Starter(x), s'.procs[Starter(x)])
  {
    hide RowsInv, ProcsInv;
    StarterIsOk(s, x);
    AcceptKept(s, ApplyPublishCommand(s, x, out), x);
  }

  lemma AcceptKept(s: System, s': System, x: SagaId)
    requires RowsInv(K(s), s.history) && x in s.rows
    requires K(s') == K(s).(accepted := s'.accepted) && s.accepted <= s'.accepted <= s.accepted + {x} &&
             s'.history == s.history
    ensures Grows(K(s), K(s')) && RowsInv(K(s'), s'.history)
    ensures x in s.issued && s.rows[x].data == s.issued[x]
  {
    assert RowOk(K(s), s.history, x);
    RowsKept(K(s), s.history, K(s'), s'.history, x);
  }

  lemma RepliesStay(k: Known, q: Queue<ReplyBody>, k': Known)
    requires RepliesInv(k, q) && Grows(k, k')
    ensures RepliesInv(k', q)
  {
  }

  lemma PartsKeptCommands(k: Known, commands: Queue<CommandBody>, replies: Queue<ReplyBody>, parts: map<nat, Part>,
                          workers: map<nat, Ledger.Phase>, k': Known, commands': Queue<CommandBody>)
    requires PartsInv(k, commands, replies, parts, workers) && Grows(k, k') && QueueGrows(commands, commands')
    ensures PartsInv(k', commands', replies, parts, workers)
  {
    RowsGrowKeepCovers(k.rows, k'.rows, replies);
    forall w | w in parts ensures PartOk(k', commands', replies, parts[w], workers[w]) {
      PartStable(k, commands, replies, k', commands', replies, parts[w], workers[w]);
    }
  }

  lemma CommandsAfterPublish(s: System, s': System, x: SagaId)
    requires CommandsInv(K(s), s.commands) && Grows(K(s), K(s')) && s'.rows == s.rows && s'.replies == s.replies
    requires TransitInv(s.rows, s.accepted, s.commands, s.replies)
    requires x in s.rows && x in s.issued && s.rows[x].data == s.issued[x]
    requires || (s'.commands == s.commands && s'.accepted == s.accepted)
             || (s'.commands == s.commands.Publish(CommandFor(x, s.issued[x])) && s'.accepted == s.accepted + {x})
    ensures CommandsInv(K(s'), s'.commands) && QueueGrows(s.commands, s'.commands)
    ensures TransitInv(s'.rows, s'.accepted, s'.commands, s'.replies)
  {
    var body := CommandFor(x, s.issued[x]);
    PublishGrows(s.commands, body);
    PublishOut(s.commands, body);
    CommandsKept(K(s), s.commands, K(s'), s'.commands);
    TransitKept(s.rows, s.accepted, s.commands, s.replies, s'.rows, s'.accepted, s'.commands, s'.replies);
  }

  lemma StartStepKeepsInv(s: System, x: SagaId, e: StartStep)
    requires Inv(s) && CanStart(s, x, e)
    ensures Inv(ApplyStart(s, x, e))
  {
    hide Inv, ApplyBegin, ApplyCreateRow, ApplyCancelReserved, ApplyRegister, ApplyPublishCommand, ApplyReceive, Finish;
    match e
    case Begin(data, deadline) => BeginKeepsInv(s, x, data, deadline);
    case CreateRow(out) => CreateRowKeepsInv(s, x, out);
    case CancelReserved(out) => CancelReservedKeepsInv(s, x, out);
    case Register => RegisterKeepsInv(s, x);
    case PublishCommand(out) => PublishCommandKeepsInv(s, x, out);
    case Receive => ReceiveKeepsInv(s, x);
    case GiveUp(timeout) => FinishKeepsInv(s, x, if timeout then TimedOutWaiting else ContextDone);
    case ReturnAfterCompensation => FinishKeepsInv(s, x, PublishFailed);
  }

  // ---------------------------------------------------------------------------
  // The notification service

  /** A step of worker `w`: it may change its own task, the two queues and the ledger. */
  lemma WorkerStepKeepsInv(s: System, s': System, w: nat)
    requires Inv(s)
    requires s' == s.(commands := s'.commands, replies := s'.replies, parts := s'.parts, ledger := s'.ledger)
    requires Ledger.Inv(s'.ledger) && s.ledger.sends <= s'.ledger.sends
    requires CommandsInv(K(s'), s'.commands) && QueueGrows(s.commands, s'.commands)
    requires RepliesInv(K(s'), s'.replies) && QueueGrows(s.replies, s'.replies)
    requires CoversGrow(s.rows, s.replies, s.rows, s'.replies)
    requires forall x :: CommandOut(s.commands, x) ==> CommandOut(s'.commands, x) || Covered(s.rows, s'.replies, x)
    requires forall v :: v in s'.parts && v != w ==> v in s.parts && s'.parts[v] == s.parts[v]
    requires forall v :: v in s.ledger.workers && v != w ==>
               v in s'.ledger.workers && s'.ledger.workers[v] == s.ledger.workers[v]
    requires w in s'.parts ==>
               w in s'.ledger.workers && PartOk(K(s'), s'.commands, s'.replies, s'.parts[w], s'.ledger.workers[w])
    ensures Inv(s')
  {
    hide Ledger.Inv, PartsInv, TransitInv, CommandsInv, RepliesInv, CancelsInv, RowsInv, ProcsInv, WaitersInv,
         QueueGrows, CoversGrow, Covered, CommandOut, PartOk;
    var k, k' := K(s), K(s');
    SendsGrow(s, s');
    ProcsStay(k, s.waiters.Keys, s.replies, s.procs, k', s'.replies);
    PartsKept(k, s.commands, s.replies, s.parts, s.ledger.workers,
              k', s'.commands, s'.replies, s'.parts, s'.ledger.workers, w);
    TransitKept(s.rows, s.accepted, s.commands, s.replies, s'.rows, s'.accepted, s'.commands, s'.replies);
    CancelsKept(k, s.procs.Keys, s.tried, k', s'.procs.Keys, s'.tried);
  }

  lemma SendsGrow(s: System, s': System)
    requires RowsInv(K(s), s.history) && s'.history == s.history
    requires s.ledger.sends <= s'.ledger.sends && K(s') == K(s).(sends := s'.ledger.sends)
    ensures Grows(K(s), K(s')) && RowsInv(K(s'), s'.history)
  {
    forall x | x in s'.rows ensures RowOk(K(s'), s'.history, x) {
      assert RowOk(K(s), s.history, x);
    }
  }

  lemma ProcsStay(k: Known, waiting: set<SagaId>, q: Queue<ReplyBody>, procs: map<Actor, Proc>, k': Known,
                  q': Queue<ReplyBody>)
    requires ProcsInv(k, waiting, q, procs) && Grows(k, k') && QueueGrows(q, q')
    requires k'.rows == k.rows && k'.accepted == k.accepted
    ensures ProcsInv(k', waiting, q', procs)
  {
    forall a | a in procs ensures ProcOk(k', waiting, q', a, procs[a]) {
      ProcStable(k, waiting, q, k', waiting, q', a, procs[a]);
    }
  }

  lemma WorkerOk(s: System, w: nat)
    requires PartsInv(K(s), s.commands, s.replies, s.parts, s.ledger.workers) && w in s.parts
    ensures w in s.ledger.workers && PartOk(K(s), s.commands, s.replies, s.parts[w], s.ledger.workers[w])
  {
  }

  lemma SameCommandsKeep(k: Known, q: Queue<CommandBody>, q': Queue<CommandBody>)
    requires SameMessages(q, q') && CommandsInv(k, q)
    ensures QueueGrows(q, q') && CommandsInv(k, q')
    ensures forall x :: CommandOut(q, x) ==> CommandOut(q', x)
  {
    forall x | CommandOut(q, x) ensures CommandOut(q', x) {
      var m :| m in q.msgs && CommandOf(q.msgs[m].body, x);
      assert CommandOf(q'.msgs[m].body, x);
    }
  }

  lemma TakeCommandKeepsInv(s: System, w: nat, m: nat)
    requires Inv(s) && CanWork(s, w, TakeCommand(m))
    ensures Inv(ApplyTakeCommand(s, w, m))
  {
    hide Ledger.Inv, PartsInv, TransitInv, RepliesInv, CancelsInv, RowsInv, ProcsInv, WaitersInv, CommandOut, Covered;
    var s' := ApplyTakeCommand(s, w, m);
    SameCommandsKeep(K(s), s.commands, s'.commands);
    WorkerStepKeepsInv(s, s', w);
  }

  lemma InspectKeepsInv(s: System, w: nat)
    requires Inv(s) && CanWork(s, w, Inspect)
    ensures Inv(ApplyInspect(s, w))
  {
    hide Ledger.Inv, PartsInv, TransitInv, RepliesInv, CancelsInv, RowsInv, ProcsInv, WaitersInv, CommandOut, Covered;
    WorkerOk(s, w);
    WorkerStepKeepsInv(s, ApplyInspect(s, w), w);
  }

  lemma ReturnFromSendKeepsInv(s: System, w: nat)
    requires Inv(s) && CanWork(s, w, ReturnFromSend)
    ensures Inv(ApplyReturnFromSend(s, w))
  {
    hide Ledger.Inv, PartsInv, TransitInv, RepliesInv, CancelsInv, RowsInv, ProcsInv, WaitersInv, CommandOut, Covered,
         Ledger.KeyOf;
    WorkerOk(s, w);
    Ledger.StepInv(s.ledger, Ledger.Collect(w));
    SentMeansMailed(s, w);
    WorkerStepKeepsInv(s, ApplyReturnFromSend(s, w), w);
  }

  /** When SendConfirmation returned no error, the mailer has accepted the saga's confirmation. */
  lemma SentMeansMailed(s: System, w: nat)
    requires Ledger.Inv(s.ledger) && w in s.parts && w in s.ledger.workers
    requires PartOk(K(s), s.commands, s.replies, s.parts[w], s.ledger.workers[w])
    requires s.parts[w].pc.InSend? && s.ledger.workers[w].Done?
    ensures !s.ledger.workers[w].err ==> Mailed(K(s), s.parts[w].body.saga)
  {
    assert Ledger.PhaseOk(s.ledger, s.ledger.workers[w]);
  }

  lemma ReplyPublished(k: Known, q: Queue<ReplyBody>, body: ReplyBody)
    requires RepliesInv(k, q) && ReplyBodyOk(k, body)
    ensures RepliesInv(k, q.Publish(body)) && QueueGrows(q, q.Publish(body))
    ensures CoversGrow(k.rows, q, k.rows, q.Publish(body))
    ensures !body.BadReply? ==> ReplyOut(q.Publish(body), body.saga)
  {
    var q' := q.Publish(body);
    assert q'.msgs[q.next].body == body;
    forall x | ReplyOut(q, x) ensures ReplyOut(q', x) {
      var m :| m in q.msgs && ReplyOf(q.msgs[m].body, x);
      assert m in q'.msgs && ReplyOf(q'.msgs[m].body, x);
    }
  }

  lemma PublishReplyKeepsInv(s: System, w: nat, out: Outcome)
    requires Inv(s) && CanWork(s, w, PublishReply(out))
    ensures Inv(ApplyPublishReply(s, w, out))
  {
    hide Ledger.Inv, PartsInv, TransitInv, RepliesInv, CancelsInv, RowsInv, ProcsInv, WaitersInv, CommandOut, ReplyOut;
    var s' := ApplyPublishReply(s, w, out);
    WorkerOk(s, w);
    ReplyPublished(K(s), s.replies, s.parts[w].pc.reply);
    assert K(s') == K(s);
    WorkerStepKeepsInv(s, s', w);
  }

  /** Settling a command loses no saga: an acked command has left an answer behind. */
  lemma SettleCommandKeeps(k: Known, q: Queue<CommandBody>, replies: Queue<ReplyBody>, p: Part, phase: Ledger.Phase,
                           w: nat)
    requires CommandsInv(k, q) && PartOk(k, q, replies, p, phase) && p.pc.PartToSettle?
    ensures var q' := q.Settle(p.msg, w, p.pc.action);
            && QueueGrows(q, q') && CommandsInv(k, q')
            && forall x :: CommandOut(q, x) ==> CommandOut(q', x) || Covered(k.rows, replies, x)
  {
    var q' := q.Settle(p.msg, w, p.pc.action);
    forall x | CommandOut(q, x) && !Covered(k.rows, replies, x) ensures CommandOut(q', x) {
      var m :| m in q.msgs && CommandOf(q.msgs[m].body, x);
      assert m in q'.msgs && CommandOf(q'.msgs[m].body, x);
    }
  }

  lemma SettleCommandKeepsInv(s: System, w: nat)
    requires Inv(s) && CanWork(s, w, SettleCommand)
    ensures Inv(ApplySettleCommand(s, w))
  {
    hide Ledger.Inv, PartsInv, TransitInv, RepliesInv, CancelsInv, RowsInv, ProcsInv, WaitersInv, CommandOut, Covered,
         CommandsInv;
    var s' := ApplySettleCommand(s, w);
    WorkerOk(s, w);
    SettleCommandKeeps(K(s), s.commands, s.replies, s.parts[w], s.ledger.workers[w], w);
    WorkerStepKeepsInv(s, s', w);
  }

  lemma LoseCommandChannelKeepsInv(s: System, w: nat)
    requires Inv(s) && CanWork(s, w, LoseCommandChannel)
    ensures Inv(ApplyWork(s, w, LoseCommandChannel))
  {
    hide Ledger.Inv, PartsInv, TransitInv, RepliesInv, CancelsInv, RowsInv, ProcsInv, WaitersInv, CommandOut, Covered;
    var s' := ApplyWork(s, w, LoseCommandChannel);
    WorkerOk(s, w);
    SameCommandsKeep(K(s), s.commands, s'.commands);
    WorkerStepKeepsInv(s, s', w);
  }

  lemma CrashWorkerKeepsInv(s: System, w: nat)
    requires Inv(s) && CanWork(s, w, CrashWorker)
    ensures Inv(ApplyCrashWorker(s, w))
  {
    hide Ledger.Inv, PartsInv, TransitInv, CommandsInv, RepliesInv, CancelsInv, RowsInv, ProcsInv, WaitersInv,
         CommandOut, Covered, Ledger.KeyOf, Ledger.Apply, PartOk, SameMessages, QueueGrows, CoversGrow,
         ApplyCrashWorker;
    var s' := ApplyCrashWorker(s, w);
    Ledger.StepInv(s.ledger, Ledger.Crash(w));
    CrashFrame(s, w);
    SameCommandsKeep(K(s), s.commands, s'.commands);
    SameRepliesKeep(s.rows, s.replies);
    WorkerStepKeepsInv(s, s', w);
  }

  lemma CrashFrame(s: System, w: nat)
    requires CanWork(s, w, CrashWorker)
    ensures var s' := ApplyCrashWorker(s, w);
            && s' == s.(commands := s'.commands, parts := s'.parts, ledger := Ledger.Apply(s.ledger, Ledger.Crash(w)))
            && s'.ledger.sends == s.ledger.sends && s'.ledger.workers == s.ledger.workers[w := Ledger.Idle]
            && s'.parts == s.parts - {w} && SameMessages(s.commands, s'.commands)
  {
    hide SameMessages, Ledger.Apply, Ledger.KeyOf;
    CrashIsLocal(s.ledger, w);
    ReleaseKeepsMessages(s.commands, if w in s.parts then s.parts[w].msg else 0, w);
  }

  lemma ReleaseKeepsMessages(q: Queue<CommandBody>, m: nat, w: nat)
    ensures SameMessages(q, q.Release(m, w)) && SameMessages(q, q)
  {
  }

  lemma SameRepliesKeep(rows: Rows, q: Queue<ReplyBody>)
    ensures QueueGrows(q, q) && CoversGrow(rows, q, rows, q)
  {
  }

  lemma CrashIsLocal(l: Ledger.State, w: nat)
    requires w in l.workers
    ensures var l' := Ledger.Apply(l, Ledger.Crash(w));
            l'.sends == l.sends && l'.workers == l.workers[w := Ledger.Idle]
  {
  }

  lemma LedgerStepKeepsInv(s: System, e: Ledger.Event)
    requires Inv(s) && LedgerStepAllowed(s, e)
    ensures Inv(s.(ledger := Ledger.Apply(s.ledger, e)))
  {
    hide Ledger.Inv, PartsInv, TransitInv, RepliesInv, CancelsInv, RowsInv, ProcsInv, WaitersInv, CommandOut, Covered,
         Ledger.KeyOf;
    var s' := s.(ledger := Ledger.Apply(s.ledger, e));
    Ledger.StepInv(s.ledger, e);
    if e.w in s.parts {
      WorkerOk(s, e.w);
      PhaseMoves(s.ledger, e);
    }
    SendsGrowKeepQueues(K(s), K(s'), s.commands, s.replies);
    WorkerStepKeepsInv(s, s', e.w);
  }

  /** A worker inside SendConfirmation keeps working on the mail it started with. */
  lemma PhaseMoves(l: Ledger.State, e: Ledger.Event)
    requires Ledger.Enabled(l, e) && !e.Crash? && !e.Collect?
    ensures var p' := Ledger.Apply(l, e).workers[e.w];
            !p'.Idle? && p'.mail == if e.Reserve? then e.mail else l.workers[e.w].mail
  {
  }

  lemma SendsGrowKeepQueues(k: Known, k': Known, commands: Queue<CommandBody>, replies: Queue<ReplyBody>)
    requires CommandsInv(k, commands) && RepliesInv(k, replies) && k' == k.(sends := k'.sends) && k.sends <= k'.sends
    ensures CommandsInv(k', commands) && RepliesInv(k', replies)
  {
  }

  lemma WorkStepKeepsInv(s: System, w: nat, e: PartStep)
    requires Inv(s) && CanWork(s, w, e)
    ensures Inv(ApplyWork(s, w, e))
  {
    hide Inv, ApplyTakeCommand, ApplyInspect, ApplyReturnFromSend, ApplyPublishReply, ApplySettleCommand,
         ApplyCrashWorker;
    match e
    case TakeCommand(m) => TakeCommandKeepsInv(s, w, m);
    case Inspect => InspectKeepsInv(s, w);
    case ReturnFromSend => ReturnFromSendKeepsInv(s, w);
    case PublishReply(out) => PublishReplyKeepsInv(s, w, out);
    case SettleCommand => SettleCommandKeepsInv(s, w);
    case LoseCommandChannel => LoseCommandChannelKeepsInv(s, w);
    case CrashWorker => CrashWorkerKeepsInv(s, w);
  }

  // ---------------------------------------------------------------------------
  // The environment

  lemma CrashKeepsInv(s: System)
    requires Inv(s)
    ensures Inv(ApplyCrashOrchestrator(s))
  {
    hide Ledger.Inv, PartsInv, TransitInv, CommandsInv, RowsInv, CommandOut, Covered;
    var s' := ApplyCrashOrchestrator(s);
    assert K(s') == K(s);
    SameMessagesKeep(s.replies, s'.replies, s.rows);
    RepliesChangedKeepParts(K(s), s.commands, s.replies, s.parts, s.ledger.workers, s'.replies);
    RepliesChangedKeepTransit(s.rows, s.accepted, s.commands, s.replies, s'.replies);
    CancelsKept(K(s), s.procs.Keys, s.tried, K(s), {}, s.tried);
    RepliesKept(K(s), s.replies, K(s), s'.replies);
  }

  lemma BadCommandKeepsInv(s: System)
    requires Inv(s)
    ensures Inv(s.(commands := s.commands.Publish(BadCommand)))
  {
    hide Ledger.Inv, TransitInv, RepliesInv, CancelsInv, RowsInv, ProcsInv, WaitersInv, PartsInv;
    var s' := s.(commands := s.commands.Publish(BadCommand));
    assert K(s') == K(s);
    PublishGrows(s.commands, BadCommand);
    PublishOut(s.commands, BadCommand);
    CommandsKept(K(s), s.commands, K(s), s'.commands);
    TransitKept(s.rows, s.accepted, s.commands, s.replies, s.rows, s.accepted, s'.commands, s.replies);
    PartsKeptCommands(K(s), s.commands, s.replies, s.parts, s.ledger.workers, K(s), s'.commands);
  }

  lemma BadReplyKeepsInv(s: System)
    requires Inv(s)
    ensures Inv(s.(replies := s.replies.Publish(BadReply)))
  {
    hide Ledger.Inv, TransitInv, CommandsInv, RepliesInv, CancelsInv, RowsInv, ProcsInv, WaitersInv, PartsInv,
         CoversGrow;
    var s' := s.(replies := s.replies.Publish(BadReply));
    assert K(s') == K(s);
    ReplyPublished(K(s), s.replies, BadReply);
    RepliesChangedKeepParts(K(s), s.commands, s.replies, s.parts, s.ledger.workers, s'.replies);
    RepliesChangedKeepTransit(s.rows, s.accepted, s.commands, s.replies, s'.replies);
    ProcsStay(K(s), s.waiters.Keys, s.replies, s.procs, K(s), s'.replies);
  }

  // ---------------------------------------------------------------------------
  // Whole runs

  lemma StepKeepsInv(s: System, e: Event)
    requires Inv(s) && Enabled(s, e)
    ensures Inv(Apply(s, e))
  {
    hide Inv, ApplyStart, ApplyCompensation, ApplyReply, ApplyReap, ApplyWork, ApplyCrashOrchestrator,
         CanStart, CanCompensate, CanReply, CanReap, CanWork;
    match e
    case OfStarter(x, step) => StartStepKeepsInv(s, x, step);
    case OfCompensation(a, step) => CompensationStepKeepsInv(s, a, step);
    case OfReplier(n, step) => ReplyStepKeepsInv(s, n, step);
    case OfReaper(n, step) => ReapStepKeepsInv(s, n, step);
    case OfWorker(w, step) => WorkStepKeepsInv(s, w, step);
    case OfLedger(step) => LedgerStepKeepsInv(s, step);
    case CrashOrchestrator => CrashKeepsInv(s);
    case InjectBadCommand => BadCommandKeepsInv(s);
    case InjectBadReply => BadReplyKeepsInv(s);
  }

  lemma InitKeepsInv(workers: set<nat>)
    ensures Inv(Init(workers))
  {
    Ledger.InitInv(workers);
  }

  /** Every state of every run satisfies the invariant. */
  lemma {:induction false} RunInv(states: seq<System>, events: seq<Event>, i: nat)
    requires IsRun(states, events) && i < |states|
    ensures Inv(states[i])
  {
    hide Inv, Enabled, Apply;
    if i == 0 {
      var workers :| states[0] == Init(workers);
      InitKeepsInv(workers);
    } else {
      RunInv(states, events, i - 1);
      StepKeepsInv(states[i - 1], events[i - 1]);
    }
  }
}
