/** What every step of the subscribe saga keeps. */
module SagaInvariant {
  import opened Base
  import opened Broker
  import opened SagaRows
  import opened SagaProtocol
  import Ledger

  // ---------------------------------------------------------------------------
  // Facts that no step takes back

  /** The part of a state that only ever grows: sagas begun, their rows,
      commands the broker accepted, cancels that succeeded, and keys the mailer accepted. */
  datatype Known = Known(
    issued: map<SagaId, SubscriptionData>,
    rows: Rows,
    accepted: set<SagaId>,
    cancelled: set<SagaId>,
    sends: multiset<string>)

  function K(s: System): Known {
    Known(s.issued, s.rows, s.accepted, s.cancelled, s.ledger.sends)
  }

  predicate Later(a: SagaState, b: SagaState) {
    a == b || a == Awaiting || (a == Compensating && b == Failed)
  }

  ghost predicate RowsGrow(rows: Rows, rows': Rows) {
    forall x :: x in rows ==>
      x in rows' && rows'[x].data == rows[x].data && Later(rows[x].state, rows'[x].state)
  }

  ghost predicate Grows(k: Known, k': Known) {
    && RowsGrow(k.rows, k'.rows)
    && k.accepted <= k'.accepted && k.cancelled <= k'.cancelled && k.sends <= k'.sends
    && (forall x :: x in k.issued ==> x in k'.issued && k'.issued[x] == k.issued[x])
  }

  /** Messages keep their bodies and never come back once removed. */
  ghost predicate QueueGrows<B(!new)>(q: Queue<B>, q': Queue<B>) {
    && q.next <= q'.next
    && forall m :: m in q'.msgs && m < q.next ==> m in q.msgs && q'.msgs[m].body == q.msgs[m].body
  }

  predicate NotAwaiting(rows: Rows, x: SagaId) {
    x in rows && rows[x].state != Awaiting
  }

  predicate Terminal(rows: Rows, x: SagaId) {
    x in rows && (rows[x].state == Completed || rows[x].state == Failed)
  }

  /** Compensation has been claimed: the saga can no longer complete. */
  predicate Undone(rows: Rows, x: SagaId) {
    x in rows && (rows[x].state == Compensating || rows[x].state == Failed)
  }

  /** The mailer accepted a confirmation with the saga's own confirm URL. */
  predicate Mailed(k: Known, x: SagaId) {
    x in k.rows && Ledger.ConfirmKey(k.rows[x].data.confirmUrl) in k.sends
  }

  // ---------------------------------------------------------------------------
  // Messages about one saga

  predicate CommandOf(body: CommandBody, x: SagaId) {
    body.SendConfirmation? && body.saga == x
  }

  predicate ReplyOf(body: ReplyBody, x: SagaId) {
    !body.BadReply? && body.saga == x
  }

  ghost predicate CommandOut(q: Queue<CommandBody>, x: SagaId) {
    exists m :: m in q.msgs && CommandOf(q.msgs[m].body, x)
  }

  ghost predicate ReplyOut(q: Queue<ReplyBody>, x: SagaId) {
    exists m :: m in q.msgs && ReplyOf(q.msgs[m].body, x)
  }

  /** The saga no longer needs its command: it moved on or an answer is queued. */
  ghost predicate Covered(rows: Rows, q: Queue<ReplyBody>, x: SagaId) {
    NotAwaiting(rows, x) || ReplyOut(q, x)
  }

  ghost predicate CoversGrow(rows: Rows, q: Queue<ReplyBody>, rows': Rows, q': Queue<ReplyBody>) {
    forall x :: Covered(rows, q, x) ==> Covered(rows', q', x)
  }

  /** Commands of the known type come from the orchestrator alone, so they decode. */
  predicate CommandBodyOk(k: Known, body: CommandBody) {
    !body.BadCommand? ==>
      && body.saga in k.rows && body.saga in k.accepted
      && body == CommandFor(body.saga, k.rows[body.saga].data)
  }

  predicate ReplyBodyOk(k: Known, body: ReplyBody) {
    && (!body.BadReply? ==> body.saga in k.rows && body.saga in k.accepted)
    && (body.ConfirmationSent? ==> Mailed(k, body.saga))
  }

  predicate SameBody<B(==)>(q: Queue<B>, m: nat, body: B) {
    m < q.next && (m in q.msgs ==> q.msgs[m].body == body)
  }

  // ---------------------------------------------------------------------------
  // Processes

  predicate CompensationOk(k: Known, x: SagaId, c: Compensation) {
    && x in k.rows
    && match c
       case ToClaim => true
       case ToFetch => NotAwaiting(k.rows, x)
       case ToCancel(sub) => sub == k.rows[x].data.subscriptionId && Undone(k.rows, x)
       case ToMark => Undone(k.rows, x) && x in k.cancelled
       case Finished(ok) => ok ==> Terminal(k.rows, x)
  }

  /** `waiting` are the sagas with a registered waiter. */
  predicate StarterOk(k: Known, waiting: set<SagaId>, x: SagaId, pc: StartPc) {
    && x in k.issued
    && match pc
       case ToCreate => x !in k.rows && x !in k.accepted && x !in waiting
       case ToCancelReserved => x !in k.accepted && x !in waiting
       case ToRegister => x in k.rows && x !in k.accepted && x !in waiting
       case ToPublish => x in k.rows && x !in k.accepted && x in waiting
       case StartCompensates(c) => x in waiting && CompensationOk(k, x, c)
       case Waiting => x in k.rows && x in waiting
  }

  predicate HandleOk(k: Known, body: ReplyBody, pc: ReplyPc) {
    match pc
    case ToDispatch => true
    case ToComplete => body.ConfirmationSent?
    case ToSignal(final) =>
      || (final == Completed && body.ConfirmationSent? && InState(k.rows, body.saga, Completed))
      || (final == Failed && body.ConfirmationFailed? && Terminal(k.rows, body.saga))
    case ReplyCompensates(c) => body.ConfirmationFailed? && CompensationOk(k, body.saga, c)
    case ToSettle(Ack) =>
      || (body.ConfirmationSent? && NotAwaiting(k.rows, body.saga))
      || (body.ConfirmationFailed? && Terminal(k.rows, body.saga))
    case ToSettle(Drop) => body.BadReply?
    case ToSettle(_) => true
  }

  predicate ReapOk(k: Known, ids: seq<SagaId>, c: Compensation) {
    && ids != []
    && (forall i :: 0 <= i < |ids| ==> ids[i] in k.rows)
    && CompensationOk(k, ids[0], c)
  }

  predicate ProcOk(k: Known, waiting: set<SagaId>, q: Queue<ReplyBody>, a: Actor, p: Proc) {
    match a
    case Starter(x) => p.Start? && StarterOk(k, waiting, x, p.start)
    case Replier(_) => p.Handle? && SameBody(q, p.msg, p.body) && ReplyBodyOk(k, p.body) && HandleOk(k, p.body, p.reply)
    case Reaper(_) => p.Reap? && ReapOk(k, p.ids, p.c)
  }

  /** `phase` is the worker's phase in the ledger. */
  ghost predicate PartOk(k: Known, commands: Queue<CommandBody>, replies: Queue<ReplyBody>, p: Part,
                         phase: Ledger.Phase) {
    && SameBody(commands, p.msg, p.body)
    && CommandBodyOk(k, p.body)
    && (!p.pc.InSend? ==> phase.Idle?)
    && match p.pc
       case ToInspect => true
       case InSend => p.body.SendConfirmation? && (!phase.Idle? ==> phase.mail == MailFor(p.body))
       case ToReply(reply) => p.body.SendConfirmation? && ReplyOf(reply, p.body.saga) && ReplyBodyOk(k, reply)
       case PartToSettle(Ack) => p.body.SendConfirmation? && Covered(k.rows, replies, p.body.saga)
       case PartToSettle(Drop) => p.body.BadCommand?
       case PartToSettle(_) => true
  }

  // ---------------------------------------------------------------------------
  // The invariant

  function Path(state: SagaState): seq<SagaState> {
    match state
    case Awaiting => [Awaiting]
    case Completed => [Awaiting, Completed]
    case Compensating => [Awaiting, Compensating]
    case Failed => [Awaiting, Compensating, Failed]
  }

  predicate RowOk(k: Known, history: map<SagaId, seq<SagaState>>, x: SagaId)
    requires x in k.rows
  {
    && x in k.issued && k.rows[x].data == k.issued[x]
    && x in history && history[x] == Path(k.rows[x].state)
    && (k.rows[x].state == Completed ==> Mailed(k, x) && x in k.accepted)
    && (k.rows[x].state == Failed ==> x in k.cancelled)
  }

  predicate CancelOk(k: Known, active: set<Actor>, x: SagaId, sub: int) {
    && x in k.issued && sub == k.issued[x].subscriptionId
    && (Undone(k.rows, x) || (x !in k.accepted && Starter(x) !in active))
  }

  /** The buffered signal never announces a completion that did not happen. */
  predicate WaiterOk(rows: Rows, active: set<Actor>, x: SagaId, buffer: Option<SagaState>) {
    && Starter(x) in active
    && (buffer == Some(Completed) ==> InState(rows, x, Completed))
  }

  ghost predicate ProcsInv(k: Known, waiting: set<SagaId>, q: Queue<ReplyBody>, procs: map<Actor, Proc>) {
    forall a :: a in procs ==> ProcOk(k, waiting, q, a, procs[a])
  }

  ghost predicate PartsInv(k: Known, commands: Queue<CommandBody>, replies: Queue<ReplyBody>, parts: map<nat, Part>,
                           workers: map<nat, Ledger.Phase>)
  {
    forall w :: w in parts ==> w in workers && PartOk(k, commands, replies, parts[w], workers[w])
  }

  ghost predicate CommandsInv(k: Known, q: Queue<CommandBody>) {
    q.Valid() && forall m :: m in q.msgs ==> CommandBodyOk(k, q.msgs[m].body)
  }

  ghost predicate RepliesInv(k: Known, q: Queue<ReplyBody>) {
    q.Valid() && forall m :: m in q.msgs ==> ReplyBodyOk(k, q.msgs[m].body)
  }

  ghost predicate RowsInv(k: Known, history: map<SagaId, seq<SagaState>>) {
    && (forall x :: x in k.rows ==> RowOk(k, history, x))
    && (forall x :: x in k.accepted ==> x in k.rows)
    && (forall x :: x in history ==> x in k.rows)
  }

  /** A saga whose command the broker accepted is in transit while it is awaiting. */
  ghost predicate TransitInv(rows: Rows, accepted: set<SagaId>, commands: Queue<CommandBody>,
                             replies: Queue<ReplyBody>) {
    forall x :: x in accepted ==> x in rows && (CommandOut(commands, x) || Covered(rows, replies, x))
  }

  ghost predicate CancelsInv(k: Known, active: set<Actor>, tried: set<(SagaId, int)>) {
    forall x, sub :: (x, sub) in tried ==> CancelOk(k, active, x, sub)
  }

  ghost predicate WaitersInv(rows: Rows, active: set<Actor>, waiters: map<SagaId, Option<SagaState>>,
                             returned: map<SagaId, Return>)
  {
    && (forall x :: x in waiters ==> WaiterOk(rows, active, x, waiters[x]))
    && (forall x :: x in returned && returned[x] == Success ==> InState(rows, x, Completed))
  }

  ghost predicate Inv(s: System) {
    && ProcsInv(K(s), s.waiters.Keys, s.replies, s.procs)
    && PartsInv(K(s), s.commands, s.replies, s.parts, s.ledger.workers)
    && CommandsInv(K(s), s.commands)
    && RepliesInv(K(s), s.replies)
    && RowsInv(K(s), s.history)
    && TransitInv(s.rows, s.accepted, s.commands, s.replies)
    && CancelsInv(K(s), s.procs.Keys, s.tried)
    && WaitersInv(s.rows, s.procs.Keys, s.waiters, s.returned)
    && Ledger.Inv(s.ledger)
  }

  // ---------------------------------------------------------------------------
  // Each part survives growth; only what a step wrote needs a new argument

  lemma ProcStable(k: Known, waiting: set<SagaId>, q: Queue<ReplyBody>,
                   k': Known, waiting': set<SagaId>, q': Queue<ReplyBody>, a: Actor, p: Proc)
    requires ProcOk(k, waiting, q, a, p) && Grows(k, k') && QueueGrows(q, q')
    requires a.Starter? ==> SameForStarter(k, waiting, k', waiting', a.saga)
    ensures ProcOk(k', waiting', q', a, p)
  {
  }

  /** Only its own starter changes what a starter relies on. */
  predicate SameForStarter(k: Known, waiting: set<SagaId>, k': Known, waiting': set<SagaId>, x: SagaId) {
    && (x in k'.rows <==> x in k.rows)
    && (x in k'.accepted <==> x in k.accepted)
    && (x in waiting' <==> x in waiting)
  }

  lemma ProcsKept(k: Known, waiting: set<SagaId>, q: Queue<ReplyBody>, procs: map<Actor, Proc>,
                  k': Known, waiting': set<SagaId>, q': Queue<ReplyBody>, procs': map<Actor, Proc>, changed: Actor)
    requires ProcsInv(k, waiting, q, procs) && Grows(k, k') && QueueGrows(q, q')
    requires forall a :: a in procs' && a != changed ==> a in procs && procs'[a] == procs[a]
    requires forall x :: Starter(x) != changed && Starter(x) in procs ==> SameForStarter(k, waiting, k', waiting', x)
    requires changed in procs' ==> ProcOk(k', waiting', q', changed, procs'[changed])
    ensures ProcsInv(k', waiting', q', procs')
  {
    forall a | a in procs' ensures ProcOk(k', waiting', q', a, procs'[a]) {
      if a != changed {
        ProcStable(k, waiting, q, k', waiting', q', a, procs[a]);
      }
    }
  }

  lemma PartStable(k: Known, commands: Queue<CommandBody>, replies: Queue<ReplyBody>,
                   k': Known, commands': Queue<CommandBody>, replies': Queue<ReplyBody>, p: Part, phase: Ledger.Phase)
    requires PartOk(k, commands, replies, p, phase) && Grows(k, k') && QueueGrows(commands, commands')
    requires CoversGrow(k.rows, replies, k'.rows, replies')
    ensures PartOk(k', commands', replies', p, phase)
  {
  }

  lemma PartsKept(k: Known, commands: Queue<CommandBody>, replies: Queue<ReplyBody>,
                  parts: map<nat, Part>, workers: map<nat, Ledger.Phase>,
                  k': Known, commands': Queue<CommandBody>, replies': Queue<ReplyBody>,
                  parts': map<nat, Part>, workers': map<nat, Ledger.Phase>, changed: nat)
    requires PartsInv(k, commands, replies, parts, workers)
    requires Grows(k, k') && QueueGrows(commands, commands') && CoversGrow(k.rows, replies, k'.rows, replies')
    requires forall w :: w in parts' && w != changed ==> w in parts && parts'[w] == parts[w]
    requires forall w :: w in workers && w != changed ==> w in workers' && workers'[w] == workers[w]
    requires changed in parts' ==>
        changed in workers' && PartOk(k', commands', replies', parts'[changed], workers'[changed])
    ensures PartsInv(k', commands', replies', parts', workers')
  {
    forall w | w in parts' ensures w in workers' && PartOk(k', commands', replies', parts'[w], workers'[w]) {
      if w != changed {
        PartStable(k, commands, replies, k', commands', replies', parts[w], workers[w]);
      }
    }
  }

  lemma CommandsKept(k: Known, q: Queue<CommandBody>, k': Known, q': Queue<CommandBody>)
    requires CommandsInv(k, q) && Grows(k, k') && QueueGrows(q, q') && q'.Valid()
    requires forall m :: m in q'.msgs && m >= q.next ==> CommandBodyOk(k', q'.msgs[m].body)
    ensures CommandsInv(k', q')
  {
  }

  lemma RepliesKept(k: Known, q: Queue<ReplyBody>, k': Known, q': Queue<ReplyBody>)
    requires RepliesInv(k, q) && Grows(k, k') && QueueGrows(q, q') && q'.Valid()
    requires forall m :: m in q'.msgs && m >= q.next ==> ReplyBodyOk(k', q'.msgs[m].body)
    ensures RepliesInv(k', q')
  {
  }

  lemma RowsKept(k: Known, history: map<SagaId, seq<SagaState>>,
                 k': Known, history': map<SagaId, seq<SagaState>>, changed: SagaId)
    requires RowsInv(k, history) && Grows(k, k')
    requires forall x :: x in k'.rows && x != changed ==>
               x in k.rows && k'.rows[x] == k.rows[x] && (x in history ==> x in history' && history'[x] == history[x])
    requires changed in k'.rows ==> RowOk(k', history', changed)
    requires forall x :: x in k'.accepted ==> x in k.accepted || x in k'.rows
    requires forall x :: x in history' ==> x in history || x in k'.rows
    ensures RowsInv(k', history')
  {
    forall x | x in k'.rows ensures RowOk(k', history', x) {
      if x != changed {
        assert RowOk(k, history, x);
      }
    }
  }

  lemma TransitKept(rows: Rows, accepted: set<SagaId>, commands: Queue<CommandBody>, replies: Queue<ReplyBody>,
                    rows': Rows, accepted': set<SagaId>, commands': Queue<CommandBody>, replies': Queue<ReplyBody>)
    requires TransitInv(rows, accepted, commands, replies)
    requires RowsGrow(rows, rows') && CoversGrow(rows, replies, rows', replies')
    requires forall x :: x in accepted' ==> x in accepted || (x in rows' && CommandOut(commands', x))
    requires forall x :: CommandOut(commands, x) ==> CommandOut(commands', x) || Covered(rows', replies', x)
    ensures TransitInv(rows', accepted', commands', replies')
  {
  }

  /** A starter that ended never comes back, so its saga is not published later. */
  lemma CancelsKept(k: Known, active: set<Actor>, tried: set<(SagaId, int)>,
                    k': Known, active': set<Actor>, tried': set<(SagaId, int)>)
    requires CancelsInv(k, active, tried) && Grows(k, k')
    requires forall x :: x in k.issued && Starter(x) !in active ==>
               Starter(x) !in active' && (x in k'.accepted ==> x in k.accepted)
    requires forall x, sub :: (x, sub) in tried' ==> (x, sub) in tried || CancelOk(k', active', x, sub)
    ensures CancelsInv(k', active', tried')
  {
    forall x, sub | (x, sub) in tried' ensures CancelOk(k', active', x, sub) {
      if (x, sub) in tried {
        assert CancelOk(k, active, x, sub);
      }
    }
  }

  lemma WaitersKept(rows: Rows, active: set<Actor>, waiters: map<SagaId, Option<SagaState>>,
                    returned: map<SagaId, Return>,
                    rows': Rows, active': set<Actor>, waiters': map<SagaId, Option<SagaState>>,
                    returned': map<SagaId, Return>, changed: SagaId)
    requires WaitersInv(rows, active, waiters, returned) && RowsGrow(rows, rows')
    requires forall x :: x in waiters' && x != changed ==>
               x in waiters && waiters'[x] == waiters[x] && (Starter(x) in active ==> Starter(x) in active')
    requires changed in waiters' ==> WaiterOk(rows', active', changed, waiters'[changed])
    requires forall x :: x in returned' && x != changed ==> x in returned && returned'[x] == returned[x]
    requires changed in returned' && returned'[changed] == Success ==> InState(rows', changed, Completed)
    ensures WaitersInv(rows', active', waiters', returned')
  {
  }
}
