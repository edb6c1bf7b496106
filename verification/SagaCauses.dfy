/** Why a saga is compensated: its deadline has passed, its command could not be
    published, or the notifier refused it. */
module SagaCauses {
  import opened SagaRows
  import opened SagaProtocol
  import opened SagaInvariant
  import opened SagaSteps
  import opened SagaTheorems
  import opened SagaStranded
  import SagaMails
  import Ledger

  // ---------------------------------------------------------------------------
  // The deadline of a row is the one its request gave

  predicate Begins(e: Event, x: SagaId, data: SubscriptionData, deadline: int) {
    e == OfStarter(x, Begin(data, deadline))
  }

  lemma BegunIsIssued(states: seq<System>, events: seq<Event>, b: nat, i: nat, x: SagaId, data: SubscriptionData,
                      deadline: int)
    requires IsRun(states, events) && b < |events| && Begins(events[b], x, data, deadline) && i < |states|
    ensures x in states[i].issued <==> b < i
    ensures b < i ==> states[i].issued[x] == data
  {
    assert Enabled(states[b], events[b]) && states[b + 1] == Apply(states[b], events[b]);
    hide Enabled, Apply;
    if b < i {
      SagaMails.IssuedStay(states, events, b + 1, i, x);
    } else if x in states[i].issued {
      SagaMails.IssuedStay(states, events, i, b, x);
    }
  }

  /** The row and the request of saga `x` have this deadline. */
  predicate Dated(s: System, x: SagaId, deadline: int) {
    && (x in s.rows ==> s.rows[x].timeoutAt == deadline)
    && (Starter(x) in s.procs && s.procs[Starter(x)].Start? ==> s.procs[Starter(x)].deadline == deadline)
  }

  lemma StarterKeepsDate(s: System, y: SagaId, e: StartStep, x: SagaId, deadline: int)
    requires CanStart(s, y, e) && Dated(s, x, deadline) && (y == x ==> !e.Begin?)
    ensures Dated(ApplyStart(s, y, e), x, deadline)
  {
    hide CommandFor, WithRows;
    match e
    case Begin(_, _) =>
    case CreateRow(_) =>
    case CancelReserved(_) =>
    case Register =>
    case PublishCommand(_) =>
    case Receive =>
    case GiveUp(_) =>
    case ReturnAfterCompensation =>
  }

  lemma CompensationKeepsDate(s: System, a: Actor, e: CompensationStep, x: SagaId, deadline: int)
    requires CanCompensate(s, a, e) && Dated(s, x, deadline)
    ensures Dated(ApplyCompensation(s, a, e), x, deadline)
  {
    hide ApplyCompensation, TaskOf;
    CompensationFrame(s, a, e);
  }

  lemma ReplyKeepsDate(s: System, n: nat, e: ReplyStep, x: SagaId, deadline: int)
    requires CanReply(s, n, e) && Dated(s, x, deadline)
    ensures Dated(ApplyReply(s, n, e), x, deadline)
  {
    hide Notify, WithRows;
    match e
    case TakeReply(_) =>
    case Dispatch =>
    case Complete(_) =>
    case Signal =>
    case AfterCompensation =>
    case SettleReply =>
    case LoseReplyChannel =>
  }

  lemma StepKeepsDate(s: System, e: Event, x: SagaId, deadline: int)
    requires Enabled(s, e) && x in s.issued && Dated(s, x, deadline)
    ensures Dated(Apply(s, e), x, deadline)
  {
    hide Dated, ApplyStart, ApplyCompensation, ApplyReply, ApplyReap, ApplyWork, Ledger.Apply, LedgerStepAllowed,
         CanCompensate, CanReply, CanReap, CanWork;
    match e
    case OfStarter(y, step) => StarterKeepsDate(s, y, step, x, deadline);
    case OfCompensation(a, step) => CompensationKeepsDate(s, a, step, x, deadline);
    case OfReplier(n, step) => ReplyKeepsDate(s, n, step, x, deadline);
    case OfReaper(n, step) => ReapFrame(s, n, step); SameDate(s, Apply(s, e), x, deadline);
    case OfWorker(w, step) => WorkFrame(s, w, step); SameDate(s, Apply(s, e), x, deadline);
    case _ => SameDate(s, Apply(s, e), x, deadline);
  }

  lemma SameDate(s: System, s': System, x: SagaId, deadline: int)
    requires Dated(s, x, deadline) && s'.rows == s.rows
    requires Starter(x) in s'.procs ==> Starter(x) in s.procs && s'.procs[Starter(x)] == s.procs[Starter(x)]
    ensures Dated(s', x, deadline)
  {
  }

  /** A saga's row has the data and the deadline that its request began with. */
  lemma {:induction false} RowKeepsDeadline(states: seq<System>, events: seq<Event>, b: nat, i: nat, x: SagaId,
                                            data: SubscriptionData, deadline: int)
    requires IsRun(states, events) && b < |events| && Begins(events[b], x, data, deadline) && b < i < |states|
    ensures Dated(states[i], x, deadline)
    decreases i
  {
    hide Inv, Enabled, Apply;
    BegunIsIssued(states, events, b, i - 1, x, data, deadline);
    if i == b + 1 {
      BeginDates(states, events, b, x, data, deadline);
    } else {
      RowKeepsDeadline(states, events, b, i - 1, x, data, deadline);
      StepKeepsDate(states[i - 1], events[i - 1], x, deadline);
    }
  }

  lemma BeginDates(states: seq<System>, events: seq<Event>, b: nat, x: SagaId, data: SubscriptionData, deadline: int)
    requires IsRun(states, events) && b < |events| && Begins(events[b], x, data, deadline)
    ensures Dated(states[b + 1], x, deadline)
  {
    hide ProcsInv, PartsInv, CommandsInv, RepliesInv, RowsInv, TransitInv, CancelsInv, WaitersInv, Ledger.Inv;
    RunInv(states, events, b);
    assert Enabled(states[b], events[b]) && states[b + 1] == Apply(states[b], events[b]);
    if x in states[b].rows {
      OneRowOk(K(states[b]), states[b].history, x);
    }
  }

  lemma {:induction false} IssuedWasBegun(states: seq<System>, events: seq<Event>, i: nat, x: SagaId)
    returns (b: nat, data: SubscriptionData, deadline: int)
    requires IsRun(states, events) && i < |states| && x in states[i].issued
    ensures b < i && Begins(events[b], x, data, deadline)
  {
    hide Enabled, Apply;
    if x in states[i - 1].issued {
      b, data, deadline := IssuedWasBegun(states, events, i - 1, x);
    } else {
      OnlyItsBeginIssues(states[i - 1], events[i - 1], x);
      b, data, deadline := i - 1, events[i - 1].start.data, events[i - 1].start.deadline;
    }
  }

  lemma OnlyItsBeginIssues(s: System, e: Event, x: SagaId)
    requires Enabled(s, e) && x !in s.issued && x in Apply(s, e).issued
    ensures e.OfStarter? && e.saga == x && e.start.Begin?
  {
    hide ApplyCompensation, ApplyReply, ApplyReap, ApplyWork, CanCompensate, CanReply, CanReap, CanWork, Ledger.Apply;
    if e.OfWorker? {
      WorkFrame(s, e.w, e.part);
    } else if !e.OfLedger? && !(e.OfStarter? && e.start.Begin?) {
      SagaMails.OnlyLedgerStepsMail(s, e);
    }
  }

  /** A reaper lists awaiting sagas only, each after the deadline that its request gave. */
  lemma ReaperListsOnlyTheLate(states: seq<System>, events: seq<Event>, i: nat, n: nat, now: int, ids: seq<SagaId>,
                               x: SagaId)
    returns (b: nat)
    requires IsRun(states, events) && i < |events| && events[i] == OfReaper(n, StartReap(now, ids)) && x in ids
    ensures InState(states[i].rows, x, Awaiting) && states[i].rows[x].timeoutAt < now
    ensures b < i && events[b] == OfStarter(x, Begin(states[i].rows[x].data, states[i].rows[x].timeoutAt))
  {
    hide IsBatch, ProcsInv, PartsInv, CommandsInv, RepliesInv, RowsInv, TransitInv, CancelsInv, WaitersInv, Ledger.Inv,
         Apply;
    assert Enabled(states[i], events[i]);
    BatchMeans(states[i].rows, now, REAPER_BATCH, ids);
    b := RowWasBegun(states, events, i, x);
  }

  lemma RowWasBegun(states: seq<System>, events: seq<Event>, i: nat, x: SagaId) returns (b: nat)
    requires IsRun(states, events) && i < |states| && x in states[i].rows
    ensures b < i && events[b] == OfStarter(x, Begin(states[i].rows[x].data, states[i].rows[x].timeoutAt))
  {
    hide ProcsInv, PartsInv, CommandsInv, RepliesInv, RowsInv, TransitInv, CancelsInv, WaitersInv, Ledger.Inv,
         Enabled, Apply;
    RunInv(states, events, i);
    OneRowOk(K(states[i]), states[i].history, x);
    var data, deadline;
    b, data, deadline := IssuedWasBegun(states, events, i, x);
    BegunIsIssued(states, events, b, i, x, data, deadline);
    RowKeepsDeadline(states, events, b, i, x, data, deadline);
  }

  /** An awaiting saga past its deadline is passed over only for a full batch of sagas
      with deadlines no later than its own. */
  lemma PassedOverOnlyForOlder(states: seq<System>, events: seq<Event>, i: nat, n: nat, now: int, ids: seq<SagaId>,
                               x: SagaId)
    requires IsRun(states, events) && i < |events| && events[i] == OfReaper(n, StartReap(now, ids)) && x !in ids
    requires InState(states[i].rows, x, Awaiting) && states[i].rows[x].timeoutAt < now
    ensures |ids| == REAPER_BATCH && forall k, l :: 0 <= k < l < |ids| ==> ids[k] != ids[l]
    ensures forall k :: 0 <= k < |ids| ==>
              ids[k] in states[i].rows && states[i].rows[ids[k]].timeoutAt <= states[i].rows[x].timeoutAt
  {
    hide Apply;
    assert Enabled(states[i], events[i]);
    BatchMeans(states[i].rows, now, REAPER_BATCH, ids);
  }

  // ---------------------------------------------------------------------------
  // What leads to a compensation

  /** A reaper listed the saga after its deadline. */
  predicate ListsLate(e: Event, x: SagaId, deadline: int) {
    e.OfReaper? && e.reap.StartReap? && x in e.reap.ids && deadline < e.reap.now
  }

  ghost predicate WasListedLate(events: seq<Event>, i: nat, x: SagaId, deadline: int) {
    exists k :: 0 <= k < i && k < |events| && ListsLate(events[k], x, deadline)
  }

  /** The publish of its command reported an error. */
  predicate CannotPublish(e: Event, x: SagaId) {
    e.OfStarter? && e.saga == x && e.start.PublishCommand? && !e.start.out.Ok?
  }

  ghost predicate CouldNotPublish(events: seq<Event>, i: nat, x: SagaId) {
    exists k :: 0 <= k < i && k < |events| && CannotPublish(events[k], x)
  }

  /** A worker published that the confirmation failed. */
  predicate Refuses(s: System, e: Event, x: SagaId) {
    && e.OfWorker? && e.part.PublishReply? && e.part.out.TakesEffect()
    && e.w in s.parts && s.parts[e.w].pc == ToReply(ConfirmationFailed(x))
  }

  ghost predicate WasRefused(states: seq<System>, events: seq<Event>, i: nat, x: SagaId) {
    exists k :: 0 <= k < i && k < |events| && k < |states| && Refuses(states[k], events[k], x)
  }

  /** Which of the three have happened. */
  datatype Causes = Causes(late: bool, unpublished: bool, refused: bool)

  ghost function CausesAt(states: seq<System>, events: seq<Event>, i: nat, x: SagaId, deadline: int): Causes {
    Causes(WasListedLate(events, i, x, deadline), CouldNotPublish(events, i, x), WasRefused(states, events, i, x))
  }

  function AfterEvent(c: Causes, s: System, e: Event, x: SagaId, deadline: int): Causes {
    Causes(c.late || ListsLate(e, x, deadline), c.unpublished || CannotPublish(e, x), c.refused || Refuses(s, e, x))
  }

  /** A process that is about to compensate saga `x` has its cause. */
  predicate ProcHasCause(a: Actor, p: Proc, x: SagaId, c: Causes) {
    && (p.Reap? && x in p.ids ==> c.late)
    && (a == Starter(x) && p.Start? && p.start.StartCompensates? ==> c.unpublished)
    && (p.Handle? && p.body == ConfirmationFailed(x) ==> c.refused)
  }

  ghost predicate HaveCauses(s: System, x: SagaId, c: Causes) {
    (forall a :: a in s.procs ==> ProcHasCause(a, s.procs[a], x, c)) && (NoRefusal(s.replies, x) || c.refused)
  }

  lemma OneMoves(s: System, s': System, a: Actor, x: SagaId, c: Causes, c': Causes)
    requires HaveCauses(s, x, c) && (c.late ==> c'.late) && (c.unpublished ==> c'.unpublished)
    requires c.refused ==> c'.refused
    requires forall b :: b != a && b in s'.procs ==> b in s.procs && s'.procs[b] == s.procs[b]
    requires a in s'.procs ==> ProcHasCause(a, s'.procs[a], x, c')
    requires NoRefusal(s.replies, x) ==> NoRefusal(s'.replies, x) || c'.refused
    ensures HaveCauses(s', x, c')
  {
    hide NoRefusal;
  }

  lemma StarterHasCause(s: System, y: SagaId, e: StartStep, x: SagaId, c: Causes, deadline: int)
    requires HaveCauses(s, x, c) && CanStart(s, y, e)
    ensures HaveCauses(ApplyStart(s, y, e), x, AfterEvent(c, s, OfStarter(y, e), x, deadline))
  {
    var c' := AfterEvent(c, s, OfStarter(y, e), x, deadline);
    StarterMovesWithCause(s, y, e, x, c, deadline);
    StarterSpares(s, y, e, x);
    hide HaveCauses, ApplyStart, CanStart, ProcHasCause;
    OneMoves(s, ApplyStart(s, y, e), Starter(y), x, c, c');
  }

  lemma StarterMovesWithCause(s: System, y: SagaId, e: StartStep, x: SagaId, c: Causes, deadline: int)
    requires HaveCauses(s, x, c) && CanStart(s, y, e)
    ensures var procs := ApplyStart(s, y, e).procs;
            Starter(y) in procs ==>
              ProcHasCause(Starter(y), procs[Starter(y)], x, AfterEvent(c, s, OfStarter(y, e), x, deadline))
  {
    hide CommandFor, InsertRow, WithRows, NoRefusal;
    if Starter(y) in s.procs {
      assert ProcHasCause(Starter(y), s.procs[Starter(y)], x, c);
    }
    hide HaveCauses;
    match e
    case Begin(_, _) =>
    case CreateRow(_) =>
    case CancelReserved(_) =>
    case Register =>
    case PublishCommand(_) =>
    case Receive =>
    case GiveUp(_) =>
    case ReturnAfterCompensation =>
  }

  lemma ResumedHasCause(a: Actor, p: Proc, c: Compensation, x: SagaId, causes: Causes)
    requires ProcHasCause(a, p, x, causes)
    ensures ProcHasCause(a, Resume(p, c), x, causes)
  {
  }

  lemma CompensationHasCause(s: System, a: Actor, e: CompensationStep, x: SagaId, c: Causes)
    requires HaveCauses(s, x, c) && CanCompensate(s, a, e)
    ensures HaveCauses(ApplyCompensation(s, a, e), x, c)
  {
    hide ApplyCompensation, TaskOf, Resume, ProcHasCause, NoRefusal, AfterStep, RowsAfterStep;
    CompensationFrame(s, a, e);
    ResumedHasCause(a, s.procs[a], AfterStep(s.rows, CurrentTask(s, a).saga, e), x, c);
    OneMoves(s, ApplyCompensation(s, a, e), a, x, c, c);
  }

  lemma ReplierHasCause(s: System, n: nat, e: ReplyStep, x: SagaId, c: Causes)
    requires HaveCauses(s, x, c) && CanReply(s, n, e)
    ensures HaveCauses(ApplyReply(s, n, e), x, c)
  {
    ReplierMovesWithCause(s, n, e, x, c);
    ReplierFrame(s, n, e);
    if NoRefusal(s.replies, x) {
      HandlersAddNoReply(s, n, e, x);
    }
    hide ProcHasCause, CanReply, ApplyReply, NoRefusal;
    OneMoves(s, ApplyReply(s, n, e), Replier(n), x, c, c);
  }

  lemma ReplierMovesWithCause(s: System, n: nat, e: ReplyStep, x: SagaId, c: Causes)
    requires HaveCauses(s, x, c) && CanReply(s, n, e)
    ensures var procs := ApplyReply(s, n, e).procs;
            Replier(n) in procs ==> ProcHasCause(Replier(n), procs[Replier(n)], x, c)
  {
    hide Notify, CompleteRow, WithRows;
    if Replier(n) in s.procs {
      assert ProcHasCause(Replier(n), s.procs[Replier(n)], x, c);
    }
    match e
    case TakeReply(_) =>
    case Dispatch =>
    case Complete(_) =>
    case Signal =>
    case AfterCompensation =>
    case SettleReply =>
    case LoseReplyChannel =>
  }

  lemma ReaperHasCause(s: System, n: nat, e: ReapStep, x: SagaId, c: Causes, deadline: int)
    requires HaveCauses(s, x, c) && CanReap(s, n, e) && Dated(s, x, deadline)
    ensures HaveCauses(ApplyReap(s, n, e), x, AfterEvent(c, s, OfReaper(n, e), x, deadline))
  {
    var c' := AfterEvent(c, s, OfReaper(n, e), x, deadline);
    ReaperMovesWithCause(s, n, e, x, c, deadline);
    ReapFrame(s, n, e);
    hide ProcHasCause, CanReap, ApplyReap, NoRefusal;
    OneMoves(s, ApplyReap(s, n, e), Reaper(n), x, c, c');
  }

  lemma ReaperMovesWithCause(s: System, n: nat, e: ReapStep, x: SagaId, c: Causes, deadline: int)
    requires HaveCauses(s, x, c) && CanReap(s, n, e) && Dated(s, x, deadline)
    ensures var procs := ApplyReap(s, n, e).procs;
            Reaper(n) in procs ==>
              ProcHasCause(Reaper(n), procs[Reaper(n)], x, AfterEvent(c, s, OfReaper(n, e), x, deadline))
  {
    hide NoRefusal, IsBatch;
    if Reaper(n) in s.procs {
      assert ProcHasCause(Reaper(n), s.procs[Reaper(n)], x, c);
    }
    match e
    case StartReap(now, ids) => BatchMeans(s.rows, now, REAPER_BATCH, ids);
    case ReapNext =>
    case StopReap =>
  }

  lemma WorkerHasCause(s: System, w: nat, e: PartStep, x: SagaId, c: Causes, deadline: int)
    requires HaveCauses(s, x, c) && CanWork(s, w, e)
    ensures HaveCauses(ApplyWork(s, w, e), x, AfterEvent(c, s, OfWorker(w, e), x, deadline))
  {
    var c' := AfterEvent(c, s, OfWorker(w, e), x, deadline);
    if NoRefusal(s.replies, x) {
      WorkerPublishesWithCause(s, w, e, x);
    }
    WorkFrame(s, w, e);
    hide CanWork, ApplyWork, NoRefusal;
    OneMoves(s, ApplyWork(s, w, e), Reaper(0), x, c, c');
  }

  lemma WorkerPublishesWithCause(s: System, w: nat, e: PartStep, x: SagaId)
    requires NoRefusal(s.replies, x) && CanWork(s, w, e)
    ensures NoRefusal(ApplyWork(s, w, e).replies, x) || Refuses(s, OfWorker(w, e), x)
  {
    hide Ledger.Apply;
    match e
    case TakeCommand(_) =>
    case Inspect =>
    case ReturnFromSend =>
    case PublishReply(_) =>
    case SettleCommand =>
    case LoseCommandChannel =>
    case CrashWorker =>
  }

  lemma StepHasCause(s: System, e: Event, x: SagaId, c: Causes, deadline: int)
    requires HaveCauses(s, x, c) && Enabled(s, e) && Dated(s, x, deadline)
    ensures HaveCauses(Apply(s, e), x, AfterEvent(c, s, e, x, deadline))
  {
    match e
    case OfStarter(y, step) => StarterHasCause(s, y, step, x, c, deadline);
    case OfCompensation(a, step) => CompensationHasCause(s, a, step, x, c);
    case OfReplier(n, step) => ReplierHasCause(s, n, step, x, c);
    case OfReaper(n, step) => ReaperHasCause(s, n, step, x, c, deadline);
    case OfWorker(w, step) => WorkerHasCause(s, w, step, x, c, deadline);
    case _ =>
  }

  lemma AlwaysDated(states: seq<System>, events: seq<Event>, b: nat, i: nat, x: SagaId, data: SubscriptionData,
                    deadline: int)
    requires IsRun(states, events) && b < |events| && Begins(events[b], x, data, deadline) && i < |states|
    ensures Dated(states[i], x, deadline)
  {
    hide PartsInv, CommandsInv, RepliesInv, TransitInv, CancelsInv, WaitersInv, Ledger.Inv, Enabled, Apply;
    if b < i {
      RowKeepsDeadline(states, events, b, i, x, data, deadline);
    } else {
      BegunIsIssued(states, events, b, i, x, data, deadline);
      RunInv(states, events, i);
      if x in states[i].rows {
        OneRowOk(K(states[i]), states[i].history, x);
      }
      if Starter(x) in states[i].procs {
        StarterIsOk(states[i], x);
      }
    }
  }

  lemma CausesGrow(states: seq<System>, events: seq<Event>, i: nat, x: SagaId, deadline: int)
    requires i < |events| < |states|
    ensures CausesAt(states, events, i + 1, x, deadline) ==
            AfterEvent(CausesAt(states, events, i, x, deadline), states[i], events[i], x, deadline)
  {
    hide ListsLate, CannotPublish, Refuses;
  }

  lemma {:induction false} RunHasCauses(states: seq<System>, events: seq<Event>, b: nat, i: nat, x: SagaId,
                                        data: SubscriptionData, deadline: int)
    requires IsRun(states, events) && b < |events| && Begins(events[b], x, data, deadline) && i < |states|
    ensures HaveCauses(states[i], x, CausesAt(states, events, i, x, deadline))
    decreases i
  {
    if i > 0 {
      hide Enabled, Apply, HaveCauses, CausesAt, AfterEvent, Dated;
      RunHasCauses(states, events, b, i - 1, x, data, deadline);
      AlwaysDated(states, events, b, i - 1, x, data, deadline);
      StepHasCause(states[i - 1], events[i - 1], x, CausesAt(states, events, i - 1, x, deadline), deadline);
      CausesGrow(states, events, i - 1, x, deadline);
    }
  }

  // ---------------------------------------------------------------------------
  // Whole runs

  /** How one step can move the row of saga `x`. */
  predicate RowSteps(rows: Rows, rows': Rows, x: SagaId) {
    x in rows' ==>
      if x in rows then rows'[x].state == rows[x].state || Allowed(rows[x].state, rows'[x].state)
      else rows'[x].state == Awaiting
  }

  lemma StarterMovesRow(s: System, y: SagaId, e: StartStep, x: SagaId)
    requires CanStart(s, y, e)
    ensures RowSteps(s.rows, ApplyStart(s, y, e).rows, x)
    ensures x in s.rows ==> x in ApplyStart(s, y, e).rows && ApplyStart(s, y, e).rows[x] == s.rows[x]
  {
    hide CommandFor, WithRows;
    match e
    case Begin(_, _) =>
    case CreateRow(_) =>
    case CancelReserved(_) =>
    case Register =>
    case PublishCommand(_) =>
    case Receive =>
    case GiveUp(_) =>
    case ReturnAfterCompensation =>
  }

  lemma ReplierMovesRow(s: System, n: nat, e: ReplyStep, x: SagaId)
    requires CanReply(s, n, e)
    ensures RowSteps(s.rows, ApplyReply(s, n, e).rows, x)
    ensures InState(s.rows, x, Awaiting) ==> !InState(ApplyReply(s, n, e).rows, x, Compensating)
  {
    hide Notify, WithRows;
    match e
    case TakeReply(_) =>
    case Dispatch =>
    case Complete(_) =>
    case Signal =>
    case AfterCompensation =>
    case SettleReply =>
    case LoseReplyChannel =>
  }

  /** Rows move along their paths one step at a time, and only a step of compensate for
      saga `x` can claim it. */
  lemma StepMovesRow(s: System, e: Event, x: SagaId)
    requires Enabled(s, e)
    ensures RowSteps(s.rows, Apply(s, e).rows, x)
    ensures InState(s.rows, x, Awaiting) && InState(Apply(s, e).rows, x, Compensating) ==>
              e.OfCompensation? && TaskAt(s, e.actor) && CurrentTask(s, e.actor).saga == x
  {
    hide ApplyStart, ApplyCompensation, ApplyReply, ApplyReap, ApplyWork, CanStart, CanReply, CanReap, CanWork, TaskOf,
         Ledger.Apply, LedgerStepAllowed;
    match e
    case OfStarter(y, step) => StarterMovesRow(s, y, step, x);
    case OfCompensation(a, step) => CompensationFrame(s, a, step);
    case OfReplier(n, step) => ReplierMovesRow(s, n, step, x);
    case OfReaper(n, step) => ReapFrame(s, n, step);
    case OfWorker(w, step) => WorkFrame(s, w, step);
    case _ =>
  }

  lemma TaskHasCause(a: Actor, p: Proc, x: SagaId, c: Causes)
    requires ProcHasCause(a, p, x, c) && TaskOf(a, p).Some? && TaskOf(a, p).value.saga == x
    ensures c.late || c.unpublished || c.refused
  {
  }

  /** A saga is claimed only after a reaper listed it past its deadline, its command
      could not be published, or a worker published that its confirmation failed. */
  lemma ClaimedForCause(states: seq<System>, events: seq<Event>, i: nat, x: SagaId)
    requires IsRun(states, events) && i < |events|
    requires InState(states[i].rows, x, Awaiting) && InState(states[i + 1].rows, x, Compensating)
    ensures || WasListedLate(events, i, x, states[i].rows[x].timeoutAt)
            || CouldNotPublish(events, i, x)
            || WasRefused(states, events, i, x)
  {
    hide Enabled, Apply, ProcHasCause, TaskOf, NoRefusal, WasListedLate, CouldNotPublish, WasRefused;
    var s, e := states[i], events[i];
    StepMovesRow(s, e, x);
    var b := RowWasBegun(states, events, i, x);
    RunHasCauses(states, events, b, i, x, s.rows[x].data, s.rows[x].timeoutAt);
    var c := CausesAt(states, events, i, x, s.rows[x].timeoutAt);
    assert ProcHasCause(e.actor, s.procs[e.actor], x, c);
    TaskHasCause(e.actor, s.procs[e.actor], x, c);
  }

  lemma {:induction false} UncausedIsLeftAlone(states: seq<System>, events: seq<Event>, i: nat, x: SagaId)
    requires IsRun(states, events) && i < |states| && x in states[i].rows
    requires CausesAt(states, events, i, x, states[i].rows[x].timeoutAt) == Causes(false, false, false)
    ensures states[i].rows[x].state == Awaiting || states[i].rows[x].state == Completed
  {
    hide CausesAt, Enabled, Apply;
    if i > 0 {
      var s, s' := states[i - 1], states[i];
      StepMovesRow(s, events[i - 1], x);
      if x in s.rows {
        DeadlineStays(states, events, i - 1, x);
        CausesGrow(states, events, i - 1, x, s.rows[x].timeoutAt);
        UncausedIsLeftAlone(states, events, i - 1, x);
        if InState(s.rows, x, Awaiting) && InState(s'.rows, x, Compensating) {
          ClaimHasCause(states, events, i - 1, x);
        }
      }
    }
  }

  lemma ClaimHasCause(states: seq<System>, events: seq<Event>, i: nat, x: SagaId)
    requires IsRun(states, events) && i < |events|
    requires InState(states[i].rows, x, Awaiting) && InState(states[i + 1].rows, x, Compensating)
    ensures CausesAt(states, events, i, x, states[i].rows[x].timeoutAt) != Causes(false, false, false)
  {
    hide IsRun, WasListedLate, CouldNotPublish, WasRefused;
    ClaimedForCause(states, events, i, x);
  }

  /** So a saga whose command was published, and which no worker refused, is left alone
      as long as no reaper looks past its deadline. */
  lemma InFlightIsLeftAlone(states: seq<System>, events: seq<Event>, i: nat, x: SagaId)
    requires IsRun(states, events) && i < |states| && x in states[i].rows
    requires !CouldNotPublish(events, i, x) && !WasRefused(states, events, i, x)
    requires forall k :: 0 <= k < i && events[k].OfReaper? && events[k].reap.StartReap? ==>
               events[k].reap.now <= states[i].rows[x].timeoutAt
    ensures states[i].rows[x].state == Awaiting || states[i].rows[x].state == Completed
  {
    hide Enabled, Apply, CouldNotPublish, WasRefused, WasListedLate;
    NotListedYet(events, i, x, states[i].rows[x].timeoutAt);
    UncausedIsLeftAlone(states, events, i, x);
  }

  lemma NotListedYet(events: seq<Event>, i: nat, x: SagaId, deadline: int)
    requires i <= |events| && forall k :: 0 <= k < i && events[k].OfReaper? && events[k].reap.StartReap? ==>
               events[k].reap.now <= deadline
    ensures !WasListedLate(events, i, x, deadline)
  {
  }

  lemma DeadlineStays(states: seq<System>, events: seq<Event>, i: nat, x: SagaId)
    requires IsRun(states, events) && i < |events| && x in states[i].rows && x in states[i + 1].rows
    ensures states[i + 1].rows[x].timeoutAt == states[i].rows[x].timeoutAt
  {
    hide Enabled, Apply;
    var b := RowWasBegun(states, events, i, x);
    RowKeepsDeadline(states, events, b, i + 1, x, states[i].rows[x].data, states[i].rows[x].timeoutAt);
  }
}
