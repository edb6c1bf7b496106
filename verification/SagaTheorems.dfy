/** What the subscribe saga guarantees in every run: any interleaving of request
    goroutines, reply handlers, reapers and workers, with redeliveries, hidden
    effects of failed calls, lost channels and crashes. */
module SagaTheorems {
  import opened Base
  import opened SagaRows
  import opened SagaProtocol
  import opened SagaInvariant
  import opened SagaSteps
  import Ledger

  // ---------------------------------------------------------------------------
  // A completed saga was mailed

  /** A completed saga implies that the mailer accepted, at least once, a
      confirmation that carries the saga's own confirm URL. */
  lemma CompletedMeansMailed(states: seq<System>, events: seq<Event>, i: nat, x: SagaId)
    requires IsRun(states, events) && i < |states| && InState(states[i].rows, x, Completed)
    ensures exists mail :: mail in states[i].ledger.mails &&
                           mail.ConfirmationMail? && mail.confirmUrl == states[i].rows[x].data.confirmUrl
  {
    hide Enabled, Apply, ProcsInv, PartsInv, CommandsInv, RepliesInv, TransitInv, CancelsInv, WaitersInv,
         Ledger.Balanced;
    RunInv(states, events, i);
    var s := states[i];
    OneRowOk(K(s), s.history, x);
    var url := s.rows[x].data.confirmUrl;
    assert Ledger.MailsOk(s.ledger, Ledger.ConfirmKey(url));
    var mail :| mail in s.ledger.mails && Ledger.KeyOf(mail) == Ledger.ConfirmKey(url);
    Ledger.ConfirmKeyIdentifiesUrl(mail, url);
  }

  // ---------------------------------------------------------------------------
  // No saga is lost in transit

  /** While an accepted saga is awaiting, its command or a reply to it is in the
      broker, queued or unacked. */
  lemma NoSagaLostInTransit(states: seq<System>, events: seq<Event>, i: nat, x: SagaId)
    requires IsRun(states, events) && i < |states|
    requires x in states[i].accepted && InState(states[i].rows, x, Awaiting)
    ensures || (exists m :: m in states[i].commands.msgs && CommandOf(states[i].commands.msgs[m].body, x))
            || (exists m :: m in states[i].replies.msgs && ReplyOf(states[i].replies.msgs[m].body, x))
  {
    hide Enabled, Apply, ProcsInv, PartsInv, CommandsInv, RepliesInv, RowsInv, CancelsInv, WaitersInv, Ledger.Inv;
    RunInv(states, events, i);
  }

  /** A reply leaves the queue only once it is answered for: a sent reply when its
      saga is no longer awaiting, a failed reply when its saga is terminal, and
      otherwise only if it could not be decoded. */
  lemma RemovedReplyIsSettled(states: seq<System>, events: seq<Event>, i: nat, m: nat)
    requires IsRun(states, events) && i < |events|
    requires m in states[i].replies.msgs && m !in states[i + 1].replies.msgs
    ensures match states[i].replies.msgs[m].body
            case BadReply => true
            case ConfirmationSent(x) => NotAwaiting(states[i].rows, x)
            case ConfirmationFailed(x) => Terminal(states[i].rows, x)
  {
    var s, e := states[i], events[i];
    RunInv(states, events, i);
    OnlySettlementRemovesReplies(s, e, m);
    hide Apply, Enabled, PartsInv, CommandsInv, RepliesInv, RowsInv, TransitInv, CancelsInv, WaitersInv, Ledger.Inv;
    HandlerOk(s, e.n);
  }

  lemma OnlySettlementRemovesReplies(s: System, e: Event, m: nat)
    requires Enabled(s, e) && m in s.replies.msgs && m !in Apply(s, e).replies.msgs
    ensures e.OfReplier? && e.reply.SettleReply? && Handling(s, e.n) && s.procs[Replier(e.n)].reply.ToSettle?
    ensures var p := s.procs[Replier(e.n)]; p.msg == m && (p.reply.action.Ack? || p.reply.action.Drop?)
  {
    hide ApplyStart, ApplyCompensation, ApplyReply, ApplyReap, ApplyWork, CanStart, CanCompensate, CanReply, CanReap,
         CanWork,
         Forward, LedgerStepAllowed, Ledger.Apply;
    match e
    case OfStarter(x, step) => StartForward(s, x, step);
    case OfCompensation(a, step) => CompensationForward(s, a, step);
    case OfReplier(n, step) => HandlersRemoveOnlyOnSettlement(s, n, step, m);
    case OfReaper(n, step) => ReapForward(s, n, step);
    case OfWorker(w, step) => WorkForward(s, w, step);
    case _ =>
  }

  lemma HandlersRemoveOnlyOnSettlement(s: System, n: nat, e: ReplyStep, m: nat)
    requires CanReply(s, n, e) && m in s.replies.msgs && m !in ApplyReply(s, n, e).replies.msgs
    ensures e.SettleReply? && Handling(s, n) && s.procs[Replier(n)].reply.ToSettle?
    ensures var p := s.procs[Replier(n)]; p.msg == m && (p.reply.action.Ack? || p.reply.action.Drop?)
  {
  }

  // ---------------------------------------------------------------------------
  // No step goes back

  /** Rows move along their paths, histories and the record of cancels grow. */
  ghost predicate Forward(s: System, s': System) {
    && RowsGrow(s.rows, s'.rows)
    && s.tried <= s'.tried
    && HistoriesGrow(s.history, s'.history)
  }

  ghost predicate HistoriesGrow(h: map<SagaId, seq<SagaState>>, h': map<SagaId, seq<SagaState>>) {
    forall x :: x in h ==> x in h' && h[x] <= h'[x]
  }

  lemma RecordGrows(h: map<SagaId, seq<SagaState>>, x: SagaId, state: SagaState)
    ensures HistoriesGrow(h, Record(h, x, state)) && HistoriesGrow(h, h)
  {
  }

  lemma MoveGrows(rows: Rows, x: SagaId, from: SagaState, to: SagaState)
    requires Later(from, to)
    ensures RowsGrow(rows, Move(rows, x, from, to))
  {
  }

  lemma InsertGrows(rows: Rows, x: SagaId, row: Row)
    ensures RowsGrow(rows, InsertRow(rows, x, row)) && RowsGrow(rows, rows)
  {
  }

  lemma SameForward(s: System, s': System)
    requires s'.rows == s.rows && s'.history == s.history && s.tried <= s'.tried
    ensures Forward(s, s')
  {
  }

  /** A statement about row `x`, recorded; the rest of the state may change too. */
  lemma StatementForward(s: System, s': System, rows: Rows, x: SagaId)
    requires RowsGrow(s.rows, rows) && s'.tried == s.tried
    requires s'.rows == rows && s'.history == WithRows(s, rows, x).history
    ensures Forward(s, s')
  {
    hide HistoriesGrow, RowsGrow, Record;
    if x in rows {
      RecordGrows(s.history, x, rows[x].state);
    }
    RecordGrows(s.history, x, Awaiting);
  }

  lemma StartForward(s: System, x: SagaId, e: StartStep)
    requires CanStart(s, x, e)
    ensures Forward(s, ApplyStart(s, x, e)) && ApplyStart(s, x, e).replies == s.replies
  {
    hide Forward, RowsGrow, ApplyBegin, ApplyCancelReserved, ApplyRegister, ApplyPublishCommand, ApplyReceive, Finish;
    var s' := ApplyStart(s, x, e);
    match e
    case Begin(data, deadline) => BeginFrame(s, x, data, deadline); SameForward(s, s');
    case CreateRow(out) => CreateForward(s, x, out);
    case CancelReserved(out) => CancelReservedFrame(s, x, out); SameForward(s, s');
    case Register => RegisterFrame(s, x); SameForward(s, s');
    case PublishCommand(out) => PublishFrame(s, x, out); SameForward(s, s');
    case Receive => ReceiveFrame(s, x); SameForward(s, s');
    case GiveUp(timeout) => FinishFrame(s, x, if timeout then TimedOutWaiting else ContextDone); SameForward(s, s');
    case ReturnAfterCompensation => FinishFrame(s, x, PublishFailed); SameForward(s, s');
  }

  /** A step of the starter of `x` that leaves the table and the replies alone. */
  ghost predicate StarterFrame(s: System, s': System, x: SagaId) {
    && s'.rows == s.rows && s'.history == s.history && s.tried <= s'.tried && s'.replies == s.replies
    && forall b :: b != Starter(x) && b in s.procs ==> b in s'.procs && s'.procs[b] == s.procs[b]
  }

  lemma BeginFrame(s: System, x: SagaId, data: SubscriptionData, deadline: int)
    ensures var s' := ApplyBegin(s, x, data, deadline);
            StarterFrame(s, s', x) && s'.waiters == s.waiters && s'.returned == s.returned
  {
  }

  lemma CancelReservedFrame(s: System, x: SagaId, out: Outcome)
    requires CanStart(s, x, CancelReserved(out))
    ensures var s' := ApplyCancelReserved(s, x, out);
            StarterFrame(s, s', x) && s'.waiters == s.waiters - {x} && s'.returned == s.returned[x := StartFailed]
  {
  }

  lemma RegisterFrame(s: System, x: SagaId)
    requires CanStart(s, x, Register)
    ensures StarterFrame(s, ApplyRegister(s, x), x)
  {
  }

  lemma PublishFrame(s: System, x: SagaId, out: Outcome)
    requires CanStart(s, x, PublishCommand(out))
    ensures var s' := ApplyPublishCommand(s, x, out);
            StarterFrame(s, s', x) && s'.waiters == s.waiters && s'.returned == s.returned
  {
  }

  lemma ReceiveFrame(s: System, x: SagaId)
    requires CanStart(s, x, Receive)
    ensures StarterFrame(s, ApplyReceive(s, x), x)
  {
  }

  lemma FinishFrame(s: System, x: SagaId, r: Return)
    ensures var s' := Finish(s, x, r);
            StarterFrame(s, s', x) && s'.waiters == s.waiters - {x} && s'.returned == s.returned[x := r]
  {
  }

  lemma CreateForward(s: System, x: SagaId, out: Outcome)
    requires CanStart(s, x, CreateRow(out))
    ensures Forward(s, ApplyCreateRow(s, x, out))
  {
    hide Forward, RowsGrow;
    var s' := ApplyCreateRow(s, x, out);
    if out.TakesEffect() {
      var row := Row(Awaiting, s.issued[x], s.procs[Starter(x)].deadline);
      InsertGrows(s.rows, x, row);
      StatementForward(s, s', InsertRow(s.rows, x, row), x);
    } else {
      SameForward(s, s');
    }
  }

  lemma CompensationForward(s: System, a: Actor, e: CompensationStep)
    requires CanCompensate(s, a, e)
    ensures Forward(s, ApplyCompensation(s, a, e)) && ApplyCompensation(s, a, e).replies == s.replies
  {
    hide Forward, TaskOf, Resume, RowsGrow;
    var s' := ApplyCompensation(s, a, e);
    var x := CurrentTask(s, a).saga;
    MoveGrows(s.rows, x, Awaiting, Compensating);
    MoveGrows(s.rows, x, Compensating, Failed);
    match e
    case Claim(out) =>
      if out.TakesEffect() { StatementForward(s, s', ClaimRow(s.rows, x), x); } else { SameForward(s, s'); }
    case Fetch(_) => SameForward(s, s');
    case Cancel(_) => SameForward(s, s');
    case Mark(out) =>
      if out.TakesEffect() { StatementForward(s, s', MarkRow(s.rows, x), x); } else { SameForward(s, s'); }
  }

  lemma ReplyForward(s: System, n: nat, e: ReplyStep)
    requires CanReply(s, n, e)
    ensures Forward(s, ApplyReply(s, n, e))
  {
    hide Forward, RowsGrow;
    var s' := ApplyReply(s, n, e);
    match e
    case Complete(out) =>
      var x := s.procs[Replier(n)].body.saga;
      MoveGrows(s.rows, x, Awaiting, Completed);
      if out.TakesEffect() { StatementForward(s, s', CompleteRow(s.rows, x), x); } else { SameForward(s, s'); }
    case TakeReply(_) => SameForward(s, s');
    case Dispatch => SameForward(s, s');
    case Signal => SameForward(s, s');
    case AfterCompensation => SameForward(s, s');
    case SettleReply => SameForward(s, s');
    case LoseReplyChannel => SameForward(s, s');
  }

  lemma ReapForward(s: System, n: nat, e: ReapStep)
    requires CanReap(s, n, e)
    ensures Forward(s, ApplyReap(s, n, e)) && ApplyReap(s, n, e).replies == s.replies
  {
    hide Forward, CanReap, ApplyReap;
    ReapFrame(s, n, e);
    SameForward(s, ApplyReap(s, n, e));
  }

  /** A reaper's step changes what that reaper is doing and nothing else. */
  lemma ReapFrame(s: System, n: nat, e: ReapStep)
    requires CanReap(s, n, e)
    ensures var s' := ApplyReap(s, n, e);
            && s' == s.(procs := s'.procs)
            && forall b :: b != Reaper(n) ==>
                 (b in s'.procs <==> b in s.procs) && (b in s.procs ==> s'.procs[b] == s.procs[b])
  {
    hide IsBatch;
    match e
    case StartReap(_, _) =>
    case ReapNext =>
    case StopReap =>
  }

  lemma WorkForward(s: System, w: nat, e: PartStep)
    requires CanWork(s, w, e)
    ensures Forward(s, ApplyWork(s, w, e))
    ensures s.replies.msgs.Keys <= ApplyWork(s, w, e).replies.msgs.Keys
  {
    hide Forward, ApplyWork, CanWork;
    WorkFrame(s, w, e);
    SameForward(s, ApplyWork(s, w, e));
  }

  /** A worker's step leaves everything of the orchestrator alone. */
  lemma WorkFrame(s: System, w: nat, e: PartStep)
    requires CanWork(s, w, e)
    ensures var s' := ApplyWork(s, w, e);
            && s' == s.(commands := s'.commands, replies := s'.replies, parts := s'.parts, ledger := s'.ledger)
            && s.replies.msgs.Keys <= s'.replies.msgs.Keys
  {
    hide Ledger.Apply, Ledger.Enabled;
    match e
    case TakeCommand(_) =>
    case Inspect =>
    case ReturnFromSend =>
    case PublishReply(_) =>
    case SettleCommand =>
    case LoseCommandChannel =>
    case CrashWorker =>
  }

  lemma StepForward(s: System, e: Event)
    requires Enabled(s, e)
    ensures Forward(s, Apply(s, e))
  {
    hide ApplyStart, ApplyCompensation, ApplyReply, ApplyReap, ApplyWork, CanStart, CanCompensate, CanReply, CanReap,
         CanWork,
         Forward, LedgerStepAllowed, Ledger.Apply;
    match e
    case OfStarter(x, step) => StartForward(s, x, step);
    case OfCompensation(a, step) => CompensationForward(s, a, step);
    case OfReplier(n, step) => ReplyForward(s, n, step);
    case OfReaper(n, step) => ReapForward(s, n, step);
    case OfWorker(w, step) => WorkForward(s, w, step);
    case _ => SameForward(s, Apply(s, e));
  }

  lemma {:induction false} RunForward(states: seq<System>, events: seq<Event>, i: nat, j: nat)
    requires IsRun(states, events) && i <= j < |states|
    ensures Forward(states[i], states[j])
  {
    hide Apply, Enabled;
    if i < j {
      RunForward(states, events, i, j - 1);
      StepForward(states[j - 1], events[j - 1]);
    }
  }

  /** Every saga's history is a prefix of awaiting-completed or of
      awaiting-compensating-failed, ends in the row's state, and is only extended. */
  lemma HistoriesArePaths(states: seq<System>, events: seq<Event>, i: nat, j: nat, x: SagaId)
    requires IsRun(states, events) && i <= j < |states| && x in states[i].rows
    ensures x in states[i].history && x in states[j].history
    ensures var h := states[i].history[x];
            && h != [] && h[|h| - 1] == states[i].rows[x].state
            && (h <= [Awaiting, Completed] || h <= [Awaiting, Compensating, Failed])
            && h <= states[j].history[x]
  {
    hide Apply, Enabled, ProcsInv, PartsInv, CommandsInv, RepliesInv, TransitInv, CancelsInv, WaitersInv, Ledger.Inv;
    RunInv(states, events, i);
    RunForward(states, events, i, j);
    OneRowOk(K(states[i]), states[i].history, x);
  }

  /** If a Cancel ran for a saga at any time of a run, the saga is completed at no
      time of that run; and the row it cancelled was the saga's own. */
  lemma CancelledNeverCompletes(states: seq<System>, events: seq<Event>, i: nat, j: nat, x: SagaId, sub: int)
    requires IsRun(states, events) && i < |states| && j < |states| && (x, sub) in states[i].tried
    ensures !InState(states[j].rows, x, Completed)
    ensures x in states[i].issued && sub == states[i].issued[x].subscriptionId
  {
    hide Apply, Enabled, ProcsInv, PartsInv, CommandsInv, RepliesInv, TransitInv, WaitersInv, Ledger.Inv;
    var last := |states| - 1;
    RunForward(states, events, i, last);
    RunForward(states, events, j, last);
    RunInv(states, events, last);
    RunInv(states, events, i);
    var s := states[last];
    assert CancelOk(K(s), s.procs.Keys, x, sub);
    if x in s.rows {
      OneRowOk(K(s), s.history, x);
    }
  }

  /** A saga is failed only after a Cancel for it succeeded. */
  lemma FailedOnlyAfterCancel(states: seq<System>, events: seq<Event>, i: nat, x: SagaId)
    requires IsRun(states, events) && i < |states| && InState(states[i].rows, x, Failed)
    ensures x in states[i].cancelled
  {
    hide Apply, Enabled, ProcsInv, PartsInv, CommandsInv, RepliesInv, TransitInv, CancelsInv, WaitersInv, Ledger.Inv;
    RunInv(states, events, i);
    OneRowOk(K(states[i]), states[i].history, x);
  }

  /** StartAndWait returned nil only if the saga is durably completed, and it
      stays completed. */
  lemma SuccessMeansCompleted(states: seq<System>, events: seq<Event>, i: nat, j: nat, x: SagaId)
    requires IsRun(states, events) && i <= j < |states|
    requires x in states[i].returned && states[i].returned[x] == Success
    ensures InState(states[i].rows, x, Completed) && InState(states[j].rows, x, Completed)
  {
    hide Apply, Enabled, ProcsInv, PartsInv, CommandsInv, RepliesInv, TransitInv, CancelsInv, RowsInv, Ledger.Inv;
    RunInv(states, events, i);
    RunForward(states, events, i, j);
  }
}
