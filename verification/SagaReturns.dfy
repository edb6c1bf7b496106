/** What the errors of StartAndWait say about the saga: less than their descriptions,
    and exactly how much. */
module SagaReturns {
  import opened Base
  import opened SagaRows
  import opened SagaProtocol
  import opened SagaInvariant
  import opened SagaSteps
  import opened SagaTheorems
  import opened SagaWaiters
  import opened SagaStories
  import Ledger

  // ---------------------------------------------------------------------------
  // A cancel that succeeded was tried

  ghost predicate CancelledWereTried(cancelled: set<SagaId>, tried: set<(SagaId, int)>) {
    forall x :: x in cancelled ==> exists sub :: (x, sub) in tried
  }

  lemma CancelRecorded(s: System, x: SagaId, sub: int, out: Outcome)
    requires CancelledWereTried(s.cancelled, s.tried)
    ensures CancelledWereTried(RecordCancel(s, x, sub, out).cancelled, RecordCancel(s, x, sub, out).tried)
  {
    var s' := RecordCancel(s, x, sub, out);
    forall y | y in s'.cancelled ensures exists sub :: (y, sub) in s'.tried {
      if y in s.cancelled {
        var sub' :| (y, sub') in s.tried;
        assert (y, sub') in s'.tried;
      } else {
        assert (y, sub) in s'.tried;
      }
    }
  }

  lemma StartRecordsCancels(s: System, x: SagaId, e: StartStep)
    requires CanStart(s, x, e) && CancelledWereTried(s.cancelled, s.tried)
    ensures CancelledWereTried(ApplyStart(s, x, e).cancelled, ApplyStart(s, x, e).tried)
  {
    hide CancelledWereTried, InsertRow, CommandFor, RecordCancel;
    match e
    case Begin(_, _) =>
    case CreateRow(_) =>
    case CancelReserved(out) => CancelRecorded(s, x, s.issued[x].subscriptionId, out);
    case Register =>
    case PublishCommand(_) =>
    case Receive =>
    case GiveUp(_) =>
    case ReturnAfterCompensation =>
  }

  lemma CompensationRecordsCancels(s: System, a: Actor, e: CompensationStep)
    requires CanCompensate(s, a, e) && CancelledWereTried(s.cancelled, s.tried)
    ensures CancelledWereTried(ApplyCompensation(s, a, e).cancelled, ApplyCompensation(s, a, e).tried)
  {
    hide CancelledWereTried, TaskOf, Resume, ClaimRow, MarkRow, AfterClaim, AfterFetch, InState, RecordCancel;
    match e
    case Claim(_) =>
    case Fetch(_) =>
    case Cancel(out) => CancelRecorded(s, CurrentTask(s, a).saga, CurrentTask(s, a).c.subscriptionId, out);
    case Mark(_) =>
  }

  lemma OthersCancelNothing(s: System, e: Event)
    requires Enabled(s, e) && !e.OfStarter? && !e.OfCompensation?
    ensures Apply(s, e).cancelled == s.cancelled && Apply(s, e).tried == s.tried
  {
    match e
    case OfReplier(n, step) => ReplyCancelsNothing(s, n, step);
    case OfReaper(n, step) => ReapFrame(s, n, step);
    case OfWorker(w, step) => WorkFrame(s, w, step);
    case _ =>
  }

  lemma ReplyCancelsNothing(s: System, n: nat, e: ReplyStep)
    requires CanReply(s, n, e)
    ensures ApplyReply(s, n, e).cancelled == s.cancelled && ApplyReply(s, n, e).tried == s.tried
  {
    hide CompleteRow, Notify;
    match e
    case TakeReply(_) =>
    case Dispatch =>
    case Complete(_) =>
    case Signal =>
    case AfterCompensation =>
    case SettleReply =>
    case LoseReplyChannel =>
  }

  lemma {:induction false} RunRecordsCancels(states: seq<System>, events: seq<Event>, i: nat)
    requires IsRun(states, events) && i < |states|
    ensures CancelledWereTried(states[i].cancelled, states[i].tried)
  {
    if i > 0 {
      hide CancelledWereTried, Enabled, Apply;
      RunRecordsCancels(states, events, i - 1);
      StepRecordsCancels(states[i - 1], events[i - 1]);
    }
  }

  lemma StepRecordsCancels(s: System, e: Event)
    requires Enabled(s, e) && CancelledWereTried(s.cancelled, s.tried)
    ensures CancelledWereTried(Apply(s, e).cancelled, Apply(s, e).tried)
  {
    hide CancelledWereTried, ApplyStart, ApplyCompensation, CanStart, CanCompensate, ApplyReply, ApplyReap, ApplyWork;
    if e.OfStarter? {
      StartRecordsCancels(s, e.saga, e.start);
    } else if e.OfCompensation? {
      CompensationRecordsCancels(s, e.actor, e.comp);
    } else {
      OthersCancelNothing(s, e);
    }
  }

  // ---------------------------------------------------------------------------
  // The error of a failed publish

  /** However the request returned, once the saga is terminal the subscription was
      cancelled if and only if the saga is failed, and that if and only if it did not
      complete. */
  lemma TerminalIsCancelledIffFailed(states: seq<System>, events: seq<Event>, i: nat, x: SagaId)
    requires IsRun(states, events) && i < |states| && Terminal(states[i].rows, x)
    ensures x in states[i].cancelled <==> InState(states[i].rows, x, Failed)
    ensures InState(states[i].rows, x, Failed) <==> !InState(states[i].rows, x, Completed)
  {
    hide Enabled, Apply;
    RunRecordsCancels(states, events, i);
    if x in states[i].cancelled {
      var sub :| (x, sub) in states[i].tried;
      CancelledNeverCompletes(states, events, i, i, x, sub);
    } else if InState(states[i].rows, x, Failed) {
      FailedOnlyAfterCancel(states, events, i, x);
    }
  }

  /** When the compensation after a failed publish is over and reported no error, the
      subscription was compensated exactly if the saga is failed, and that exactly if
      it did not complete; and it cannot have completed unless the broker had accepted
      the command. So the error's promise is kept in every run in which the
      compensation worked and the command was not accepted. */
  lemma CompensatedIffNotCompleted(states: seq<System>, events: seq<Event>, i: nat, j: nat, x: SagaId)
    requires IsRun(states, events) && i <= j < |states| && StarterAt(states[i], x, StartCompensates(Finished(true)))
    ensures x in states[i].cancelled <==> InState(states[i].rows, x, Failed)
    ensures InState(states[i].rows, x, Failed) <==> !InState(states[i].rows, x, Completed)
    ensures x !in states[i].accepted ==> x in states[i].cancelled
    ensures forall state :: InState(states[i].rows, x, state) ==> InState(states[j].rows, x, state)
  {
    hide Enabled, Apply, PartsInv, CommandsInv, RepliesInv, TransitInv, CancelsInv, WaitersInv, Ledger.Inv, ProcsInv,
         RowsInv;
    RunInv(states, events, i);
    StarterIsOk(states[i], x);
    OneRowOk(K(states[i]), states[i].history, x);
    RunForward(states, events, i, j);
    TerminalIsCancelledIffFailed(states, events, i, x);
  }

  /** One step of compensate by the request of saga `x`. */
  lemma RequestCompensates(t: Story, mode: Mode, s: System, x: SagaId, c: Compensation, e: CompensationStep,
                           c': Compensation)
    returns (t': Story)
    requires Tells(t, mode) && StarterAt(s, x, StartCompensates(c)) && (mode.single ==> OneReplyAtATime(s))
    requires Last(t) == s && x in s.rows
    requires || (e == Claim(ErrNoEffect) && c.ToClaim? && c' == Finished(false))
             || (e == Claim(Ok) && c.ToClaim? && InState(s.rows, x, Completed) && c' == ToFetch)
             || (e == Fetch(true) && c.ToFetch? && InState(s.rows, x, Completed) && c' == Finished(true))
    ensures Tells(t', mode) && Last(t') == SetStarter(s, x, StartCompensates(c'))
  {
    hide Tells;
    assert TaskAt(s, Starter(x)) && CurrentTask(s, Starter(x)) == Task(x, c);
    t' := Continue(t, mode, OfCompensation(Starter(x), e), SetStarter(s, x, StartCompensates(c')));
  }

  lemma RequestReturns(t: Story, mode: Mode, s: System, x: SagaId, ok: bool) returns (t': Story)
    requires Tells(t, mode) && StarterAt(s, x, StartCompensates(Finished(ok))) && (mode.single ==> OneReplyAtATime(s))
    requires Last(t) == s
    ensures Tells(t', mode) && Last(t') == Finish(s, x, PublishFailed) && t'.states == t.states + [Last(t')]
  {
    hide Tells;
    t' := Continue(t, mode, OfStarter(x, ReturnAfterCompensation), Finish(s, x, PublishFailed));
  }

  /** The claim fails, whether or not the broker had accepted the command: the request
      is told that the confirmation failed while its saga is still awaiting and
      nothing was cancelled. */
  lemma FailedCompensationLeavesSagaOpen(x: SagaId, data: SubscriptionData, publish: Outcome) returns (t: Story)
    requires !publish.Ok?
    ensures IsRun(t.states, t.events) && t.states != []
    ensures var s := Last(t);
            && x in s.returned && s.returned[x] == PublishFailed && InState(s.rows, x, Awaiting)
            && s.tried == {} && x !in s.cancelled && (x in s.accepted <==> publish.TakesEffect())
  {
    t := CommandIsPublished(x, data, publish, ANY_MODE);
    t := RequestCompensates(t, ANY_MODE, Published(x, data, publish), x, ToClaim, Claim(ErrNoEffect), Finished(false));
    t := RequestReturns(t, ANY_MODE, Last(t), x, false);
  }

  /** The publish reports an error after its effect and the reply completes the saga
      before the claim: the compensation reports no error, nothing was cancelled, and
      the request is told that the confirmation failed. */
  lemma CompletedThoughPublishFailed(x: SagaId, data: SubscriptionData) returns (t: Story)
    requires HasFields(data)
    ensures IsRun(t.states, t.events) && |t.states| > 1
    ensures StarterAt(t.states[|t.states| - 2], x, StartCompensates(Finished(true)))
    ensures var s := Last(t);
            && x in s.returned && s.returned[x] == PublishFailed && InState(s.rows, x, Completed)
            && x in s.accepted && x !in s.cancelled
  {
    hide Tells;
    t := CompletedBeforeClaim(x, data);
    var s := Last(t);
    t := RequestCompensates(t, ANY_MODE, s, x, ToClaim, Claim(Ok), ToFetch);
    t := RequestCompensates(t, ANY_MODE, Last(t), x, ToFetch, Fetch(true), Finished(true));
    t := RequestReturns(t, ANY_MODE, Last(t), x, true);
    StoryIsRun(t, ANY_MODE);
  }

  lemma CompletedBeforeClaim(x: SagaId, data: SubscriptionData) returns (t: Story)
    requires HasFields(data)
    ensures Tells(t, ANY_MODE) && StarterAt(Last(t), x, StartCompensates(ToClaim)) &&
            InState(Last(t).rows, x, Completed)
    ensures x in Last(t).accepted && x !in Last(t).cancelled
  {
    hide Tells;
    var l: Ledger.State;
    t := CommandIsPublished(x, data, ErrAfterEffect, ANY_MODE);
    t, l := WorkerMails(t, ANY_MODE, 0, 0);
    t := SentReplyCompletes(t, ANY_MODE, 0, 0, x, Ok);
  }

  // ---------------------------------------------------------------------------
  // The error of a timeout

  /** The request is told to leave the subscription to the reaper, and then the late
      reply completes the saga: nothing will be compensated. */
  lemma CompletedThoughTimedOut(x: SagaId, data: SubscriptionData) returns (t: Story)
    requires HasFields(data)
    ensures IsRun(t.states, t.events) && t.states != []
    ensures var s := Last(t);
            && x in s.returned && s.returned[x] == TimedOutWaiting && InState(s.rows, x, Completed)
            && x !in s.cancelled
  {
    hide Tells;
    var l: Ledger.State;
    t, l := RequestGivesUp(x, data);
    t := SentReplyCompletes(t, ANY_MODE, 0, 0, x, Ok);
    StoryIsRun(t, ANY_MODE);
  }

  // ---------------------------------------------------------------------------
  // A failure through the waiter

  /** Both answers to the same command are queued: the failed one first, whose publish
      reported an error, so that the command came back and was served. */
  lemma BothAnswersAreQueued(x: SagaId, data: SubscriptionData, mode: Mode) returns (t: Story)
    requires HasFields(data)
    ensures Tells(t, mode)
    ensures var s := Last(t);
            && StarterAt(s, x, Waiting) && s.procs.Keys == {Starter(x)} && InState(s.rows, x, Awaiting)
            && x in s.waiters && s.waiters[x].None? && x in s.history
            && s.replies.Ready(0) && s.replies.msgs[0].body == ConfirmationFailed(x)
            && s.replies.Ready(1) && s.replies.msgs[1].body == ConfirmationSent(x)
  {
    hide Tells;
    var l: Ledger.State;
    t := CommandIsPublished(x, data, Ok, mode);
    t := WorkerFails(t, mode, 0, 0);
    t, l := WorkerMails(t, mode, 0, 0);
  }

  /** One handler at a time is not enough: a completion whose update reported an error
      is not signalled, and the failed reply then signals a failure. */
  lemma HiddenCompletionMisleads(x: SagaId, data: SubscriptionData) returns (t: Story)
    requires HasFields(data)
    ensures Tells(t, Mode(true, false)) && x in Last(t).returned && Last(t).returned[x] == FailureReported
    ensures InState(Last(t).rows, x, Completed)
  {
    hide Tells;
    var mode := Mode(true, false);
    t := BothAnswersAreQueued(x, data, mode);
    var s := Moved(Last(t), x, Completed);
    t := SentReplyCompletes(t, mode, 0, 1, x, ErrAfterEffect);
    t := ReplyGoesBack(t, mode, s, 0, 1);
    t := FailedReplySignals(t, mode, 0, 0, x);
    t := SignalIsReceived(t, mode, x, FailureReported);
  }

  /** Honest updates are not enough: a second handler can signal the failure before the
      first one signals the completion. */
  lemma TwoHandlersMislead(x: SagaId, data: SubscriptionData) returns (t: Story)
    requires HasFields(data)
    ensures Tells(t, Mode(false, true)) && x in Last(t).returned && Last(t).returned[x] == FailureReported
    ensures InState(Last(t).rows, x, Completed)
  {
    hide Tells;
    var mode := Mode(false, true);
    t := BothAnswersAreQueued(x, data, mode);
    t := SentReplyCompletes(t, mode, 0, 1, x, Ok);
    t := FailedReplySignals(t, mode, 1, 0, x);
    t := SignalIsReceived(t, mode, x, FailureReported);
  }

  // ---------------------------------------------------------------------------
  // Every return has its own step

  /** A request that returned is over for good. */
  ghost predicate ReturnedAreOver(s: System) {
    forall x :: x in s.returned ==> x in s.issued && Starter(x) !in s.procs
  }

  lemma CompensationReturnsNothing(s: System, a: Actor, e: CompensationStep)
    requires CanCompensate(s, a, e)
    ensures var s' := ApplyCompensation(s, a, e);
            s'.returned == s.returned && s'.issued == s.issued && s'.procs.Keys == s.procs.Keys
  {
    hide TaskOf, Resume, AfterClaim, AfterFetch, WithRows, ClaimRow, MarkRow;
    match e
    case Claim(_) =>
    case Fetch(_) =>
    case Cancel(_) =>
    case Mark(_) =>
  }

  lemma ReplyReturnsNothing(s: System, n: nat, e: ReplyStep)
    requires CanReply(s, n, e)
    ensures var s' := ApplyReply(s, n, e);
            && s'.returned == s.returned && s'.issued == s.issued
            && forall b :: b in s'.procs ==> b in s.procs || b == Replier(n)
  {
    hide Notify, WithRows, CompleteRow;
    match e
    case TakeReply(_) =>
    case Dispatch =>
    case Complete(_) =>
    case Signal =>
    case AfterCompensation =>
    case SettleReply =>
    case LoseReplyChannel =>
  }

  lemma OthersReturnNothing(s: System, e: Event)
    requires Enabled(s, e) && !e.OfStarter?
    ensures var s' := Apply(s, e);
            && s'.returned == s.returned && s'.issued == s.issued
            && forall x :: Starter(x) in s'.procs ==> Starter(x) in s.procs
  {
    hide ApplyCompensation, ApplyReply, ApplyReap, ApplyWork, Ledger.Apply, CanCompensate, CanReply, CanReap, CanWork,
         LedgerStepAllowed;
    match e
    case OfCompensation(a, step) => CompensationReturnsNothing(s, a, step);
    case OfReplier(n, step) => ReplyReturnsNothing(s, n, step);
    case OfReaper(n, step) => ReapFrame(s, n, step);
    case OfWorker(w, step) => WorkFrame(s, w, step);
    case _ =>
  }

  /** Which step of the request records which return. */
  predicate ReturnsBy(e: StartStep, r: Return) {
    match r
    case Success => e == Receive
    case FailureReported => e == Receive
    case TimedOutWaiting => e == GiveUp(true)
    case ContextDone => e == GiveUp(false)
    case PublishFailed => e == ReturnAfterCompensation
    case StartFailed => e.CancelReserved?
  }

  predicate IsReturn(e: StartStep) {
    e.Receive? || e.GiveUp? || e.ReturnAfterCompensation? || e.CancelReserved?
  }

  lemma StarterRecords(s: System, y: SagaId, e: StartStep)
    requires CanStart(s, y, e)
    ensures var returned := ApplyStart(s, y, e).returned;
            if IsReturn(e)
            then y in returned && ReturnsBy(e, returned[y]) && returned == s.returned[y := returned[y]]
            else returned == s.returned
  {
    hide CommandFor, WithRows, InsertRow;
    match e
    case Begin(_, _) =>
    case CreateRow(_) =>
    case CancelReserved(_) =>
    case Register =>
    case PublishCommand(_) =>
    case Receive =>
    case GiveUp(_) =>
    case ReturnAfterCompensation =>
  }

  lemma StarterEnds(s: System, y: SagaId, e: StartStep)
    requires CanStart(s, y, e)
    ensures var s' := ApplyStart(s, y, e);
            && (forall x :: x in s.issued ==> x in s'.issued)
            && (forall x :: x != y && Starter(x) in s'.procs ==> Starter(x) in s.procs)
            && (if e.Begin? then y !in s.issued else y in s.issued && Starter(y) in s.procs)
            && (IsReturn(e) ==> Starter(y) !in s'.procs)
  {
    hide CommandFor, WithRows, InsertRow;
    match e
    case Begin(_, _) =>
    case CreateRow(_) =>
    case CancelReserved(_) =>
    case Register =>
    case PublishCommand(_) =>
    case Receive =>
    case GiveUp(_) =>
    case ReturnAfterCompensation =>
  }

  lemma StarterReturns(s: System, y: SagaId, e: StartStep)
    requires CanStart(s, y, e) && ReturnedAreOver(s)
    ensures var s' := ApplyStart(s, y, e);
            && ReturnedAreOver(s')
            && (forall x :: x in s.returned ==> x in s'.returned && s'.returned[x] == s.returned[x])
            && (forall x :: x in s'.returned && x !in s.returned ==> x == y && ReturnsBy(e, s'.returned[y]))
            && (IsReturn(e) ==> y in s'.returned && y !in s.returned)
  {
    hide CanStart, ApplyStart, ReturnsBy;
    StarterRecords(s, y, e);
    StarterEnds(s, y, e);
  }

  lemma StepReturns(s: System, e: Event, x: SagaId)
    requires Enabled(s, e) && ReturnedAreOver(s)
    ensures var s' := Apply(s, e);
            && ReturnedAreOver(s') && (x in s.returned ==> x in s'.returned && s'.returned[x] == s.returned[x])
            && (x in s'.returned && x !in s.returned ==>
                  e.OfStarter? && e.saga == x && ReturnsBy(e.start, s'.returned[x]))
  {
    hide ApplyStart, ApplyCompensation, ApplyReply, ApplyReap, ApplyWork, Ledger.Apply, CanStart, CanCompensate,
         CanReply, CanReap, CanWork, LedgerStepAllowed, ReturnsBy;
    if e.OfStarter? {
      StarterReturns(s, e.saga, e.start);
    } else {
      OthersReturnNothing(s, e);
    }
  }

  lemma {:induction false} RunReturns(states: seq<System>, events: seq<Event>, i: nat)
    requires IsRun(states, events) && i < |states|
    ensures ReturnedAreOver(states[i])
  {
    hide Enabled, Apply;
    if i > 0 {
      RunReturns(states, events, i - 1);
      StepReturns(states[i - 1], events[i - 1], SagaId(""));
    }
  }

  lemma {:induction false} ReturnStays(states: seq<System>, events: seq<Event>, i: nat, j: nat, x: SagaId)
    requires IsRun(states, events) && i <= j < |states| && x in states[i].returned
    ensures x in states[j].returned && states[j].returned[x] == states[i].returned[x]
    decreases j
  {
    hide Enabled, Apply;
    if i < j {
      ReturnStays(states, events, i, j - 1, x);
      RunReturns(states, events, j - 1);
      StepReturns(states[j - 1], events[j - 1], x);
    }
  }

  /** A request returns once, and each return has its own step: the timeout only when
      the request gave up on its timer, the context's error only when it gave up on the
      context, nil and the notifier's failure only when it received a signal. */
  lemma {:induction false} ReturnTellsWhy(states: seq<System>, events: seq<Event>, i: nat, x: SagaId) returns (k: nat)
    requires IsRun(states, events) && i < |states| && x in states[i].returned
    ensures k < i && events[k].OfStarter? && events[k].saga == x && x !in states[k].returned
    ensures x in states[k + 1].returned && states[k + 1].returned[x] == states[i].returned[x]
    ensures var r, step := states[i].returned[x], events[k].start;
            && (r == TimedOutWaiting <==> step == GiveUp(true)) && (r == ContextDone <==> step == GiveUp(false))
            && (r == Success || r == FailureReported <==> step == Receive)
            && (r == PublishFailed <==> step == ReturnAfterCompensation) && (r == StartFailed <==> step.CancelReserved?)
  {
    hide Enabled, Apply;
    RunReturns(states, events, i - 1);
    StepReturns(states[i - 1], events[i - 1], x);
    if x in states[i - 1].returned {
      k := ReturnTellsWhy(states, events, i - 1, x);
    } else {
      k := i - 1;
    }
  }

  /** With replies handled one at a time and no completion hidden by an error, a request
      that received a signal is told the truth: nil exactly if its saga is completed, and
      a failure exactly if it is failed. */
  lemma ReceivedIsTheTruth(states: seq<System>, events: seq<Event>, k: nat, j: nat, x: SagaId)
    requires IsSequentialRun(states, events) && k < |events| && events[k] == OfStarter(x, Receive) && k < j < |states|
    ensures x in states[j].returned
    ensures states[j].returned[x] == Success <==> InState(states[j].rows, x, Completed)
    ensures states[j].returned[x] == FailureReported <==> InState(states[j].rows, x, Failed)
    ensures states[j].returned[x] == Success || states[j].returned[x] == FailureReported
  {
    hide Inv, SequentialInv, OneReplyAtATime, HidesCompletion;
    RunReturns(states, events, k);
    assert Enabled(states[k], events[k]) && states[k + 1] == Apply(states[k], events[k]);
    StarterReturns(states[k], x, Receive);
    assert states[k + 1].returned[x] == Success || states[k + 1].returned[x] == FailureReported;
    hide Enabled, Apply;
    ReturnStays(states, events, k + 1, j, x);
    if states[j].returned[x] == Success {
      SuccessMeansCompleted(states, events, j, j, x);
    } else {
      FailureMeansFailed(states, events, j, j, x);
    }
  }

  /** The mail is sent and the reply completes the saga. */
  lemma SagaCompletes(x: SagaId, data: SubscriptionData, mode: Mode) returns (t: Story, s: System)
    requires HasFields(data)
    ensures Tells(t, mode) && CanHandle(s, 0, 0) && Free(mode, s, 0) && InState(s.rows, x, Completed)
    ensures s.issued == map[x := data]
    ensures s.replies.msgs[0].body == ConfirmationSent(x) && StarterAt(s, x, Waiting)
    ensures x in s.waiters && s.waiters[x].None? && Last(t) == InHand(s, 0, 0, ToSignal(Completed))
  {
    hide Tells;
    var l: Ledger.State;
    t := CommandIsPublished(x, data, Ok, mode);
    t, l := WorkerMails(t, mode, 0, 0);
    s := Moved(Last(t), x, Completed);
    t := SentReplyCompletes(t, mode, 0, 0, x, Ok);
  }

  /** The ordinary run: the mail is sent, the reply completes the saga and the request
      returns nil. */
  lemma SubscriptionSucceeds(x: SagaId, data: SubscriptionData) returns (t: Story)
    requires HasFields(data)
    ensures Tells(t, Mode(true, true)) && x in Last(t).returned && Last(t).returned[x] == Success
    ensures InState(Last(t).rows, x, Completed) && Last(t).issued == map[x := data]
  {
    hide Tells;
    var mode := Mode(true, true);
    var s: System;
    t, s := SagaCompletes(x, data, mode);
    t := WaiterIsSignalled(t, mode, s, 0, 0, x, Completed);
    t := SignalIsReceived(t, mode, x, Success);
  }
}
