/** Which sagas can complete: those whose subscription has an address, a link and a
    repository, and no others. */
module SagaRefusals {
  import opened Broker
  import opened SagaRows
  import opened SagaProtocol
  import opened SagaInvariant
  import opened SagaSteps
  import opened SagaTheorems
  import opened SagaStranded
  import opened SagaStories
  import SagaCauses
  import SagaMails
  import SagaReturns
  import Ledger

  /** Nothing in the queue, in a handler's or in a worker's hands says that the mail of
      saga `x` was sent, and no worker is about to send it. */
  predicate PartIsSilent(p: Part, x: SagaId) {
    !(p.pc.InSend? && CommandOf(p.body, x)) && p.pc != ToReply(ConfirmationSent(x))
  }

  ghost predicate PartsAreSilent(parts: map<nat, Part>, x: SagaId) {
    forall w :: w in parts ==> PartIsSilent(parts[w], x)
  }

  ghost predicate RepliesAreSilent(q: Queue<ReplyBody>, x: SagaId) {
    forall m :: m in q.msgs ==> q.msgs[m].body != ConfirmationSent(x)
  }

  ghost predicate HandlersAreSilent(procs: map<Actor, Proc>, x: SagaId) {
    forall a :: a in procs && procs[a].Handle? ==> procs[a].body != ConfirmationSent(x)
  }

  ghost predicate Silent(s: System, x: SagaId) {
    && !InState(s.rows, x, Completed) && PartsAreSilent(s.parts, x) && RepliesAreSilent(s.replies, x)
    && HandlersAreSilent(s.procs, x)
  }

  lemma StarterStaysSilent(s: System, y: SagaId, e: StartStep, x: SagaId)
    requires Silent(s, x) && CanStart(s, y, e)
    ensures Silent(ApplyStart(s, y, e), x)
  {
    StarterSpares(s, y, e, x);
    StarterMovesAlone(s, y, e);
    StarterCompletesNothing(s, y, e, x);
    hide CanStart, ApplyStart;
  }

  lemma StarterMovesAlone(s: System, y: SagaId, e: StartStep)
    requires CanStart(s, y, e)
    ensures Starter(y) in ApplyStart(s, y, e).procs ==> ApplyStart(s, y, e).procs[Starter(y)].Start?
  {
    hide CommandFor, WithRows, InsertRow;
    match e
    case Begin(_, _) =>
    case CreateRow(_) =>
    case CancelReserved(_) =>
    case Register =>
    case PublishCommand(_) =>
    case Receive =>
    case GiveUp(_) =>
    case ReturnAfterCompensation =>
  }

  lemma StarterCompletesNothing(s: System, y: SagaId, e: StartStep, x: SagaId)
    requires CanStart(s, y, e) && !InState(s.rows, x, Completed)
    ensures !InState(ApplyStart(s, y, e).rows, x, Completed)
  {
    hide CommandFor, WithRows;
    match e
    case Begin(_, _) =>
    case CreateRow(_) =>
    case CancelReserved(_) =>
    case Register =>
    case PublishCommand(_) =>
    case Receive =>
    case GiveUp(_) =>
    case ReturnAfterCompensation =>
  }

  lemma CompensationStaysSilent(s: System, a: Actor, e: CompensationStep, x: SagaId)
    requires Silent(s, x) && CanCompensate(s, a, e)
    ensures Silent(ApplyCompensation(s, a, e), x)
  {
    hide ApplyCompensation, TaskOf, AfterStep;
    CompensationFrame(s, a, e);
  }

  lemma ReplierStaysSilent(s: System, n: nat, e: ReplyStep, x: SagaId)
    requires Silent(s, x) && CanReply(s, n, e)
    ensures Silent(ApplyReply(s, n, e), x)
  {
    hide PartsAreSilent;
    ReplierFrame(s, n, e);
    match e
    case TakeReply(_) =>
    case Dispatch =>
    case Complete(_) =>
    case Signal =>
    case AfterCompensation =>
    case SettleReply =>
    case LoseReplyChannel =>
  }

  /** The command of a saga that lacks a field is refused when it is inspected. */
  lemma WorkerStaysSilent(s: System, w: nat, e: PartStep, x: SagaId)
    requires Inv(s) && Silent(s, x) && CanWork(s, w, e) && x in s.issued && !HasFields(s.issued[x])
    ensures Silent(ApplyWork(s, w, e), x)
  {
    WorkFrame(s, w, e);
    WorkerMovesPart(s, w, e);
    WorkerPartIsSilent(s, w, e, x);
    WorkerSendsNothing(s, w, e, x);
    hide CanWork, ApplyWork, Inv, PartIsSilent, RepliesAreSilent;
  }

  lemma WorkerPartIsSilent(s: System, w: nat, e: PartStep, x: SagaId)
    requires Inv(s) && Silent(s, x) && CanWork(s, w, e) && x in s.issued && !HasFields(s.issued[x])
    ensures w in ApplyWork(s, w, e).parts ==> PartIsSilent(ApplyWork(s, w, e).parts[w], x)
  {
    hide ProcsInv, PartsInv, CommandsInv, RepliesInv, RowsInv, TransitInv, CancelsInv, WaitersInv, Ledger.Inv,
         Ledger.Apply;
    if w in s.parts {
      WorkerOk(s, w);
      assert PartIsSilent(s.parts[w], x);
      if x in s.rows {
        OneRowOk(K(s), s.history, x);
      }
    }
    match e
    case TakeCommand(_) =>
    case Inspect =>
    case ReturnFromSend =>
    case PublishReply(_) =>
    case SettleCommand =>
    case LoseCommandChannel =>
    case CrashWorker =>
  }

  lemma WorkerSendsNothing(s: System, w: nat, e: PartStep, x: SagaId)
    requires Silent(s, x) && CanWork(s, w, e)
    ensures RepliesAreSilent(ApplyWork(s, w, e).replies, x)
  {
    hide Ledger.Apply;
    if w in s.parts {
      assert PartIsSilent(s.parts[w], x);
    }
    match e
    case TakeCommand(_) =>
    case Inspect =>
    case ReturnFromSend =>
    case PublishReply(_) =>
    case SettleCommand =>
    case LoseCommandChannel =>
    case CrashWorker =>
  }

  lemma StepStaysSilent(s: System, e: Event, x: SagaId)
    requires Inv(s) && Enabled(s, e) && Silent(s, x) && x in s.issued && !HasFields(s.issued[x])
    ensures Silent(Apply(s, e), x)
  {
    match e
    case OfStarter(y, step) => StarterStaysSilent(s, y, step, x);
    case OfCompensation(a, step) => CompensationStaysSilent(s, a, step, x);
    case OfReplier(n, step) => ReplierStaysSilent(s, n, step, x);
    case OfReaper(n, step) => ReapStaysSilent(s, n, step, x);
    case OfWorker(w, step) => WorkerStaysSilent(s, w, step, x);
    case _ => RestStaysSilent(s, e, x);
  }

  lemma ReapStaysSilent(s: System, n: nat, e: ReapStep, x: SagaId)
    requires Silent(s, x) && CanReap(s, n, e)
    ensures Silent(ApplyReap(s, n, e), x)
  {
    hide IsBatch, PartsAreSilent, RepliesAreSilent;
    ReapFrame(s, n, e);
  }

  lemma RestStaysSilent(s: System, e: Event, x: SagaId)
    requires Enabled(s, e) && Silent(s, x)
    requires e.OfLedger? || e.CrashOrchestrator? || e.InjectBadCommand? || e.InjectBadReply?
    ensures Silent(Apply(s, e), x)
  {
    hide PartsAreSilent, Ledger.Apply, LedgerStepAllowed;
  }

  // ---------------------------------------------------------------------------
  // Whole runs

  lemma UnbegunIsSilent(s: System, x: SagaId)
    requires Inv(s) && x !in s.issued
    ensures Silent(s, x)
  {
    hide TransitInv, CancelsInv, WaitersInv, Ledger.Inv;
    if x in s.rows {
      OneRowOk(K(s), s.history, x);
    }
    forall w | w in s.parts ensures PartIsSilent(s.parts[w], x) {
      WorkerOk(s, w);
    }
    forall a | a in s.procs && s.procs[a].Handle? ensures s.procs[a].body != ConfirmationSent(x) {
      assert ProcOk(K(s), s.waiters.Keys, s.replies, a, s.procs[a]);
    }
  }

  /** A saga whose subscription lacks the address, the link or the repository never
      completes, and no worker ever sends its mail. */
  lemma {:induction false} IncompleteNeverCompletes(states: seq<System>, events: seq<Event>, i: nat, x: SagaId)
    requires IsRun(states, events) && i < |states| && x in states[i].issued
    requires var data := states[i].issued[x]; data.email == "" || data.confirmUrl == "" || data.repo == ""
    ensures !InState(states[i].rows, x, Completed) && PartsAreSilent(states[i].parts, x) && Silent(states[i], x)
  {
    hide Inv, Enabled, Apply, Silent, HasFields;
    assert i > 0;
    var s, e := states[i - 1], events[i - 1];
    RunInv(states, events, i - 1);
    if x in s.issued {
      SagaMails.StepKeepsIssued(s, e, x);
      IncompleteNeverCompletes(states, events, i - 1, x);
      StepOfIncomplete(s, e, x);
    } else {
      UnbegunIsSilent(s, x);
      BeginIsSilent(s, e, x);
    }
    SilentMeans(states[i], x);
  }

  lemma StepOfIncomplete(s: System, e: Event, x: SagaId)
    requires Inv(s) && Enabled(s, e) && Silent(s, x) && x in s.issued
    requires s.issued[x].email == "" || s.issued[x].confirmUrl == "" || s.issued[x].repo == ""
    ensures Silent(Apply(s, e), x)
  {
    hide Inv, Enabled, Apply, Silent;
    StepStaysSilent(s, e, x);
  }

  lemma SilentMeans(s: System, x: SagaId)
    requires Silent(s, x)
    ensures !InState(s.rows, x, Completed) && PartsAreSilent(s.parts, x)
  {
  }

  lemma BeginIsSilent(s: System, e: Event, x: SagaId)
    requires Enabled(s, e) && Silent(s, x) && x !in s.issued && x in Apply(s, e).issued
    ensures Silent(Apply(s, e), x)
  {
    hide Silent;
    SagaCauses.OnlyItsBeginIssues(s, e, x);
    StarterStaysSilent(s, x, e.start, x);
  }

  ghost predicate CompletesWith(states: seq<System>, events: seq<Event>, x: SagaId, data: SubscriptionData) {
    && IsRun(states, events) && InState(states[|events|].rows, x, Completed)
    && x in states[|events|].issued && states[|events|].issued[x] == data
  }

  /** So a subscription can lead to a completed saga if and only if it has all three. */
  lemma CompletesIffComplete(x: SagaId, data: SubscriptionData)
    ensures (exists states, events :: CompletesWith(states, events, x, data)) <==>
            data.email != "" && data.confirmUrl != "" && data.repo != ""
  {
    hide IsRun;
    if data.email != "" && data.confirmUrl != "" && data.repo != "" {
      var t := SagaReturns.SubscriptionSucceeds(x, data);
      StoryCompletes(t, x, data);
    } else {
      forall states, events ensures !CompletesWith(states, events, x, data) {
        if CompletesWith(states, events, x, data) {
          RunEnds(states, events);
          IncompleteNeverCompletes(states, events, |events|, x);
        }
      }
    }
  }

  lemma RunEnds(states: seq<System>, events: seq<Event>)
    requires IsRun(states, events)
    ensures |states| == |events| + 1
  {
  }

  lemma StoryCompletes(t: Story, x: SagaId, data: SubscriptionData)
    requires Tells(t, Mode(true, true)) && InState(Last(t).rows, x, Completed)
    requires x in Last(t).issued && Last(t).issued[x] == data
    ensures CompletesWith(t.states, t.events, x, data)
  {
  }
}
