/** Whose confirmation the mailer accepted: with a confirm URL of its own, and no other
    client of the ledger sending something else under it, it is the saga's own, field
    by field. */
module SagaMails {
  import opened Base
  import opened Broker
  import opened SagaRows
  import opened SagaProtocol
  import opened SagaInvariant
  import opened SagaSteps
  import opened SagaTheorems
  import opened SagaStories
  import SagaWaiters
  import Ledger

  function ConfirmationOf(data: SubscriptionData): Ledger.Mail {
    Ledger.ConfirmationMail(data.email, data.confirmUrl, data.repo)
  }

  /** Under the confirm URL of `own` there is no other confirmation. */
  predicate NoOther(own: Ledger.Mail, mail: Ledger.Mail)
    requires own.ConfirmationMail?
  {
    mail.ConfirmationMail? && mail.confirmUrl == own.confirmUrl ==> mail == own
  }

  ghost predicate NoOthers(own: Ledger.Mail, l: Ledger.State)
    requires own.ConfirmationMail?
  {
    && (forall mail :: mail in l.mails ==> NoOther(own, mail))
    && (forall w :: w in l.workers && !l.workers[w].Idle? ==> NoOther(own, l.workers[w].mail))
  }

  /** A client of the ledger outside the saga starts to send a mail. */
  predicate OutsideMail(s: System, e: Event) {
    e.OfLedger? && e.ledger.Reserve? && e.ledger.w !in s.parts
  }

  lemma LedgerKeepsNoOthers(own: Ledger.Mail, l: Ledger.State, e: Ledger.Event)
    requires own.ConfirmationMail? && NoOthers(own, l) && Ledger.Enabled(l, e)
    requires e.Reserve? ==> NoOther(own, e.mail)
    ensures NoOthers(own, Ledger.Apply(l, e))
  {
    hide NoOther, Ledger.KeyOf;
  }

  /** Sagas that were begun stay known with their data. */
  lemma {:induction false} IssuedStay(states: seq<System>, events: seq<Event>, i: nat, j: nat, y: SagaId)
    requires IsRun(states, events) && i <= j < |states| && y in states[i].issued
    ensures y in states[j].issued && states[j].issued[y] == states[i].issued[y]
    decreases j
  {
    hide Enabled, Apply;
    if i < j {
      IssuedStay(states, events, i, j - 1, y);
      StepKeepsIssued(states[j - 1], events[j - 1], y);
    }
  }

  lemma StepKeepsIssued(s: System, e: Event, y: SagaId)
    requires Enabled(s, e) && y in s.issued
    ensures y in Apply(s, e).issued && Apply(s, e).issued[y] == s.issued[y]
  {
    hide ApplyCompensation, ApplyReply, ApplyReap, ApplyWork, CanCompensate, CanReply, CanReap, CanWork, Ledger.Apply;
    if e.OfWorker? {
      WorkFrame(s, e.w, e.part);
    } else if !e.OfLedger? && !(e.OfStarter? && e.start.Begin?) {
      OnlyLedgerStepsMail(s, e);
    }
  }

  /** A worker that serves a command reserves the mail of a saga that was begun. */
  lemma CommandMailIsOfSaga(s: System, w: nat) returns (y: SagaId)
    requires Inv(s) && w in s.parts && s.parts[w].body.SendConfirmation?
    ensures y in s.issued && MailFor(s.parts[w].body) == ConfirmationOf(s.issued[y])
  {
    hide ProcsInv, PartsInv, CommandsInv, RepliesInv, RowsInv, TransitInv, CancelsInv, WaitersInv, Ledger.Inv;
    WorkerOk(s, w);
    y := s.parts[w].body.saga;
    OneRowOk(K(s), s.history, y);
  }

  /** Which steps touch the ledger or begin a saga. */
  lemma OnlyLedgerStepsMail(s: System, e: Event)
    requires Enabled(s, e) && !e.OfLedger? && !e.OfWorker? && !(e.OfStarter? && e.start.Begin?)
    ensures Apply(s, e).ledger == s.ledger && Apply(s, e).issued == s.issued
  {
    match e
    case OfStarter(x, step) => StartTouchesNoLedger(s, x, step);
    case OfCompensation(a, step) => CompensationTouchesNoLedger(s, a, step);
    case OfReplier(n, step) => ReplyTouchesNoLedger(s, n, step);
    case OfReaper(n, step) => ReapFrame(s, n, step);
    case _ =>
  }

  lemma StartTouchesNoLedger(s: System, x: SagaId, e: StartStep)
    requires CanStart(s, x, e) && !e.Begin?
    ensures ApplyStart(s, x, e).ledger == s.ledger && ApplyStart(s, x, e).issued == s.issued
  {
    hide WithRows, InsertRow, CommandFor;
    match e
    case CreateRow(out) =>
    case CancelReserved(out) =>
    case Register =>
    case PublishCommand(out) =>
    case Receive =>
    case GiveUp(timeout) =>
    case ReturnAfterCompensation =>
  }

  lemma CompensationTouchesNoLedger(s: System, a: Actor, e: CompensationStep)
    requires CanCompensate(s, a, e)
    ensures ApplyCompensation(s, a, e).ledger == s.ledger && ApplyCompensation(s, a, e).issued == s.issued
  {
    hide TaskOf, Resume, WithRows, ClaimRow, MarkRow, AfterClaim, AfterFetch, InState;
    match e
    case Claim(_) =>
    case Fetch(_) =>
    case Cancel(_) =>
    case Mark(_) =>
  }

  lemma ReplyTouchesNoLedger(s: System, n: nat, e: ReplyStep)
    requires CanReply(s, n, e)
    ensures ApplyReply(s, n, e).ledger == s.ledger && ApplyReply(s, n, e).issued == s.issued
  {
    hide WithRows, CompleteRow, Notify;
    match e
    case TakeReply(_) =>
    case Dispatch =>
    case Complete(_) =>
    case Signal =>
    case AfterCompensation =>
    case SettleReply =>
    case LoseReplyChannel =>
  }

  /** A worker's own step changes the ledger by collecting a result or crashing. */
  lemma WorkKeepsNoOthers(own: Ledger.Mail, s: System, w: nat, e: PartStep)
    requires own.ConfirmationMail? && NoOthers(own, s.ledger) && CanWork(s, w, e)
    ensures NoOthers(own, ApplyWork(s, w, e).ledger)
  {
    hide NoOthers, Ledger.Apply;
    match e
    case ReturnFromSend => LedgerKeepsNoOthers(own, s.ledger, Ledger.Collect(w));
    case CrashWorker => LedgerKeepsNoOthers(own, s.ledger, Ledger.Crash(w));
    case TakeCommand(_) =>
    case Inspect =>
    case PublishReply(_) =>
    case SettleCommand =>
    case LoseCommandChannel =>
  }

  lemma StepKeepsNoOthers(own: Ledger.Mail, s: System, e: Event)
    requires own.ConfirmationMail? && NoOthers(own, s.ledger) && Enabled(s, e)
    requires e.OfLedger? && e.ledger.Reserve? ==> NoOther(own, e.ledger.mail)
    ensures NoOthers(own, Apply(s, e).ledger)
  {
    hide NoOthers, NoOther, Ledger.Apply, ApplyCompensation, ApplyReply, ApplyReap, ApplyWork,
         CanCompensate, CanReply, CanReap, CanWork;
    if e.OfWorker? {
      WorkKeepsNoOthers(own, s, e.w, e.part);
    } else if e.OfLedger? {
      LedgerKeepsNoOthers(own, s.ledger, e.ledger);
    } else if !(e.OfStarter? && e.start.Begin?) {
      OnlyLedgerStepsMail(s, e);
    }
  }

  /** No other saga of the state has the confirm URL of saga `x`. */
  ghost predicate OwnUrl(issued: map<SagaId, SubscriptionData>, x: SagaId) {
    x in issued && forall y :: y in issued && y != x ==> issued[y].confirmUrl != issued[x].confirmUrl
  }

  lemma {:induction false} RunKeepsNoOthers(states: seq<System>, events: seq<Event>, i: nat, j: nat, x: SagaId)
    requires IsRun(states, events) && j <= i < |states| && OwnUrl(states[i].issued, x)
    requires forall k :: 0 <= k < i && OutsideMail(states[k], events[k]) ==>
               NoOther(ConfirmationOf(states[i].issued[x]), events[k].ledger.mail)
    ensures NoOthers(ConfirmationOf(states[i].issued[x]), states[j].ledger)
    decreases j
  {
    hide Inv, Enabled, Apply, OutsideMail, NoOther;
    if j > 0 {
      RunKeepsNoOthers(states, events, i, j - 1, x);
      if events[j - 1].OfLedger? && events[j - 1].ledger.Reserve? {
        ReservesNoOther(states, events, i, j - 1, x);
      }
      StepKeepsNoOthers(ConfirmationOf(states[i].issued[x]), states[j - 1], events[j - 1]);
    }
  }

  lemma ReservesNoOther(states: seq<System>, events: seq<Event>, i: nat, k: nat, x: SagaId)
    requires IsRun(states, events) && k < i < |states| && OwnUrl(states[i].issued, x)
    requires OutsideMail(states[k], events[k]) ==> NoOther(ConfirmationOf(states[i].issued[x]), events[k].ledger.mail)
    requires events[k].OfLedger? && events[k].ledger.Reserve?
    ensures NoOther(ConfirmationOf(states[i].issued[x]), events[k].ledger.mail)
  {
    hide Inv, Ledger.Enabled, Apply;
    var s, e := states[k], events[k].ledger;
    if e.w in s.parts {
      assert Enabled(s, events[k]);
      RunInv(states, events, k);
      var y := CommandMailIsOfSaga(s, e.w);
      IssuedStay(states, events, k, i, y);
    }
  }

  /** A completed saga's confirmation was accepted for its own address, URL and
      repository, when no other saga shares its confirm URL and nobody outside the
      saga sends another confirmation under it. */
  lemma ConfirmationReachesSubscriber(states: seq<System>, events: seq<Event>, i: nat, x: SagaId)
    requires IsRun(states, events) && i < |states| && InState(states[i].rows, x, Completed) &&
             OwnUrl(states[i].issued, x)
    requires forall k :: 0 <= k < i && OutsideMail(states[k], events[k]) ==>
               NoOther(ConfirmationOf(states[i].issued[x]), events[k].ledger.mail)
    ensures states[i].rows[x].data == states[i].issued[x]
    ensures ConfirmationOf(states[i].rows[x].data) in states[i].ledger.mails
  {
    hide Enabled, Apply, OutsideMail, ProcsInv, PartsInv, CommandsInv, RepliesInv, RowsInv, TransitInv,
         CancelsInv, WaitersInv, Ledger.Inv;
    RunInv(states, events, i);
    RunKeepsNoOthers(states, events, i, i, x);
    CompletedMeansMailed(states, events, i, x);
    OneRowOk(K(states[i]), states[i].history, x);
  }

  // ---------------------------------------------------------------------------
  // A confirmation from outside under the same URL

  /** A worker that holds no command takes a step of the ledger protocol. */
  lemma OutsideStep(t: Story, mode: Mode, s: System, w: nat, l: Ledger.State, e: Ledger.Event) returns (t': Story)
    requires Tells(t, mode) && Last(t) == s.(ledger := l) && w !in s.parts &&
             (mode.single ==> SagaWaiters.OneReplyAtATime(s))
    requires e.w == w && Ledger.Enabled(l, e) && !e.Crash?
    ensures Tells(t', mode) && Last(t') == s.(ledger := Ledger.Apply(l, e))
  {
    hide Tells, Ledger.Apply, Ledger.Enabled;
    t' := Continue(t, mode, OfLedger(e), s.(ledger := Ledger.Apply(l, e)));
  }

  /** It sends a mail of its own, and confirms it. */
  lemma OutsideMails(t: Story, mode: Mode, w: nat, mail: Ledger.Mail) returns (t': Story, l: Ledger.State)
    requires Tells(t, mode) && w !in Last(t).parts && (mode.single ==> SagaWaiters.OneReplyAtATime(Last(t)))
    requires w in Last(t).ledger.workers && Last(t).ledger.workers[w].Idle?
    requires !Ledger.Confirmed(Last(t).ledger.rows, Ledger.KeyOf(mail))
    ensures Tells(t', mode) && Last(t') == Last(t).(ledger := l)
    ensures Ledger.Confirmed(l.rows, Ledger.KeyOf(mail)) && l.mails == Last(t).ledger.mails + {mail}
    ensures l.workers == Last(t).ledger.workers
  {
    hide Tells, Ledger.KeyOf;
    var s := Last(t);
    l := s.ledger;
    t' := OutsideStep(t, mode, s, w, l, Ledger.Reserve(w, mail, Ok));
    l := Ledger.Apply(l, Ledger.Reserve(w, mail, Ok));
    t' := OutsideStep(t', mode, s, w, l, Ledger.Send(w, Ok));
    l := Ledger.Apply(l, Ledger.Send(w, Ok));
    t' := OutsideStep(t', mode, s, w, l, Ledger.Confirm(w, Ok));
    l := Ledger.Apply(l, Ledger.Confirm(w, Ok));
    t' := OutsideStep(t', mode, s, w, l, Ledger.Collect(w));
    l := Ledger.Apply(l, Ledger.Collect(w));
  }

  /** A worker finds the key of its command confirmed already: it sends nothing and
      answers that the confirmation was sent. */
  lemma WorkerDedups(t: Story, mode: Mode, w: nat, m: nat) returns (t': Story, l: Ledger.State)
    requires Tells(t, mode) && CanServe(Last(t), w, m) && (mode.single ==> SagaWaiters.OneReplyAtATime(Last(t)))
    requires Ledger.Confirmed(Last(t).ledger.rows, Ledger.KeyOf(MailFor(Last(t).commands.msgs[m].body)))
    ensures Tells(t', mode) && CanServe(Last(t), w, m) && l.mails == Last(t).ledger.mails
    ensures var s := Last(t);
            Last(t') == Serving(s, w, m, PartToSettle(Ack), l).(
                          replies := s.replies.Publish(ConfirmationSent(s.commands.msgs[m].body.saga)))
  {
    hide Tells, Ledger.KeyOf;
    var s := Last(t);
    var mail := MailFor(s.commands.msgs[m].body);
    t' := CommandIsInHand(t, mode, w, m);
    var e := Ledger.Reserve(w, mail, Ok);
    t' := LedgerGoesOn(t', mode, s, w, m, s.ledger, e);
    l := Ledger.Apply(s.ledger, e);
    var reply := ConfirmationSent(s.commands.msgs[m].body.saga);
    t' := SendReturns(t', mode, s, w, m, l, reply);
    l := l.(workers := l.workers[w := Ledger.Idle]);
    t' := AnswerIsPublished(t', mode, s, w, m, l, reply, Ok);
  }

  /** A confirmation under the saga's URL, but to another address, that someone else
      had sent: the saga completes and its own subscriber got nothing. */
  lemma OutsideConfirmationShadows(x: SagaId, data: SubscriptionData, other: string) returns (t: Story)
    requires HasFields(data) && other != data.email
    ensures IsRun(t.states, t.events) && t.states != []
    ensures InState(Last(t).rows, x, Completed) && ConfirmationOf(data) !in Last(t).ledger.mails
  {
    hide Tells;
    var l: Ledger.State;
    t := CommandIsPublished(x, data, Ok, ANY_MODE);
    t, l := OutsideMails(t, ANY_MODE, 0, Ledger.ConfirmationMail(other, data.confirmUrl, data.repo));
    t, l := WorkerDedups(t, ANY_MODE, 0, 0);
    t := SentReplyCompletes(t, ANY_MODE, 0, 0, x, Ok);
    StoryIsRun(t, ANY_MODE);
  }
}
