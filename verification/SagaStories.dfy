/** Building blocks for runs of the subscribe saga that show a bound is met: each
    block continues a run by the steps of one process. */
module SagaStories {
  import opened Base
  import opened Broker
  import opened SagaRows
  import opened SagaProtocol
  import opened SagaWaiters
  import Ledger

  datatype Story = Story(states: seq<System>, events: seq<Event>)

  /** Whether replies are handled one at a time, and whether no completion is hidden
      by an error. */
  datatype Mode = Mode(single: bool, honest: bool)

  const ANY_MODE := Mode(false, false)

  ghost predicate Tells(t: Story, mode: Mode) {
    && |t.states| == |t.events| + 1 && IsRun(t.states, t.events)
    && (mode.single ==> forall i :: 0 <= i < |t.states| ==> OneReplyAtATime(t.states[i]))
    && (mode.honest ==> forall i :: 0 <= i < |t.events| ==> !HidesCompletion(t.events[i]))
  }

  /** The state a story has come to. */
  function Last(t: Story): System {
    if t.states == [] then Init({}) else t.states[|t.states| - 1]
  }

  lemma StoryIsRun(t: Story, mode: Mode)
    requires Tells(t, mode)
    ensures IsRun(t.states, t.events) && |t.states| == |t.events| + 1
  {
  }

  lemma Continue(t: Story, mode: Mode, e: Event, s: System) returns (t': Story)
    requires Tells(t, mode) && Enabled(Last(t), e) && s == Apply(Last(t), e)
    requires (mode.single ==> OneReplyAtATime(s)) && (mode.honest ==> !HidesCompletion(e))
    ensures Tells(t', mode) && Last(t') == s && t'.states == t.states + [s]
  {
    hide Enabled, Apply, OneReplyAtATime, HidesCompletion;
    t' := Story(t.states + [s], t.events + [e]);
  }

  // ---------------------------------------------------------------------------
  // The request

  function Begun(x: SagaId, data: SubscriptionData, pc: StartPc): System {
    Init({0}).(issued := map[x := data], procs := map[Starter(x) := Start(0, pc)])
  }

  function Created(x: SagaId, data: SubscriptionData, waiters: map<SagaId, Option<SagaState>>, pc: StartPc): System {
    Begun(x, data, pc).(rows := map[x := Row(Awaiting, data, 0)], history := map[x := [Awaiting]], waiters := waiters)
  }

  /** The command was published with this outcome. */
  function Published(x: SagaId, data: SubscriptionData, out: Outcome): System {
    var s := Created(x, data, map[x := None], if out.Ok? then Waiting else StartCompensates(ToClaim));
    if out.TakesEffect()
    then s.(accepted := {x}, commands := Queue(1, map[0 := Delivery(CommandFor(x, data), None)]))
    else s
  }

  lemma NothingYet(mode: Mode) returns (t: Story)
    ensures Tells(t, mode) && Last(t) == Init({0})
  {
    t := Story([Init({0})], []);
  }

  lemma RequestBegins(x: SagaId, data: SubscriptionData, mode: Mode) returns (t: Story)
    ensures Tells(t, mode) && Last(t) == Begun(x, data, ToCreate)
  {
    hide Tells;
    t := NothingYet(mode);
    t := Continue(t, mode, OfStarter(x, Begin(data, 0)), Begun(x, data, ToCreate));
  }

  lemma RowIsCreated(x: SagaId, data: SubscriptionData, mode: Mode) returns (t: Story)
    ensures Tells(t, mode) && Last(t) == Created(x, data, map[], ToRegister)
  {
    hide Tells;
    t := RequestBegins(x, data, mode);
    var s, row := Last(t), Row(Awaiting, data, 0);
    assert [] + [Awaiting] == [Awaiting];
    assert WithRows(s, InsertRow(s.rows, x, row), x) == s.(rows := map[x := row], history := map[x := [Awaiting]]);
    t := Continue(t, mode, OfStarter(x, CreateRow(Ok)), Created(x, data, map[], ToRegister));
  }

  lemma WaiterIsRegistered(x: SagaId, data: SubscriptionData, mode: Mode) returns (t: Story)
    ensures Tells(t, mode) && Last(t) == Created(x, data, map[x := None], ToPublish)
  {
    hide Tells;
    t := RowIsCreated(x, data, mode);
    t := Continue(t, mode, OfStarter(x, Register), Created(x, data, map[x := None], ToPublish));
  }

  lemma CommandIsPublished(x: SagaId, data: SubscriptionData, out: Outcome, mode: Mode) returns (t: Story)
    ensures Tells(t, mode) && Last(t) == Published(x, data, out)
  {
    hide Tells;
    t := WaiterIsRegistered(x, data, mode);
    t := Continue(t, mode, OfStarter(x, PublishCommand(out)), Published(x, data, out));
  }

  // ---------------------------------------------------------------------------
  // The participant

  predicate CanServe(s: System, w: nat, m: nat) {
    && CanWork(s, w, TakeCommand(m)) && s.commands.msgs[m].body.SendConfirmation?
    && var body := s.commands.msgs[m].body;
       body.email != "" && body.confirmUrl != "" && body.repo != ""
  }

  /** Worker `w` has the command in hand, at `pc`, with its ledger in `ledger`. */
  function Serving(s: System, w: nat, m: nat, pc: PartPc, ledger: Ledger.State): System
    requires CanServe(s, w, m)
  {
    s.(commands := s.commands.Take(m, w), parts := s.parts[w := Part(m, s.commands.msgs[m].body, pc)], ledger := ledger)
  }

  lemma CommandIsTaken(t: Story, mode: Mode, w: nat, m: nat) returns (t': Story)
    requires Tells(t, mode) && CanServe(Last(t), w, m) && (mode.single ==> OneReplyAtATime(Last(t)))
    ensures Tells(t', mode) && Last(t') == Serving(Last(t), w, m, ToInspect, Last(t).ledger)
  {
    hide Tells;
    var s := Last(t);
    t' := Continue(t, mode, OfWorker(w, TakeCommand(m)), Serving(s, w, m, ToInspect, s.ledger));
  }

  lemma CommandIsInHand(t: Story, mode: Mode, w: nat, m: nat) returns (t': Story)
    requires Tells(t, mode) && CanServe(Last(t), w, m) && (mode.single ==> OneReplyAtATime(Last(t)))
    ensures Tells(t', mode) && Last(t') == Serving(Last(t), w, m, InSend, Last(t).ledger)
  {
    hide Tells;
    var s := Last(t);
    t' := CommandIsTaken(t, mode, w, m);
    t' := Continue(t', mode, OfWorker(w, Inspect), Serving(s, w, m, InSend, s.ledger));
  }

  /** One step of the ledger by the worker that serves the command. */
  lemma LedgerGoesOn(t: Story, mode: Mode, s: System, w: nat, m: nat, l: Ledger.State, e: Ledger.Event)
    returns (t': Story)
    requires CanServe(s, w, m) && (mode.single ==> OneReplyAtATime(s))
    requires Tells(t, mode) && Last(t) == Serving(s, w, m, InSend, l)
    requires e.w == w && Ledger.Enabled(l, e) && !e.Crash? && !e.Collect?
    requires e.Reserve? ==> e.mail == MailFor(s.commands.msgs[m].body)
    ensures Tells(t', mode) && Last(t') == Serving(s, w, m, InSend, Ledger.Apply(l, e))
  {
    hide Tells, Ledger.Apply, Ledger.Enabled;
    t' := Continue(t, mode, OfLedger(e), Serving(s, w, m, InSend, Ledger.Apply(l, e)));
  }

  /** The send has returned; the answer is next. */
  lemma SendReturns(t: Story, mode: Mode, s: System, w: nat, m: nat, l: Ledger.State, reply: ReplyBody)
    returns (t': Story)
    requires CanServe(s, w, m) && (mode.single ==> OneReplyAtATime(s))
    requires Tells(t, mode) && Last(t) == Serving(s, w, m, InSend, l) && w in l.workers && l.workers[w].Done?
    requires var x := s.commands.msgs[m].body.saga;
             reply == if l.workers[w].err then ConfirmationFailed(x) else ConfirmationSent(x)
    ensures Tells(t', mode)
    ensures Last(t') == Serving(s, w, m, ToReply(reply), l.(workers := l.workers[w := Ledger.Idle]))
  {
    hide Tells;
    t' := Continue(t, mode, OfWorker(w, ReturnFromSend),
                   Serving(s, w, m, ToReply(reply), l.(workers := l.workers[w := Ledger.Idle])));
  }

  lemma AnswerIsPublished(t: Story, mode: Mode, s: System, w: nat, m: nat, l: Ledger.State, reply: ReplyBody,
                          out: Outcome)
    returns (t': Story)
    requires CanServe(s, w, m) && (mode.single ==> OneReplyAtATime(s)) && out.TakesEffect()
    requires Tells(t, mode) && Last(t) == Serving(s, w, m, ToReply(reply), l)
    ensures Tells(t', mode)
    ensures var pc := PartToSettle(if out.Ok? then Ack else Requeue);
            Last(t') == Serving(s, w, m, pc, l).(replies := s.replies.Publish(reply))
  {
    hide Tells;
    var pc := PartToSettle(if out.Ok? then Ack else Requeue);
    t' := Continue(t, mode, OfWorker(w, PublishReply(out)),
                   Serving(s, w, m, pc, l).(replies := s.replies.Publish(reply)));
  }

  /** A worker serves the command without a fault: the mailer has accepted the mail,
      and the answer that it was sent is in the queue. */
  lemma WorkerMails(t: Story, mode: Mode, w: nat, m: nat) returns (t': Story, l: Ledger.State)
    requires Tells(t, mode) && CanServe(Last(t), w, m) && (mode.single ==> OneReplyAtATime(Last(t)))
    requires !Ledger.Confirmed(Last(t).ledger.rows, Ledger.KeyOf(MailFor(Last(t).commands.msgs[m].body)))
    ensures Tells(t', mode) && CanServe(Last(t), w, m)
    ensures var s := Last(t);
            Last(t') == Serving(s, w, m, PartToSettle(Ack), l).(
                          replies := s.replies.Publish(ConfirmationSent(s.commands.msgs[m].body.saga)))
  {
    hide Tells, Ledger.KeyOf;
    var s := Last(t);
    var mail := MailFor(s.commands.msgs[m].body);
    l := s.ledger;
    t' := CommandIsInHand(t, mode, w, m);
    hide CanServe;
    t' := LedgerGoesOn(t', mode, s, w, m, l, Ledger.Reserve(w, mail, Ok));
    l := Ledger.Apply(l, Ledger.Reserve(w, mail, Ok));
    t' := LedgerGoesOn(t', mode, s, w, m, l, Ledger.Send(w, Ok));
    l := Ledger.Apply(l, Ledger.Send(w, Ok));
    t' := LedgerGoesOn(t', mode, s, w, m, l, Ledger.Confirm(w, Ok));
    l := Ledger.Apply(l, Ledger.Confirm(w, Ok));
    var reply := ConfirmationSent(s.commands.msgs[m].body.saga);
    t' := SendReturns(t', mode, s, w, m, l, reply);
    l := l.(workers := l.workers[w := Ledger.Idle]);
    t' := AnswerIsPublished(t', mode, s, w, m, l, reply, Ok);
  }

  /** A worker cannot reserve; its answer is queued although the publish reported an
      error, so the command comes back. */
  lemma WorkerFails(t: Story, mode: Mode, w: nat, m: nat) returns (t': Story)
    requires Tells(t, mode) && CanServe(Last(t), w, m) && (mode.single ==> OneReplyAtATime(Last(t))) &&
             w !in Last(t).parts
    ensures Tells(t', mode)
    ensures var s := Last(t);
            Last(t') == s.(replies := s.replies.Publish(ConfirmationFailed(s.commands.msgs[m].body.saga)))
  {
    hide Tells, Ledger.KeyOf;
    var s := Last(t);
    var mail := MailFor(s.commands.msgs[m].body);
    var l := s.ledger;
    t' := CommandIsInHand(t, mode, w, m);
    var e := Ledger.Reserve(w, mail, ErrNoEffect);
    t' := LedgerGoesOn(t', mode, s, w, m, l, e);
    var reply := ConfirmationFailed(s.commands.msgs[m].body.saga);
    t' := SendReturns(t', mode, s, w, m, Ledger.Apply(l, e), reply);
    assert Ledger.Apply(l, e).(workers := Ledger.Apply(l, e).workers[w := Ledger.Idle]) == l;
    t' := AnswerIsPublished(t', mode, s, w, m, l, reply, ErrAfterEffect);
    t' := CommandComesBack(t', mode, s, w, m, s.replies.Publish(reply));
  }

  lemma CommandComesBack(t: Story, mode: Mode, s: System, w: nat, m: nat, replies: Queue<ReplyBody>) returns (t': Story)
    requires CanServe(s, w, m) && (mode.single ==> OneReplyAtATime(s)) && w !in s.parts
    requires Tells(t, mode) && Last(t) == Serving(s, w, m, PartToSettle(Requeue), s.ledger).(replies := replies)
    ensures Tells(t', mode) && Last(t') == s.(replies := replies)
  {
    hide Tells;
    assert s.commands.Take(m, w).Settle(m, w, Requeue).msgs == s.commands.msgs;
    assert s.parts[w := Part(m, s.commands.msgs[m].body, PartToSettle(Requeue))] - {w} == s.parts;
    t' := Continue(t, mode, OfWorker(w, SettleCommand), s.(replies := replies));
  }

  /** A subscription with which the participant finds no fault. */
  predicate HasFields(data: SubscriptionData) {
    data.email != "" && data.confirmUrl != "" && data.repo != ""
  }

  /** The command was served and removed, and the answer that it was sent is queued. */
  function Served(x: SagaId, data: SubscriptionData, l: Ledger.State): System {
    Published(x, data, Ok).(
      commands := Queue(1, map[]), replies := Queue(1, map[0 := Delivery(ConfirmationSent(x), None)]), ledger := l)
  }

  lemma CommandIsServed(x: SagaId, data: SubscriptionData) returns (t: Story, l: Ledger.State)
    requires HasFields(data)
    ensures Tells(t, ANY_MODE) && Last(t) == Served(x, data, l)
  {
    hide Tells, Enabled, Apply;
    t := CommandIsPublished(x, data, Ok, ANY_MODE);
    t, l := WorkerMails(t, ANY_MODE, 0, 0);
    CommandIsSettled(x, data, l);
    t := Continue(t, ANY_MODE, OfWorker(0, SettleCommand), Served(x, data, l));
  }

  lemma CommandIsSettled(x: SagaId, data: SubscriptionData, l: Ledger.State)
    requires HasFields(data)
    ensures var p := Published(x, data, Ok);
            && CanServe(p, 0, 0)
            && var s := Serving(p, 0, 0, PartToSettle(Ack), l).(replies := p.replies.Publish(ConfirmationSent(x)));
               Enabled(s, OfWorker(0, SettleCommand)) && Apply(s, OfWorker(0, SettleCommand)) == Served(x, data, l)
  {
    var p := Published(x, data, Ok);
    assert p.commands.Take(0, 0).Settle(0, 0, Ack).msgs == map[];
  }

  /** The request gave up waiting. */
  function GivenUp(x: SagaId, data: SubscriptionData, l: Ledger.State): System {
    Finish(Served(x, data, l), x, TimedOutWaiting)
  }

  lemma RequestGivesUp(x: SagaId, data: SubscriptionData) returns (t: Story, l: Ledger.State)
    requires HasFields(data)
    ensures Tells(t, ANY_MODE) && Last(t) == GivenUp(x, data, l)
  {
    hide Tells;
    t, l := CommandIsServed(x, data);
    t := Continue(t, ANY_MODE, OfStarter(x, GiveUp(true)), GivenUp(x, data, l));
  }

  // ---------------------------------------------------------------------------
  // Reply handlers

  predicate CanHandle(s: System, n: nat, m: nat) {
    Replier(n) !in s.procs && s.replies.Ready(m) && !s.replies.msgs[m].body.BadReply?
  }

  /** Nobody else may handle a reply in a story that handles one at a time. */
  ghost predicate Free(mode: Mode, s: System, n: nat) {
    mode.single ==> forall k :: Replier(k) in s.procs ==> k == n
  }

  /** Handler `n` has the reply in hand, at `pc`. */
  function InHand(s: System, n: nat, m: nat, pc: ReplyPc): System
    requires s.replies.Ready(m)
  {
    s.(replies := s.replies.Take(m, n), procs := s.procs[Replier(n) := Handle(m, s.replies.msgs[m].body, pc)])
  }

  lemma ReplyIsTaken(t: Story, mode: Mode, n: nat, m: nat) returns (t': Story)
    requires Tells(t, mode) && CanHandle(Last(t), n, m) && Free(mode, Last(t), n)
    ensures Tells(t', mode) && Last(t') == InHand(Last(t), n, m, ToDispatch)
  {
    hide Tells;
    t' := Continue(t, mode, OfReplier(n, TakeReply(m)), InHand(Last(t), n, m, ToDispatch));
  }

  lemma ReplyIsDispatched(t: Story, mode: Mode, n: nat, m: nat) returns (t': Story)
    requires Tells(t, mode) && CanHandle(Last(t), n, m) && Free(mode, Last(t), n)
    ensures Tells(t', mode)
    ensures Last(t') == InHand(Last(t), n, m, AfterDispatch(Last(t), m))
  {
    hide Tells, Enabled, Apply, OneReplyAtATime;
    var s := Last(t);
    t' := ReplyIsTaken(t, mode, n, m);
    DispatchStep(s, n, m);
    OneInHand(mode, s, n, m, AfterDispatch(s, m));
    t' := Continue(t', mode, OfReplier(n, Dispatch), InHand(s, n, m, AfterDispatch(s, m)));
  }

  function AfterDispatch(s: System, m: nat): ReplyPc
    requires s.replies.Ready(m)
  {
    if s.replies.msgs[m].body.ConfirmationSent? then ToComplete else ReplyCompensates(ToClaim)
  }

  lemma OneInHand(mode: Mode, s: System, n: nat, m: nat, pc: ReplyPc)
    requires CanHandle(s, n, m) && Free(mode, s, n)
    ensures mode.single ==> OneReplyAtATime(InHand(s, n, m, pc))
  {
  }

  lemma DispatchStep(s: System, n: nat, m: nat)
    requires CanHandle(s, n, m)
    ensures Enabled(InHand(s, n, m, ToDispatch), OfReplier(n, Dispatch))
    ensures Apply(InHand(s, n, m, ToDispatch), OfReplier(n, Dispatch)) == InHand(s, n, m, AfterDispatch(s, m))
  {
  }

  /** The saga's row once it has moved to `state`, with its history. */
  function Moved(s: System, x: SagaId, state: SagaState): System
    requires x in s.rows
  {
    s.(rows := s.rows[x := s.rows[x].(state := state)], history := Record(s.history, x, state))
  }

  /** A sent reply completes an awaiting saga, with or without an error reported. */
  lemma SentReplyCompletes(t: Story, mode: Mode, n: nat, m: nat, x: SagaId, out: Outcome) returns (t': Story)
    requires Tells(t, mode) && CanHandle(Last(t), n, m) && Free(mode, Last(t), n)
    requires Last(t).replies.msgs[m].body == ConfirmationSent(x) && InState(Last(t).rows, x, Awaiting)
    requires out.TakesEffect() && (mode.honest ==> out.Ok?)
    ensures Tells(t', mode)
    ensures Last(t') ==
            InHand(Moved(Last(t), x, Completed), n, m, if out.Ok? then ToSignal(Completed) else ToSettle(Requeue))
  {
    hide Tells, Enabled, Apply, OneReplyAtATime;
    var s := Last(t);
    var pc := if out.Ok? then ToSignal(Completed) else ToSettle(Requeue);
    t' := ReplyIsDispatched(t, mode, n, m);
    CompleteStep(s, n, m, x, out);
    OneInHand(mode, Moved(s, x, Completed), n, m, pc);
    t' := Continue(t', mode, OfReplier(n, Complete(out)), InHand(Moved(s, x, Completed), n, m, pc));
  }

  lemma CompleteStep(s: System, n: nat, m: nat, x: SagaId, out: Outcome)
    requires CanHandle(s, n, m) && s.replies.msgs[m].body == ConfirmationSent(x) && InState(s.rows, x, Awaiting)
    requires out.TakesEffect()
    ensures Enabled(InHand(s, n, m, ToComplete), OfReplier(n, Complete(out)))
    ensures Apply(InHand(s, n, m, ToComplete), OfReplier(n, Complete(out))) ==
            InHand(Moved(s, x, Completed), n, m, if out.Ok? then ToSignal(Completed) else ToSettle(Requeue))
  {
    var u := InHand(s, n, m, ToComplete);
    assert WithRows(u, CompleteRow(u.rows, x), x) == Moved(u, x, Completed);
  }

  /** A handler gives its reply back to the queue. */
  lemma ReplyGoesBack(t: Story, mode: Mode, s: System, n: nat, m: nat) returns (t': Story)
    requires Tells(t, mode) && CanHandle(s, n, m) && Free(mode, s, n) && Last(t) == InHand(s, n, m, ToSettle(Requeue))
    ensures Tells(t', mode) && Last(t') == s
  {
    hide Tells;
    assert s.replies.Take(m, n).Settle(m, n, Requeue).msgs == s.replies.msgs;
    assert s.procs[Replier(n) := Handle(m, s.replies.msgs[m].body, ToSettle(Requeue))] - {Replier(n)} == s.procs;
    t' := Continue(t, mode, OfReplier(n, SettleReply), s);
  }

  /** One step of compensate by the handler of a failed reply for a completed saga. */
  lemma CompensationGoesOn(t: Story, mode: Mode, s: System, n: nat, m: nat, x: SagaId, e: CompensationStep)
    returns (t': Story)
    requires CanHandle(s, n, m) && Free(mode, s, n) && InState(s.rows, x, Completed)
    requires s.replies.msgs[m].body == ConfirmationFailed(x) && (e == Claim(Ok) || e == Fetch(true))
    requires Tells(t, mode) && Last(t) == InHand(s, n, m, ReplyCompensates(if e.Claim? then ToClaim else ToFetch))
    ensures Tells(t', mode)
    ensures Last(t') == InHand(s, n, m, ReplyCompensates(if e.Claim? then ToFetch else Finished(true)))
  {
    hide Tells;
    var u := Last(t);
    assert TaskAt(u, Replier(n)) && CurrentTask(u, Replier(n)).saga == x;
    t' := Continue(t, mode, OfCompensation(Replier(n), e),
                   InHand(s, n, m, ReplyCompensates(if e.Claim? then ToFetch else Finished(true))));
  }

  lemma CompensationIsOver(t: Story, mode: Mode, s: System, n: nat, m: nat, x: SagaId) returns (t': Story)
    requires CanHandle(s, n, m) && Free(mode, s, n) && s.replies.msgs[m].body == ConfirmationFailed(x)
    requires Tells(t, mode) && Last(t) == InHand(s, n, m, ReplyCompensates(Finished(true)))
    ensures Tells(t', mode) && Last(t') == InHand(s, n, m, ToSignal(Failed))
  {
    hide Tells;
    t' := Continue(t, mode, OfReplier(n, AfterCompensation), InHand(s, n, m, ToSignal(Failed)));
  }

  /** A final state is signalled to the waiter. */
  lemma WaiterIsSignalled(t: Story, mode: Mode, s: System, n: nat, m: nat, x: SagaId, final: SagaState)
    returns (t': Story)
    requires CanHandle(s, n, m) && Free(mode, s, n) && s.replies.msgs[m].body.saga == x
    requires x in s.waiters && s.waiters[x].None?
    requires Tells(t, mode) && Last(t) == InHand(s, n, m, ToSignal(final))
    ensures Tells(t', mode) && Last(t') == InHand(s.(waiters := s.waiters[x := Some(final)]), n, m, ToSettle(Ack))
  {
    hide Tells;
    t' := Continue(t, mode, OfReplier(n, Signal),
                   InHand(s.(waiters := s.waiters[x := Some(final)]), n, m, ToSettle(Ack)));
  }

  /** A failed reply for a completed saga is signalled as a failure. */
  lemma FailedReplySignals(t: Story, mode: Mode, n: nat, m: nat, x: SagaId) returns (t': Story)
    requires Tells(t, mode) && CanHandle(Last(t), n, m) && Free(mode, Last(t), n)
    requires Last(t).replies.msgs[m].body == ConfirmationFailed(x) && InState(Last(t).rows, x, Completed)
    requires x in Last(t).waiters && Last(t).waiters[x].None?
    ensures Tells(t', mode)
    ensures Last(t') == InHand(Last(t).(waiters := Last(t).waiters[x := Some(Failed)]), n, m, ToSettle(Ack))
  {
    hide Tells, CanHandle, InHand;
    var s := Last(t);
    assert s.replies.Ready(m) by { HandledIsReady(s, n, m); }
    t' := ReplyIsDispatched(t, mode, n, m);
    t' := CompensationGoesOn(t', mode, s, n, m, x, Claim(Ok));
    t' := CompensationGoesOn(t', mode, s, n, m, x, Fetch(true));
    t' := CompensationIsOver(t', mode, s, n, m, x);
    t' := WaiterIsSignalled(t', mode, s, n, m, x, Failed);
  }

  lemma HandledIsReady(s: System, n: nat, m: nat)
    requires CanHandle(s, n, m)
    ensures s.replies.Ready(m)
  {
  }

  /** The request hears of it. */
  lemma SignalIsReceived(t: Story, mode: Mode, x: SagaId, r: Return) returns (t': Story)
    requires Tells(t, mode) && StarterAt(Last(t), x, Waiting) && (mode.single ==> OneReplyAtATime(Last(t)))
    requires x in Last(t).waiters && Last(t).waiters[x].Some?
    requires r == if Last(t).waiters[x].value == Completed then Success else FailureReported
    ensures Tells(t', mode) && Last(t') == Finish(Last(t), x, r)
  {
    hide Tells;
    t' := Continue(t, mode, OfStarter(x, Receive), Finish(Last(t), x, r));
  }
}
