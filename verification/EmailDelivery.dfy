/** No email command gets stuck: from every reachable state each queued one can still be
    served and removed. */
module EmailDelivery {
  import opened Base
  import opened Broker
  import opened EmailQueue
  import Ledger

  ghost predicate IsPath(states: seq<State>, events: seq<Event>) {
    && |states| == |events| + 1
    && forall i :: 0 <= i < |events| ==>
         Enabled(states[i], events[i]) && states[i + 1] == Apply(states[i], events[i])
  }

  ghost predicate LeadsOut(s: State, states: seq<State>, events: seq<Event>, m: nat) {
    IsPath(states, events) && states[0] == s && m !in states[|events|].queue.msgs
  }

  /** Some steps lead from here to a state in which the message is gone. */
  ghost predicate CanLeave(s: State, m: nat) {
    exists states, events :: LeadsOut(s, states, events, m)
  }

  lemma GoneCanLeave(s: State, m: nat)
    requires m !in s.queue.msgs
    ensures CanLeave(s, m)
  {
    assert LeadsOut(s, [s], [], m);
  }

  lemma OneStepBefore(s: State, e: Event, m: nat)
    requires Enabled(s, e) && CanLeave(Apply(s, e), m)
    ensures CanLeave(s, m)
  {
    hide Enabled, Apply;
    var states, events :| LeadsOut(Apply(s, e), states, events, m);
    var states', events' := [s] + states, [e] + events;
    forall i | 0 <= i < |events'|
      ensures Enabled(states'[i], events'[i]) && states'[i + 1] == Apply(states'[i], events'[i]) {
      if i > 0 {
        assert states'[i] == states[i - 1] && events'[i] == events[i - 1] && states'[i + 1] == states[i];
      }
    }
    assert LeadsOut(s, states', events', m);
  }

  // ---------------------------------------------------------------------------
  // A worker that meets no fault serves the command it has

  /** Worker `w` holds message `m` and has it in hand at `pc`. */
  predicate Holds(s: State, w: nat, m: nat, body: Body, pc: Pc) {
    w in s.tasks && w in s.ledger.workers && s.tasks[w] == Task(m, body, pc) && s.queue.HeldBy(m, w)
  }

  lemma SettledLeaves(s: State, w: nat, m: nat, body: Body, action: Action)
    requires Holds(s, w, m, body, ToSettle(action)) && (action == Ack || action == Drop)
    ensures CanLeave(s, m)
  {
    var e := SettleDelivery(w);
    GoneCanLeave(Apply(s, e), m);
    OneStepBefore(s, e, m);
  }

  lemma ReturnedLeaves(s: State, w: nat, m: nat, body: Body)
    requires Holds(s, w, m, body, InSend) && s.ledger.workers[w].Done? && !s.ledger.workers[w].err
    ensures CanLeave(s, m)
  {
    hide CanLeave;
    var e := Return(w);
    SettledLeaves(Apply(s, e), w, m, body, Ack);
    OneStepBefore(s, e, m);
  }

  /** The next step of the ledger protocol, without a fault. */
  function NextStep(w: nat, phase: Ledger.Phase, mail: Ledger.Mail): Ledger.Event {
    match phase
    case Idle => Ledger.Reserve(w, mail, Ok)
    case Reserved(_) => Ledger.Send(w, Ok)
    case _ => Ledger.Confirm(w, Ok)
  }

  function StepsLeft(phase: Ledger.Phase): nat {
    match phase
    case Idle => 3
    case Reserved(_) => 2
    case Accepted(_) => 1
    case Done(_, _, _) => 0
  }

  lemma LedgerAdvances(s: State, w: nat, m: nat, body: Body, mail: Ledger.Mail)
    requires Holds(s, w, m, body, InSend) && Decode(body) == Some(mail) && !s.ledger.workers[w].Done?
    ensures var e := NextStep(w, s.ledger.workers[w], mail);
            && LedgerStepAllowed(s, e) && Holds(ApplyLedger(s, e), w, m, body, InSend)
            && var phase := ApplyLedger(s, e).ledger.workers[w];
               StepsLeft(phase) < StepsLeft(s.ledger.workers[w]) && (phase.Done? ==> !phase.err)
  {
    hide Ledger.KeyOf, Decode;
  }

  lemma {:induction false} SendingLeaves(s: State, w: nat, m: nat, body: Body, mail: Ledger.Mail)
    requires Holds(s, w, m, body, InSend) && Decode(body) == Some(mail)
    requires s.ledger.workers[w].Done? ==> !s.ledger.workers[w].err
    ensures CanLeave(s, m)
    decreases StepsLeft(s.ledger.workers[w])
  {
    hide CanLeave, Decode;
    if s.ledger.workers[w].Done? {
      ReturnedLeaves(s, w, m, body);
    } else {
      LedgerAdvances(s, w, m, body, mail);
      hide ApplyLedger, LedgerStepAllowed;
      var e := OfLedger(NextStep(w, s.ledger.workers[w], mail));
      SendingLeaves(Apply(s, e), w, m, body, mail);
      OneStepBefore(s, e, m);
    }
  }

  lemma TakenLeaves(s: State, w: nat, m: nat, body: Body)
    requires Holds(s, w, m, body, ToDecode) && s.ledger.workers[w].Idle?
    ensures CanLeave(s, m)
  {
    hide CanLeave, Decode;
    var e := Inspect(w);
    if Decode(body).Some? {
      SendingLeaves(Apply(s, e), w, m, body, Decode(body).value);
    } else {
      SettledLeaves(Apply(s, e), w, m, body, Drop);
    }
    OneStepBefore(s, e, m);
  }

  // ---------------------------------------------------------------------------
  // Any queued command

  /** A message that is out with a worker is in that worker's hands. */
  ghost predicate HeldInHand(q: Queue<Body>, tasks: map<nat, Task>) {
    forall m :: m in q.msgs && q.msgs[m].holder.Some? ==>
      q.msgs[m].holder.value in tasks && tasks[q.msgs[m].holder.value].msg == m
  }

  lemma StepKeepsInHand(s: State, e: Event)
    requires HeldInHand(s.queue, s.tasks) && Enabled(s, e)
    ensures HeldInHand(Apply(s, e).queue, Apply(s, e).tasks)
  {
    hide Ledger.Apply, Decode;
    match e
    case Publish(_) =>
    case Take(_, _) =>
    case Inspect(_) =>
    case OfLedger(_) =>
    case Return(_) =>
    case SettleDelivery(_) =>
    case LoseChannel(_) =>
    case CrashWorker(_) =>
  }

  lemma {:induction false} RunKeepsInHand(states: seq<State>, events: seq<Event>, i: nat)
    requires IsRun(states, events) && i < |states|
    ensures HeldInHand(states[i].queue, states[i].tasks)
  {
    if i > 0 {
      hide HeldInHand, Enabled, Apply;
      RunKeepsInHand(states, events, i - 1);
      StepKeepsInHand(states[i - 1], events[i - 1]);
    }
  }

  lemma WorkerRestarts(s: State, w: nat, m: nat)
    requires w in s.ledger.workers && m in s.queue.msgs
    requires s.queue.Ready(m) || (s.queue.HeldBy(m, w) && w in s.tasks && s.tasks[w].msg == m)
    ensures var t := ApplyCrash(s, w);
            && Enabled(t, Take(w, m)) && t.queue.msgs[m].body == s.queue.msgs[m].body
            && var u := Apply(t, Take(w, m));
               Holds(u, w, m, s.queue.msgs[m].body, ToDecode) && u.ledger.workers[w].Idle?
  {
    hide Ledger.KeyOf;
  }

  lemma QueuedCanLeave(s: State, m: nat)
    requires Inv(s) && HeldInHand(s.queue, s.tasks) && s.ledger.workers.Keys != {} && m in s.queue.msgs
    ensures CanLeave(s, m)
  {
    hide CanLeave, Decode, Ledger.Inv, AllConserved, RecordsOk;
    var w :| w in s.ledger.workers.Keys;
    if s.queue.msgs[m].holder.Some? {
      w := s.queue.msgs[m].holder.value;
    }
    WorkerRestarts(s, w, m);
    hide ApplyCrash;
    var t := Apply(s, CrashWorker(w));
    TakenLeaves(Apply(t, Take(w, m)), w, m, s.queue.msgs[m].body);
    OneStepBefore(t, Take(w, m), m);
    OneStepBefore(s, CrashWorker(w), m);
  }

  ghost predicate Continues(states: seq<State>, events: seq<Event>, states': seq<State>, events': seq<Event>) {
    IsRun(states', events') && states <= states' && events <= events'
  }

  /** After any run with a worker each queued command can still be removed; by then a
      well-formed one has been mailed, and any other was dropped. */
  lemma NoCommandIsStuck(states: seq<State>, events: seq<Event>, m: nat)
    returns (states': seq<State>, events': seq<Event>)
    requires IsRun(states, events) && states[|events|].ledger.workers.Keys != {}
    requires m in states[|events|].queue.msgs
    ensures Continues(states, events, states', events')
    ensures var s, body := states'[|events'|], states[|events|].queue.msgs[m].body;
            && m !in s.queue.msgs
            && (Decode(body).Some? ==>
                  exists other :: other in s.ledger.mails && Ledger.KeyOf(other) == Ledger.KeyOf(Decode(body).value))
  {
    hide Enabled, Apply, Decode, Ledger.KeyOf;
    var n := |events|;
    RunInv(states, events, n);
    RunKeepsInHand(states, events, n);
    QueuedCanLeave(states[n], m);
    var path, steps :| LeadsOut(states[n], path, steps, m);
    states', events' := states + path[1..], events + steps;
    PathContinuesRun(states, events, path, steps);
    PublishedStays(states', events', n, |events'|, m);
    NoEmailLost(states', events', |events'|, m);
  }

  lemma PathContinuesRun(states: seq<State>, events: seq<Event>, path: seq<State>, steps: seq<Event>)
    requires IsRun(states, events) && IsPath(path, steps) && path[0] == states[|events|]
    ensures Continues(states, events, states + path[1..], events + steps)
    ensures (states + path[1..])[|events + steps|] == path[|steps|]
  {
    hide Enabled, Apply;
    var states', events' := states + path[1..], events + steps;
    forall i | 0 <= i < |events'|
      ensures Enabled(states'[i], events'[i]) && states'[i + 1] == Apply(states'[i], events'[i]) {
      if i >= |events| {
        var k := i - |events|;
        assert states'[i] == path[k] && events'[i] == steps[k] && states'[i + 1] == path[k + 1];
      }
    }
    assert states'[0] == states[0];
  }
}
