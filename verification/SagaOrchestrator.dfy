/** The saga store and the orchestrator as the objects they are: one call at a
    time, every outcome of every call to the outside given as a parameter. */
module SagaOrchestrator {
  import opened Base
  import opened Broker
  import opened SagaRows
  import opened SagaProtocol
  import opened SagaInvariant

  // ---------------------------------------------------------------------------
  // The store

  class Store {
    var rows: Rows

    constructor ()
      ensures rows == map[]
    {
      rows := map[];
    }

    /** A second row with the same primary key is an error. */
    method Create(id: SagaId, row: Row, out: Outcome) returns (err: bool)
      modifies this
      ensures rows == if out.TakesEffect() then InsertRow(old(rows), id, row) else old(rows)
      ensures err <==> !out.Ok? || id in old(rows)
    {
      err := !out.Ok? || id in rows;
      if out.TakesEffect() && id !in rows {
        rows := rows[id := row];
      }
    }

    /** No row and a failed query are both errors. */
    method Get(id: SagaId, ok: bool) returns (row: Option<Row>)
      ensures row == if ok && id in rows then Some(rows[id]) else None
    {
      if ok && id in rows {
        row := Some(rows[id]);
      } else {
        row := None;
      }
    }

    method CompleteIfAwaiting(id: SagaId, out: Outcome) returns (transitioned: bool, err: bool)
      modifies this
      ensures rows == if out.TakesEffect() then CompleteRow(old(rows), id) else old(rows)
      ensures err <==> !out.Ok?
      ensures transitioned <==> out.Ok? && InState(old(rows), id, Awaiting)
    {
      var affected := 0;
      if out.TakesEffect() && id in rows && rows[id].state == Awaiting {
        rows := rows[id := rows[id].(state := Completed)];
        affected := 1;
      }
      err := !out.Ok?;
      transitioned := !err && affected == 1;
    }

    method ClaimCompensation(id: SagaId, out: Outcome) returns (data: Option<SubscriptionData>, err: bool)
      modifies this
      ensures rows == if out.TakesEffect() then ClaimRow(old(rows), id) else old(rows)
      ensures err <==> !out.Ok?
      ensures data == if out.Ok? && InState(old(rows), id, Awaiting) then Some(old(rows)[id].data) else None
    {
      data, err := None, !out.Ok?;
      if out.TakesEffect() && id in rows && rows[id].state == Awaiting {
        if !err {
          data := Some(rows[id].data);
        }
        rows := rows[id := rows[id].(state := Compensating)];
      }
    }

    method MarkCompensated(id: SagaId, out: Outcome) returns (err: bool)
      modifies this
      ensures rows == if out.TakesEffect() then MarkRow(old(rows), id) else old(rows)
      ensures err <==> !out.Ok?
    {
      err := !out.Ok?;
      if out.TakesEffect() && id in rows && rows[id].state == Compensating {
        rows := rows[id := rows[id].(state := Failed)];
      }
    }

    /** The oldest timed-out awaiting sagas, at most `limit`, oldest first. */
    method ListTimedOut(now: int, limit: nat) returns (ids: seq<SagaId>)
      ensures IsBatch(rows, now, limit, ids)
      ensures forall i :: 0 <= i < |ids| ==>
                ids[i] in rows && rows[ids[i]].state == Awaiting && rows[ids[i]].timeoutAt < now
      ensures forall x :: x in rows && rows[x].state == Awaiting && rows[x].timeoutAt < now && x !in ids ==>
                |ids| == limit && forall i :: 0 <= i < |ids| ==> rows[ids[i]].timeoutAt <= rows[x].timeoutAt
    {
      var left := TimedOutIds(rows, now);
      ids := [];
      ghost var all := left;
      while |ids| < limit && left != {}
        invariant |ids| + |left| == |all| && |ids| <= limit
        invariant left <= all && forall id :: id in all ==> (id in ids <==> id !in left)
        invariant forall i :: 0 <= i < |ids| ==> ids[i] in all
        invariant forall i, j :: 0 <= i < j < |ids| ==> ids[i] != ids[j]
        invariant forall i, j :: 0 <= i < j < |ids| ==> rows[ids[i]].timeoutAt <= rows[ids[j]].timeoutAt
        invariant forall i, id :: 0 <= i < |ids| && id in left ==> rows[ids[i]].timeoutAt <= rows[id].timeoutAt
        decreases left
      {
        ghost var oldest := OldestExists(rows, left);
        var id :| id in left && forall y :: y in left ==> rows[id].timeoutAt <= rows[y].timeoutAt;
        ids := ids + [id];
        left := left - {id};
      }
      BatchMeans(rows, now, limit, ids);
    }
  }

  // ---------------------------------------------------------------------------
  // The orchestrator

  /** What the four calls of one run of compensate do. */
  datatype CompensationFaults = CompensationFaults(claim: Outcome, fetch: bool, cancel: Outcome, mark: Outcome)

  const NO_FAULTS := CompensationFaults(Ok, true, Ok, Ok)

  function FaultsOf(faults: map<SagaId, CompensationFaults>, id: SagaId): CompensationFaults {
    if id in faults then faults[id] else NO_FAULTS
  }

  /** The table after compensate, the subscriptions it cancelled, and its error. */
  datatype Compensated = Compensated(rows: Rows, cancels: seq<int>, err: bool)

  function CompensateOnce(rows: Rows, id: SagaId, f: CompensationFaults): Compensated {
    var claimed := if f.claim.TakesEffect() then ClaimRow(rows, id) else rows;
    var c := AfterClaim(rows, id, f.claim);
    var next := if c.ToFetch? then AfterFetch(claimed, id, f.fetch) else c;
    if !next.ToCancel? then Compensated(claimed, [], next != Finished(true))
    else if !f.cancel.Ok? then Compensated(claimed, [next.subscriptionId], true)
    else Compensated(if f.mark.TakesEffect() then MarkRow(claimed, id) else claimed, [next.subscriptionId], !f.mark.Ok?)
  }

  /** What the outside calls of one StartAndWait do. */
  datatype StartFaults = StartFaults(create: Outcome, publish: Outcome, compensation: CompensationFaults)

  /** A reply that arrives while a request waits, and what the calls of its handler do. */
  datatype Arrival = Arrival(body: ReplyBody, out: Outcome, faults: CompensationFaults)

  datatype WaitEnd = Receives | TimesOut | ContextEnds

  /** A signal in the buffer of `id` is one of the final states, and a completion a true one. */
  ghost predicate WaiterTells(rows: Rows, waiters: map<SagaId, Option<SagaState>>, id: SagaId) {
    && id in waiters && id in rows
    && (waiters[id].Some? ==> waiters[id].value == Completed || waiters[id].value == Failed)
    && (waiters[id] == Some(Completed) ==> InState(rows, id, Completed))
  }

  /** It tells of every completion, and a failure in it is a true one. */
  ghost predicate WaiterTellsAll(rows: Rows, waiters: map<SagaId, Option<SagaState>>, id: SagaId) {
    && id in waiters
    && (InState(rows, id, Completed) ==> waiters[id] == Some(Completed))
    && (waiters[id] == Some(Failed) ==> InState(rows, id, Failed))
  }

  /** What the handling of replies changes: the table, the waiters and the cancels. */
  datatype Desk = Desk(rows: Rows, waiters: map<SagaId, Option<SagaState>>, cancels: seq<int>)

  function HandleOne(d: Desk, a: Arrival): Desk {
    match a.body
    case BadReply => d
    case ConfirmationSent(y) =>
      Desk(if a.out.TakesEffect() then CompleteRow(d.rows, y) else d.rows,
           if a.out.Ok? && InState(d.rows, y, Awaiting) then Notify(d.waiters, y, Completed) else d.waiters,
           d.cancels)
    case ConfirmationFailed(y) =>
      var r := CompensateOnce(d.rows, y, a.faults);
      Desk(r.rows, if r.err then d.waiters else Notify(d.waiters, y, Failed), d.cancels + r.cancels)
  }

  function HandleAll(d: Desk, arrivals: seq<Arrival>): Desk {
    if arrivals == [] then d
    else HandleOne(HandleAll(d, arrivals[..|arrivals| - 1]), arrivals[|arrivals| - 1])
  }

  lemma OneMoreHandled(d: Desk, arrivals: seq<Arrival>, i: nat)
    requires i < |arrivals|
    ensures HandleAll(d, arrivals[..i + 1]) == HandleOne(HandleAll(d, arrivals[..i]), arrivals[i])
  {
    hide HandleOne;
    assert arrivals[..i + 1][..i] == arrivals[..i];
  }

  lemma ReplyKeepsWaiter(d: Desk, id: SagaId, a: Arrival)
    requires WaiterTells(d.rows, d.waiters, id)
    ensures var d' := HandleOne(d, a);
            && d'.waiters.Keys == d.waiters.Keys && WaiterTells(d'.rows, d'.waiters, id)
            && (WaiterTellsAll(d.rows, d.waiters, id) && a.out != ErrAfterEffect ==>
                  WaiterTellsAll(d'.rows, d'.waiters, id))
  {
    match a.body
    case BadReply =>
    case ConfirmationSent(y) =>
    case ConfirmationFailed(y) =>
      hide CompensateOnce;
      OnceTouchesOne(d.rows, y, a.faults);
      OnceSettles(d.rows, y, a.faults);
  }

  lemma OnceSettles(rows: Rows, id: SagaId, f: CompensationFaults)
    ensures !CompensateOnce(rows, id, f).err ==> Terminal(CompensateOnce(rows, id, f).rows, id)
  {
  }

  /** The reply is about another saga, or its first statement failed without an effect. */
  predicate IsHarmless(a: Arrival, id: SagaId) {
    match a.body
    case BadReply => true
    case ConfirmationSent(y) => y != id || a.out == ErrNoEffect
    case ConfirmationFailed(y) => y != id || a.faults.claim == ErrNoEffect
  }

  predicate IsSentReply(a: Arrival, id: SagaId) {
    a.body == ConfirmationSent(id) && a.out == Ok
  }

  predicate IsFailedReply(a: Arrival, id: SagaId) {
    a.body == ConfirmationFailed(id) && a.faults.claim == Ok && a.faults.cancel == Ok && a.faults.mark == Ok
  }

  ghost predicate AllHarmless(arrivals: seq<Arrival>, id: SagaId) {
    forall i :: 0 <= i < |arrivals| ==> IsHarmless(arrivals[i], id)
  }

  predicate Unanswered(d: Desk, id: SagaId) {
    id in d.waiters && d.waiters[id].None? && InState(d.rows, id, Awaiting)
  }

  lemma HarmlessChangesNothing(d: Desk, a: Arrival, id: SagaId)
    requires IsHarmless(a, id) && Unanswered(d, id)
    ensures Unanswered(HandleOne(d, a), id)
  {
  }

  lemma {:induction false} HarmlessChangeNothing(d: Desk, arrivals: seq<Arrival>, id: SagaId)
    requires AllHarmless(arrivals, id) && Unanswered(d, id)
    ensures Unanswered(HandleAll(d, arrivals), id)
  {
    hide HandleOne, IsHarmless;
    if arrivals != [] {
      var last := |arrivals| - 1;
      HarmlessChangeNothing(d, arrivals[..last], id);
      HarmlessChangesNothing(HandleAll(d, arrivals[..last]), arrivals[last], id);
    }
  }

  lemma AnswerFillsBuffer(d: Desk, a: Arrival, id: SagaId)
    requires Unanswered(d, id)
    ensures id in HandleOne(d, a).waiters
    ensures IsSentReply(a, id) ==> HandleOne(d, a).waiters[id] == Some(Completed)
    ensures IsFailedReply(a, id) ==> HandleOne(d, a).waiters[id] == Some(Failed)
  {
  }

  lemma FullBufferStays(d: Desk, a: Arrival, id: SagaId)
    requires id in d.waiters && d.waiters[id].Some?
    ensures id in HandleOne(d, a).waiters && HandleOne(d, a).waiters[id] == d.waiters[id]
  {
    hide CompensateOnce;
  }

  /** The first reply that is not harmless decides what the waiter hears. */
  lemma {:induction false} FirstAnswerDecides(d: Desk, arrivals: seq<Arrival>, k: nat, id: SagaId)
    requires Unanswered(d, id) && k < |arrivals| && AllHarmless(arrivals[..k], id)
    requires IsSentReply(arrivals[k], id) || IsFailedReply(arrivals[k], id)
    ensures id in HandleAll(d, arrivals).waiters
    ensures HandleAll(d, arrivals).waiters[id] == Some(if IsSentReply(arrivals[k], id) then Completed else Failed)
  {
    hide HandleOne, IsSentReply, IsFailedReply;
    var last := |arrivals| - 1;
    if k == last {
      HarmlessChangeNothing(d, arrivals[..k], id);
      AnswerFillsBuffer(HandleAll(d, arrivals[..k]), arrivals[k], id);
    } else {
      assert arrivals[..last][..k] == arrivals[..k];
      FirstAnswerDecides(d, arrivals[..last], k, id);
      FullBufferStays(HandleAll(d, arrivals[..last]), arrivals[last], id);
    }
  }

  lemma AnswersDecide(d: Desk, arrivals: seq<Arrival>, id: SagaId)
    requires Unanswered(d, id)
    ensures var d' := HandleAll(d, arrivals);
            && (forall k :: 0 <= k < |arrivals| && AllHarmless(arrivals[..k], id) ==>
                  && (IsSentReply(arrivals[k], id) ==> id in d'.waiters && d'.waiters[id] == Some(Completed))
                  && (IsFailedReply(arrivals[k], id) ==> id in d'.waiters && d'.waiters[id] == Some(Failed)))
            && (AllHarmless(arrivals, id) ==> Unanswered(d', id))
  {
    hide HandleOne, HandleAll, AllHarmless;
    forall k | 0 <= k < |arrivals| && AllHarmless(arrivals[..k], id) &&
               (IsSentReply(arrivals[k], id) || IsFailedReply(arrivals[k], id))
      ensures id in HandleAll(d, arrivals).waiters &&
              HandleAll(d, arrivals).waiters[id] == Some(if IsSentReply(arrivals[k], id) then Completed else Failed) {
      FirstAnswerDecides(d, arrivals, k, id);
    }
    if AllHarmless(arrivals, id) {
      HarmlessChangeNothing(d, arrivals, id);
    }
  }

  class Orchestrator {
    const store: Store
    var waiters: map<SagaId, Option<SagaState>>
    /** The subscriptions that Cancel was asked to cancel, in order. */
    var cancels: seq<int>
    /** The commands that the broker accepted, in order. */
    var commands: seq<CommandBody>

    constructor (store: Store)
      ensures this.store == store && waiters == map[] && cancels == [] && commands == []
    {
      this.store := store;
      waiters := map[];
      cancels := [];
      commands := [];
    }

    method RegisterWaiter(id: SagaId)
      modifies this`waiters
      ensures waiters == old(waiters)[id := None]
    {
      waiters := waiters[id := None];
    }

    method UnregisterWaiter(id: SagaId)
      modifies this`waiters
      ensures waiters == old(waiters) - {id}
    {
      waiters := waiters - {id};
    }

    /** The first signal wins; without a waiter, or with a full buffer, it is dropped. */
    method SignalWaiter(id: SagaId, final: SagaState)
      modifies this`waiters
      ensures waiters == Notify(old(waiters), id, final)
    {
      if id in waiters && waiters[id].None? {
        waiters := waiters[id := Some(final)];
      }
    }

    /** Undoes an awaiting or half-compensated saga and leaves terminal ones
        alone; success means the saga is terminal. */
    method Compensate(id: SagaId, f: CompensationFaults) returns (err: bool)
      modifies store, this`cancels
      ensures var r := CompensateOnce(old(store.rows), id, f);
              store.rows == r.rows && cancels == old(cancels) + r.cancels && err == r.err
      ensures store.rows.Keys == old(store.rows.Keys)
      ensures forall x :: x in store.rows && x != id ==> store.rows[x] == old(store.rows)[x]
      ensures id in store.rows ==> store.rows[id] == old(store.rows)[id].(state := store.rows[id].state) &&
                                   Later(old(store.rows)[id].state, store.rows[id].state)
      ensures Terminal(old(store.rows), id) ==> store.rows == old(store.rows) && cancels == old(cancels)
      ensures !err ==> Terminal(store.rows, id)
      ensures f == NO_FAULTS && id in old(store.rows) ==> !err
      ensures f == NO_FAULTS && id in old(store.rows) && !Terminal(old(store.rows), id) ==>
                store.rows[id].state == Failed && cancels == old(cancels) + [store.rows[id].data.subscriptionId]
      ensures store.rows != old(store.rows) ==> !InState(store.rows, id, Completed)
    {
      var data, claimErr := store.ClaimCompensation(id, f.claim);
      if claimErr {
        return true;
      }
      if data.None? {
        var row := store.Get(id, f.fetch);
        if row.None? {
          return true;
        }
        if row.value.state != Compensating {
          return false;
        }
        data := Some(row.value.data);
      }
      cancels := cancels + [data.value.subscriptionId];
      if !f.cancel.Ok? {
        return true;
      }
      err := store.MarkCompensated(id, f.mark);
    }

    /** A sent reply is acked only once its saga is known and no longer awaiting,
        or unknown; the waiter hears of a completion that happened here. */
    method OnConfirmationSent(id: SagaId, out: Outcome) returns (action: Action)
      modifies store, this`waiters
      ensures store.rows == if out.TakesEffect() then CompleteRow(old(store.rows), id) else old(store.rows)
      ensures action == if out.Ok? then Ack else Requeue
      ensures action == Ack ==> !InState(store.rows, id, Awaiting)
      ensures waiters == if out.Ok? && InState(old(store.rows), id, Awaiting)
                         then Notify(old(waiters), id, Completed) else old(waiters)
    {
      var transitioned, err := store.CompleteIfAwaiting(id, out);
      if err {
        return Requeue;
      }
      if transitioned {
        SignalWaiter(id, Completed);
      }
      return Ack;
    }

    /** A failed reply is acked only once its saga is terminal. */
    method OnConfirmationFailed(id: SagaId, f: CompensationFaults) returns (action: Action)
      modifies store, this`waiters, this`cancels
      ensures var r := CompensateOnce(old(store.rows), id, f);
              && store.rows == r.rows && cancels == old(cancels) + r.cancels
              && action == (if r.err then Requeue else Ack)
              && waiters == if r.err then old(waiters) else Notify(old(waiters), id, Failed)
      ensures action == Ack ==> Terminal(store.rows, id)
      ensures f == NO_FAULTS && id in old(store.rows) ==> action == Ack
      ensures Terminal(old(store.rows), id) ==> store.rows == old(store.rows) && cancels == old(cancels)
    {
      var err := Compensate(id, f);
      if err {
        return Requeue;
      }
      SignalWaiter(id, Failed);
      return Ack;
    }

    method HandleReply(body: ReplyBody, out: Outcome, f: CompensationFaults) returns (action: Action)
      modifies store, this`waiters, this`cancels
      ensures action == Drop <==> body.BadReply?
      ensures body.BadReply? ==> store.rows == old(store.rows) && waiters == old(waiters)
      ensures body.BadReply? ==> cancels == old(cancels)
      ensures body.ConfirmationSent? ==>
                && store.rows ==
                     (if out.TakesEffect() then CompleteRow(old(store.rows), body.saga) else old(store.rows))
                && cancels == old(cancels) && action == (if out.Ok? then Ack else Requeue)
                && waiters == if out.Ok? && InState(old(store.rows), body.saga, Awaiting)
                              then Notify(old(waiters), body.saga, Completed) else old(waiters)
      ensures body.ConfirmationFailed? ==>
                var r := CompensateOnce(old(store.rows), body.saga, f);
                && store.rows == r.rows && cancels == old(cancels) + r.cancels
                && action == (if r.err then Requeue else Ack)
                && waiters == if r.err then old(waiters) else Notify(old(waiters), body.saga, Failed)
      ensures action == Ack && body.ConfirmationSent? ==> !InState(store.rows, body.saga, Awaiting)
      ensures action == Ack && body.ConfirmationFailed? ==> Terminal(store.rows, body.saga)
      ensures Desk(store.rows, waiters, cancels) ==
              HandleOne(Desk(old(store.rows), old(waiters), old(cancels)), Arrival(body, out, f))
    {
      match body
      case BadReply => action := Drop;
      case ConfirmationSent(id) => action := OnConfirmationSent(id, out);
      case ConfirmationFailed(id) => action := OnConfirmationFailed(id, f);
    }

    /** A request, with the replies that are handled while it waits and the way the
        wait ends; a wait that receives nothing ends by its timer. The first reply about
        the saga that has an effect decides: nil after a sent reply, a failure after a
        failed one whose compensation worked. */
    method StartAndWait(id: SagaId, data: SubscriptionData, deadline: int, f: StartFaults,
                        meanwhile: seq<Arrival>, end: WaitEnd)
      returns (r: Return)
      modifies store, this
      ensures if r == StartFailed then waiters == old(waiters) else id !in waiters
      ensures r == StartFailed <==> !f.create.Ok? || id in old(store.rows)
      ensures r == PublishFailed <==> f.create.Ok? && id !in old(store.rows) && !f.publish.Ok?
      ensures r == StartFailed ==> cancels == old(cancels) + [data.subscriptionId] && commands == old(commands)
      ensures r != StartFailed ==>
                commands == old(commands) + (if f.publish.TakesEffect() then [CommandFor(id, data)] else [])
      ensures r == PublishFailed ==>
                var c := CompensateOnce(old(store.rows)[id := Row(Awaiting, data, deadline)], id, f.compensation);
                store.rows == c.rows && cancels == old(cancels) + c.cancels
      ensures r != StartFailed && r != PublishFailed ==>
                var d := HandleAll(Desk(old(store.rows)[id := Row(Awaiting, data, deadline)], old(waiters)[id := None],
                                        old(cancels)), meanwhile);
                store.rows == d.rows && cancels == d.cancels && waiters == d.waiters - {id}
      ensures r == Success ==> InState(store.rows, id, Completed)
      ensures r == FailureReported && (forall i :: 0 <= i < |meanwhile| ==> meanwhile[i].out != ErrAfterEffect) ==>
                InState(store.rows, id, Failed)
      ensures r == ContextDone ==> end.ContextEnds?
      ensures r == Success || r == FailureReported ==> end.Receives?
      ensures f.create.Ok? && id !in old(store.rows) && f.publish.Ok? && end.TimesOut? ==> r == TimedOutWaiting
      ensures f.create.Ok? && id !in old(store.rows) && f.publish.Ok? && end.ContextEnds? ==> r == ContextDone
      ensures f.create.Ok? && id !in old(store.rows) && f.publish.Ok? && end.Receives? ==>
                forall k :: 0 <= k < |meanwhile| && AllHarmless(meanwhile[..k], id) ==>
                  && (meanwhile[k].body == ConfirmationSent(id) && meanwhile[k].out == Ok ==> r == Success)
                  && (IsFailedReply(meanwhile[k], id) ==> r == FailureReported)
      ensures f.create.Ok? && id !in old(store.rows) && f.publish.Ok? && AllHarmless(meanwhile, id) ==>
                r == TimedOutWaiting || r == ContextDone
    {
      var err := store.Create(id, Row(Awaiting, data, deadline), f.create);
      if err {
        cancels := cancels + [data.subscriptionId];
        return StartFailed;
      }
      RegisterWaiter(id);
      if f.publish.TakesEffect() {
        commands := commands + [CommandFor(id, data)];
      }
      if !f.publish.Ok? {
        var compensateErr := Compensate(id, f.compensation);
        UnregisterWaiter(id);
        return PublishFailed;
      }
      WaitFor(id, meanwhile);
      var signal := waiters[id];
      UnregisterWaiter(id);
      if end.Receives? && signal.Some? {
        return if signal.value == Completed then Success else FailureReported;
      }
      return if end.ContextEnds? then ContextDone else TimedOutWaiting;
    }

    /** Replies handled one at a time while the request for `id` waits. */
    method WaitFor(id: SagaId, meanwhile: seq<Arrival>)
      requires id in waiters && waiters[id].None? && InState(store.rows, id, Awaiting)
      modifies store, this`waiters, this`cancels
      ensures Desk(store.rows, waiters, cancels) ==
              HandleAll(Desk(old(store.rows), old(waiters), old(cancels)), meanwhile)
      ensures id in waiters && waiters.Keys == old(waiters.Keys) && id in store.rows
      ensures waiters[id].Some? ==> waiters[id].value == Completed || waiters[id].value == Failed
      ensures waiters[id] == Some(Completed) ==> InState(store.rows, id, Completed)
      ensures (forall i :: 0 <= i < |meanwhile| ==> meanwhile[i].out != ErrAfterEffect) &&
              waiters[id] == Some(Failed) ==>
                InState(store.rows, id, Failed)
      ensures forall k :: 0 <= k < |meanwhile| && AllHarmless(meanwhile[..k], id) ==>
                && (meanwhile[k].body == ConfirmationSent(id) && meanwhile[k].out == Ok ==>
                      waiters[id] == Some(Completed))
                && (IsFailedReply(meanwhile[k], id) ==> waiters[id] == Some(Failed))
      ensures AllHarmless(meanwhile, id) ==> waiters[id].None? && InState(store.rows, id, Awaiting)
    {
      hide CompensateOnce, HandleOne;
      ghost var d := Desk(store.rows, waiters, cancels);
      var i := 0;
      while i < |meanwhile|
        invariant 0 <= i <= |meanwhile|
        invariant Desk(store.rows, waiters, cancels) == HandleAll(d, meanwhile[..i])
        invariant waiters.Keys == old(waiters.Keys) && id in store.rows
        invariant WaiterTells(store.rows, waiters, id)
        invariant (forall k :: 0 <= k < i ==> meanwhile[k].out != ErrAfterEffect) ==>
            WaiterTellsAll(store.rows, waiters, id)
      {
        var a := meanwhile[i];
        ghost var before := Desk(store.rows, waiters, cancels);
        var action := HandleReply(a.body, a.out, a.faults);
        OneMoreHandled(d, meanwhile, i);
        ReplyKeepsWaiter(before, id, a);
        i := i + 1;
      }
      assert meanwhile[..|meanwhile|] == meanwhile;
      AnswersDecide(d, meanwhile, id);
    }

    /** One pass of the reaper. `list` is whether the query worked, `budget` how
        many sagas are handled before the context is cancelled. */
    method Reap(now: int, list: bool, budget: nat, faults: map<SagaId, CompensationFaults>) returns (ids: seq<SagaId>)
      modifies store, this`cancels
      ensures if list then IsBatch(old(store.rows), now, REAPER_BATCH, ids) else ids == []
      ensures forall x :: x in ids ==>
                x in old(store.rows) && old(store.rows)[x].state == Awaiting && old(store.rows)[x].timeoutAt < now
      ensures forall x :: x in old(store.rows) && (old(store.rows)[x].state != Awaiting ||
                                                   old(store.rows)[x].timeoutAt >= now) ==>
                x in store.rows && store.rows[x] == old(store.rows)[x]
      ensures faults == map[] && budget >= |ids| ==>
                forall x :: x in ids ==> x in store.rows && store.rows[x].state == Failed
      ensures var r := CompensateAll(old(store.rows), ids[..Min(budget, |ids|)], faults);
              store.rows == r.rows && cancels == old(cancels) + r.cancels
    {
      if !list {
        return [];
      }
      ids := store.ListTimedOut(now, REAPER_BATCH);
      CompensateEach(ids, budget, faults);
      PassTouchesOnlyItsBatch(old(store.rows), ids[..Min(budget, |ids|)], faults);
      if faults == map[] && budget >= |ids| {
        assert ids[..|ids|] == ids;
        FaultFreeReap(old(store.rows), now, ids);
      }
    }

    /** The loop of Reap over its batch. */
    method CompensateEach(ids: seq<SagaId>, budget: nat, faults: map<SagaId, CompensationFaults>)
      modifies store, this`cancels
      ensures var r := CompensateAll(old(store.rows), ids[..Min(budget, |ids|)], faults);
              store.rows == r.rows && cancels == old(cancels) + r.cancels
    {
      hide CompensateOnce, FaultsOf;
      var i := 0;
      while i < |ids| && i < budget
        invariant 0 <= i <= |ids| && i <= budget
        invariant var r := CompensateAll(old(store.rows), ids[..i], faults);
                  store.rows == r.rows && cancels == old(cancels) + r.cancels
      {
        OneMoreCompensated(old(store.rows), ids, i, faults);
        var err := Compensate(ids[i], FaultsOf(faults, ids[i]));
        i := i + 1;
      }
    }
  }

  // ---------------------------------------------------------------------------
  // What reaper passes achieve

  /** One compensation after the other; errors are logged and passed over. */
  function CompensateAll(rows: Rows, ids: seq<SagaId>, faults: map<SagaId, CompensationFaults>): Compensated {
    if ids == [] then Compensated(rows, [], false)
    else
      var last := |ids| - 1;
      var before := CompensateAll(rows, ids[..last], faults);
      var r := CompensateOnce(before.rows, ids[last], FaultsOf(faults, ids[last]));
      Compensated(r.rows, before.cancels + r.cancels, false)
  }

  ghost predicate OnlyTouches(rows: Rows, rows': Rows, ids: seq<SagaId>) {
    && rows'.Keys == rows.Keys
    && (forall x :: x in rows && x !in ids ==> rows'[x] == rows[x])
    && (forall x :: x in rows ==> rows'[x] == rows[x].(state := rows'[x].state) && Later(rows[x].state, rows'[x].state))
    && (forall x :: InState(rows', x, Completed) ==> InState(rows, x, Completed))
  }

  lemma OnceTouchesOne(rows: Rows, id: SagaId, f: CompensationFaults)
    ensures OnlyTouches(rows, CompensateOnce(rows, id, f).rows, [id])
  {
  }

  lemma TouchesCompose(a: Rows, b: Rows, c: Rows, ids: seq<SagaId>, id: SagaId)
    requires OnlyTouches(a, b, ids) && OnlyTouches(b, c, [id])
    ensures OnlyTouches(a, c, ids + [id])
  {
  }

  lemma OneMoreCompensated(rows: Rows, ids: seq<SagaId>, i: nat, faults: map<SagaId, CompensationFaults>)
    requires i < |ids|
    ensures var before := CompensateAll(rows, ids[..i], faults);
            var r := CompensateOnce(before.rows, ids[i], FaultsOf(faults, ids[i]));
            CompensateAll(rows, ids[..i + 1], faults) == Compensated(r.rows, before.cancels + r.cancels, false)
  {
    hide CompensateOnce, FaultsOf;
    assert ids[..i + 1][..i] == ids[..i];
  }

  /** Whatever fails on the way, a pass touches no saga outside its batch, moves the
      others only along their paths and completes none. */
  lemma {:induction false} PassTouchesOnlyItsBatch(rows: Rows, ids: seq<SagaId>,
                                                   faults: map<SagaId, CompensationFaults>)
    ensures OnlyTouches(rows, CompensateAll(rows, ids, faults).rows, ids)
  {
    if ids != [] {
      hide CompensateOnce, FaultsOf, OnlyTouches;
      var last := |ids| - 1;
      var t := CompensateAll(rows, ids[..last], faults).rows;
      PassTouchesOnlyItsBatch(rows, ids[..last], faults);
      OnceTouchesOne(t, ids[last], FaultsOf(faults, ids[last]));
      TouchesCompose(rows, t, CompensateAll(rows, ids, faults).rows, ids[..last], ids[last]);
      assert ids == ids[..last] + [ids[last]];
    }
  }

  lemma FaultFreeOnce(rows: Rows, id: SagaId)
    requires InState(rows, id, Awaiting)
    ensures CompensateOnce(rows, id, NO_FAULTS) ==
            Compensated(rows[id := rows[id].(state := Failed)], [rows[id].data.subscriptionId], false)
  {
  }

  lemma OneMoreFailed(rows: Rows, ids: seq<SagaId>, id: SagaId)
    requires id in rows && id !in ids && forall i :: 0 <= i < |ids| ==> ids[i] in rows
    ensures FailAll(rows, ids)[id] == rows[id]
    ensures FailAll(rows, ids + [id]) == FailAll(rows, ids)[id := rows[id].(state := Failed)]
    ensures SubscriptionsOf(rows, ids + [id]) == SubscriptionsOf(rows, ids) + [rows[id].data.subscriptionId]
  {
  }

  /** Without faults every saga of the batch ends failed, its subscription cancelled once. */
  lemma {:induction false} FaultFreePass(rows: Rows, ids: seq<SagaId>)
    requires forall i :: 0 <= i < |ids| ==> ids[i] in rows && rows[ids[i]].state == Awaiting
    requires forall i, j :: 0 <= i < j < |ids| ==> ids[i] != ids[j]
    ensures CompensateAll(rows, ids, map[]) == Compensated(FailAll(rows, ids), SubscriptionsOf(rows, ids), false)
  {
    if ids == [] {
      assert FailAll(rows, ids) == rows;
    } else {
      hide CompensateOnce, FailAll, SubscriptionsOf;
      var last := |ids| - 1;
      FaultFreePass(rows, ids[..last]);
      OneMoreFailed(rows, ids[..last], ids[last]);
      FaultFreeOnce(FailAll(rows, ids[..last]), ids[last]);
      assert ids == ids[..last] + [ids[last]];
    }
  }

  /** A fault-free pass over a batch is FailAll of the batch. */
  lemma FaultFreeReap(rows: Rows, now: int, ids: seq<SagaId>)
    requires IsBatch(rows, now, REAPER_BATCH, ids)
    ensures CompensateAll(rows, ids, map[]).rows == FailAll(rows, ids) &&
            |CompensateAll(rows, ids, map[]).cancels| == |ids|
  {
    forall i | 0 <= i < |ids| ensures ids[i] in rows && rows[ids[i]].state == Awaiting {
      assert ids[i] in TimedOutIds(rows, now);
    }
    FaultFreePass(rows, ids);
  }

  function FailAll(rows: Rows, ids: seq<SagaId>): Rows {
    map x | x in rows :: if x in ids then rows[x].(state := Failed) else rows[x]
  }

  function SubscriptionsOf(rows: Rows, ids: seq<SagaId>): seq<int>
    requires forall i :: 0 <= i < |ids| ==> ids[i] in rows
  {
    seq(|ids|, i requires 0 <= i < |ids| => rows[ids[i]].data.subscriptionId)
  }

  /** A fault-free pass fails exactly the batch, leaves every other saga as it
      was, and leaves no timed-out saga older than one it took. */
  lemma PassFailsExactlyTheBatch(rows: Rows, now: int, ids: seq<SagaId>)
    requires IsBatch(rows, now, REAPER_BATCH, ids)
    ensures var rows' := FailAll(rows, ids);
            && |SetOf(ids)| == Min(REAPER_BATCH, |TimedOutIds(rows, now)|)
            && (set x | x in rows && rows'[x] != rows[x]) == SetOf(ids)
            && (forall x :: x in ids ==> InState(rows, x, Awaiting) && InState(rows', x, Failed))
            && TimedOutIds(rows', now) == TimedOutIds(rows, now) - SetOf(ids)
            && (forall x, y :: x in ids && y in TimedOutIds(rows', now) ==> rows[x].timeoutAt <= rows'[y].timeoutAt)
  {
    DistinctSize(ids);
  }

  /** A pass at any later time still takes the sagas that were timed out at `now`
      first, so it leaves a hundred fewer of them. */
  lemma PassLeaves(rows: Rows, now: int, later: int, ids: seq<SagaId>)
    requires now <= later && IsBatch(rows, later, REAPER_BATCH, ids)
    ensures |TimedOutIds(FailAll(rows, ids), now)| == Max(0, |TimedOutIds(rows, now)| - 100)
  {
    var due, dueLater, taken := TimedOutIds(rows, now), TimedOutIds(rows, later), SetOf(ids);
    DistinctSize(ids);
    assert due <= dueLater && taken <= dueLater;
    SubsetSize(due, dueLater);
    SubsetSize(taken, dueLater);
    assert TimedOutIds(FailAll(rows, ids), now) == due - taken;
    if due <= taken {
      SubsetSize(due, taken);
      assert due - taken == {};
    } else {
      var missed :| missed in due && missed !in taken;
      assert taken <= due by {
        forall id | id in taken ensures id in due {
          var i :| 0 <= i < |ids| && ids[i] == id;
          assert rows[ids[i]].timeoutAt <= rows[missed].timeoutAt;
        }
      }
      SubsetSize(taken, due);
    }
  }

  /** `k` fault-free passes, at `now` or later, leave max(0, n - 100k) of the n
      sagas that were timed out at `now`. */
  lemma {:induction false} PassesLeave(tables: seq<Rows>, times: seq<int>, batches: seq<seq<SagaId>>, now: int, k: nat)
    requires |tables| == |times| + 1 == |batches| + 1 && k < |tables|
    requires forall i :: 0 <= i < |times| ==>
               && now <= times[i] && IsBatch(tables[i], times[i], REAPER_BATCH, batches[i])
               && tables[i + 1] == FailAll(tables[i], batches[i])
    ensures |TimedOutIds(tables[k], now)| == Max(0, |TimedOutIds(tables[0], now)| - 100 * k)
  {
    if k > 0 {
      PassesLeave(tables, times, batches, now, k - 1);
      PassLeaves(tables[k - 1], now, times[k - 1], batches[k - 1]);
    }
  }

  // ---------------------------------------------------------------------------
  // The method is the protocol's run without interruption

  ghost predicate Standing(s: System, a: Actor, x: SagaId, c: Compensation) {
    TaskAt(s, a) && CurrentTask(s, a) == Task(x, c)
  }

  ghost predicate IsTrail(trail: seq<System>, a: Actor, steps: seq<CompensationStep>) {
    && |trail| == |steps| + 1
    && forall i :: 0 <= i < |steps| ==>
         CanCompensate(trail[i], a, steps[i]) && trail[i + 1] == ApplyCompensation(trail[i], a, steps[i])
  }

  /** Steps of compensate by `a` alone lead from `s` to `s'`. */
  ghost predicate Reaches(s: System, a: Actor, s': System) {
    exists trail, steps :: IsTrail(trail, a, steps) && trail[0] == s && trail[|trail| - 1] == s'
  }

  lemma ReachesSelf(s: System, a: Actor)
    ensures Reaches(s, a, s)
  {
    assert IsTrail([s], a, []);
  }

  lemma ReachesOneMore(s: System, a: Actor, t: System, step: CompensationStep)
    requires Reaches(s, a, t) && CanCompensate(t, a, step)
    ensures Reaches(s, a, ApplyCompensation(t, a, step))
  {
    hide CanCompensate, ApplyCompensation;
    var trail, steps :| IsTrail(trail, a, steps) && trail[0] == s && trail[|trail| - 1] == t;
    assert IsTrail(trail + [ApplyCompensation(t, a, step)], a, steps + [step]);
  }

  lemma ClaimStands(s: System, a: Actor, x: SagaId, out: Outcome)
    requires Standing(s, a, x, ToClaim)
    ensures var t := ApplyClaim(s, a, out);
            && Standing(t, a, x, AfterClaim(s.rows, x, out)) && t.tried == s.tried
            && t.rows == if out.TakesEffect() then ClaimRow(s.rows, x) else s.rows
  {
    hide WithRows, AfterClaim;
  }

  lemma FetchStands(s: System, a: Actor, x: SagaId, ok: bool)
    requires Standing(s, a, x, ToFetch)
    ensures var t := ApplyFetch(s, a, ok);
            Standing(t, a, x, AfterFetch(s.rows, x, ok)) && t.tried == s.tried && t.rows == s.rows
  {
    hide AfterFetch;
  }

  lemma CancelStands(s: System, a: Actor, x: SagaId, sub: int, out: Outcome)
    requires Standing(s, a, x, ToCancel(sub))
    ensures var t := ApplyCancel(s, a, out);
            && Standing(t, a, x, if out.Ok? then ToMark else Finished(false))
            && t.tried == s.tried + {(x, sub)} && t.rows == s.rows
  {
  }

  lemma MarkStands(s: System, a: Actor, x: SagaId, out: Outcome)
    requires Standing(s, a, x, ToMark)
    ensures var t := ApplyMark(s, a, out);
            && Standing(t, a, x, Finished(out.Ok?)) && t.tried == s.tried
            && t.rows == if out.TakesEffect() then MarkRow(s.rows, x) else s.rows
  {
    hide WithRows;
  }

  /** From the claim on, actor `a` alone brings the protocol to the state that the
      method Compensate computes, finished with the method's result. */
  lemma UninterruptedRunIsCompensate(s: System, a: Actor, x: SagaId, f: CompensationFaults) returns (s': System)
    requires Standing(s, a, x, ToClaim)
    ensures var r := CompensateOnce(s.rows, x, f);
            && s'.rows == r.rows && Standing(s', a, x, Finished(!r.err))
            && s'.tried == s.tried + (set sub | sub in r.cancels :: (x, sub))
    ensures Reaches(s, a, s')
  {
    hide TaskOf, ApplyClaim, ApplyFetch, ApplyCancel, ApplyMark, Reaches, ClaimRow, MarkRow;
    ReachesSelf(s, a);
    ClaimStands(s, a, x, f.claim);
    ReachesOneMore(s, a, s, Claim(f.claim));
    s' := ApplyClaim(s, a, f.claim);
    var c := AfterClaim(s.rows, x, f.claim);
    if c.ToFetch? {
      FetchStands(s', a, x, f.fetch);
      ReachesOneMore(s, a, s', Fetch(f.fetch));
      c := AfterFetch(s'.rows, x, f.fetch);
      s' := ApplyFetch(s', a, f.fetch);
    }
    if c.ToCancel? {
      CancelStands(s', a, x, c.subscriptionId, f.cancel);
      ReachesOneMore(s, a, s', Cancel(f.cancel));
      s' := ApplyCancel(s', a, f.cancel);
      if f.cancel.Ok? {
        MarkStands(s', a, x, f.mark);
        ReachesOneMore(s, a, s', Mark(f.mark));
        s' := ApplyMark(s', a, f.mark);
      }
    }
  }
}
