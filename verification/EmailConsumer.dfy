/** The email consumer and its delivery loop as objects, one delivery at a time. */
module EmailConsumer {
  import opened Broker
  import opened EmailQueue
  import opened Notifier
  import Ledger

  /** A message needs no more care: it cannot be decoded, or the mailer accepted a
      mail with its key. */
  ghost predicate Served(mails: seq<Ledger.Mail>, body: Body) {
    match Decode(body)
    case None => true
    case Some(mail) => Accepted(mails, Ledger.KeyOf(mail))
  }

  class Consumer {
    const service: Service
    var queue: Queue<Body>

    constructor (service: Service)
      ensures this.service == service && queue == Queue(0, map[])
    {
      this.service := service;
      queue := Queue(0, map[]);
    }

    /** Bad input is dropped without touching the ledger; a send error is requeued. */
    method Handle(body: Body, f: SendFaults) returns (action: Action)
      requires service.Valid()
      modifies service`mails, service.store
      ensures service.Valid() && old(service.mails) <= service.mails
      ensures Decode(body).None? ==>
                action == Drop && service.mails == old(service.mails) && service.store.rows == old(service.store.rows)
      ensures Decode(body).Some? ==>
                var r := DeliverOnce(old(service.store.rows), Decode(body).value, f);
                && action == (if r.err then Requeue else Ack) && service.store.rows == r.rows
                && service.mails == old(service.mails) + (if r.accepted then [Decode(body).value] else [])
      ensures action == Ack || action == Drop || action == Requeue
      ensures action != Requeue ==> Served(service.mails, body)
      ensures f == NO_SEND_FAULTS ==> action != Requeue
      ensures Decode(body).Some? && !f.reserve.Ok? ==> action == Requeue
    {
      match Decode(body)
      case None => return Drop;
      case Some(mail) =>
        var sent, err := service.ReserveAndSend(mail, f);
        return if err then Requeue else Ack;
    }

    /** The delivery loop over the messages it is given, in order; a message that is
        gone or held elsewhere is not delivered. */
    method Pump(me: nat, deliveries: seq<nat>, faults: nat -> SendFaults)
      requires service.Valid() && queue.Valid()
      modifies this`queue, service`mails, service.store
      ensures service.Valid() && queue.Valid() && queue.next == old(queue.next)
      ensures forall m :: m in queue.msgs ==> m in old(queue.msgs) && queue.msgs[m] == old(queue.msgs)[m]
      ensures forall m :: m in old(queue.msgs) && m !in queue.msgs ==>
                m in deliveries && old(queue).Ready(m) && Served(service.mails, old(queue.msgs)[m].body)
      ensures forall m :: m in deliveries && old(queue).Ready(m) &&
                          (Decode(old(queue.msgs)[m].body).None? || faults(m) == NO_SEND_FAULTS) ==>
                m !in queue.msgs
      ensures forall m :: m in old(queue.msgs) && Decode(old(queue.msgs)[m].body).Some? && !faults(m).reserve.Ok? ==>
                m in queue.msgs
    {
      hide Served, DeliverOnce, Decode, Pumped, Emptied, Held;
      NothingPumped(queue, service.mails, faults);
      var i := 0;
      while i < |deliveries|
        invariant 0 <= i <= |deliveries| && service.Valid()
        invariant Pumped(old(queue), queue, deliveries[..i], service.mails)
        invariant Emptied(old(queue), queue, deliveries[..i], faults) && Held(old(queue), queue, faults)
      {
        var m := deliveries[i];
        assert deliveries[..i + 1] == deliveries[..i] + [m];
        ghost var q, before := queue, service.mails;
        if queue.Ready(m) {
          queue := queue.Take(m, me);
          var action := Handle(queue.msgs[m].body, faults(m));
          queue := queue.Settle(m, me, action);
          OneSettled(old(queue), q, deliveries[..i], before, m, me, action, service.mails, faults);
        } else {
          OneSkipped(old(queue), q, deliveries[..i], before, m, faults);
        }
        i := i + 1;
      }
      assert deliveries[..i] == deliveries;
      PumpedMeans(old(queue), queue, deliveries, service.mails, faults);
    }
  }

  /** What the loop has done to the queue: only messages it has seen, could take and
      served are gone, and the others are as they were. */
  ghost predicate Pumped(q0: Queue<Body>, q: Queue<Body>, seen: seq<nat>, mails: seq<Ledger.Mail>) {
    && q.Valid() && q.next == q0.next
    && (forall m :: m in q.msgs ==> m in q0.msgs && q.msgs[m] == q0.msgs[m])
    && (forall m :: m in q0.msgs && m !in q.msgs ==> m in seen && q0.Ready(m) && Served(mails, q0.msgs[m].body))
  }

  /** What could be taken and either cannot be decoded or met no fault is gone, whatever
      became of the others. */
  ghost predicate Emptied(q0: Queue<Body>, q: Queue<Body>, seen: seq<nat>, faults: nat -> SendFaults) {
    forall m :: m in seen && q0.Ready(m) && (Decode(q0.msgs[m].body).None? || faults(m) == NO_SEND_FAULTS) ==>
      m !in q.msgs
  }

  /** What can be decoded and could not be reserved is still there. */
  ghost predicate Held(q0: Queue<Body>, q: Queue<Body>, faults: nat -> SendFaults) {
    forall m :: m in q0.msgs && Decode(q0.msgs[m].body).Some? && !faults(m).reserve.Ok? ==> m in q.msgs
  }

  lemma NothingPumped(q: Queue<Body>, mails: seq<Ledger.Mail>, faults: nat -> SendFaults)
    requires q.Valid()
    ensures Pumped(q, q, [], mails) && Emptied(q, q, [], faults) && Held(q, q, faults)
  {
  }

  lemma PumpedMeans(q0: Queue<Body>, q: Queue<Body>, seen: seq<nat>, mails: seq<Ledger.Mail>,
                    faults: nat -> SendFaults)
    requires Pumped(q0, q, seen, mails) && Emptied(q0, q, seen, faults) && Held(q0, q, faults)
    ensures q.Valid() && q.next == q0.next
    ensures forall m :: m in q.msgs ==> m in q0.msgs && q.msgs[m] == q0.msgs[m]
    ensures forall m :: m in q0.msgs && m !in q.msgs ==> m in seen && q0.Ready(m) && Served(mails, q0.msgs[m].body)
    ensures forall m :: m in seen && q0.Ready(m) &&
                        (Decode(q0.msgs[m].body).None? || faults(m) == NO_SEND_FAULTS) ==>
              m !in q.msgs
    ensures forall m :: m in q0.msgs && Decode(q0.msgs[m].body).Some? && !faults(m).reserve.Ok? ==> m in q.msgs
  {
    hide Served;
  }

  lemma OneSettled(q0: Queue<Body>, q: Queue<Body>, seen: seq<nat>, mails: seq<Ledger.Mail>,
                   m: nat, me: nat, action: Action, mails': seq<Ledger.Mail>, faults: nat -> SendFaults)
    requires Pumped(q0, q, seen, mails) && Emptied(q0, q, seen, faults) && Held(q0, q, faults)
    requires q.Ready(m) && mails <= mails'
    requires action == Ack || action == Drop || action == Requeue
    requires action != Requeue ==> Served(mails', q.msgs[m].body)
    requires Decode(q.msgs[m].body).None? || faults(m) == NO_SEND_FAULTS ==> action != Requeue
    requires Decode(q.msgs[m].body).Some? && !faults(m).reserve.Ok? ==> action == Requeue
    ensures var q' := q.Take(m, me).Settle(m, me, action);
            Pumped(q0, q', seen + [m], mails') && Emptied(q0, q', seen + [m], faults) && Held(q0, q', faults)
  {
    hide Served, Decode;
    MoreMailsServeMore(mails, mails');
    assert q.Take(m, me).Settle(m, me, Requeue).msgs == q.msgs;
  }

  lemma OneSkipped(q0: Queue<Body>, q: Queue<Body>, seen: seq<nat>, mails: seq<Ledger.Mail>, m: nat,
                   faults: nat -> SendFaults)
    requires Pumped(q0, q, seen, mails) && Emptied(q0, q, seen, faults) && !q.Ready(m)
    ensures Pumped(q0, q, seen + [m], mails) && Emptied(q0, q, seen + [m], faults)
  {
    hide Served, Decode;
  }

  lemma MoreMailsServeMore(mails: seq<Ledger.Mail>, more: seq<Ledger.Mail>)
    requires mails <= more
    ensures forall body :: Served(mails, body) ==> Served(more, body)
  {
    forall key | Accepted(mails, key) ensures Accepted(more, key) {
      var i :| 0 <= i < |mails| && Ledger.KeyOf(mails[i]) == key;
      assert Ledger.KeyOf(more[i]) == key;
    }
  }
}
