/** A durable broker queue with explicit acknowledgement, and the settlement of
    one delivery by the consumer loop. A message is ready (no holder) or unacked
    (held by one consumer); both kinds count as "in the queue". */
module Broker {
  import opened Base

  /** `Unknown` is any action value the consumer loop does not recognise. */
  datatype Action = Ack | Drop | Requeue | Unknown(code: int)

  datatype Delivery<+B> = Delivery(body: B, holder: Option<nat>)

  datatype Queue<B> = Queue(next: nat, msgs: map<nat, Delivery<B>>) {

    ghost predicate Valid() {
      forall m :: m in msgs ==> m < next
    }

    predicate Ready(m: nat) {
      m in msgs && msgs[m].holder.None?
    }

    predicate HeldBy(m: nat, w: nat) {
      m in msgs && msgs[m].holder == Some(w)
    }

    function Publish(body: B): Queue<B> {
      Queue(next + 1, msgs[next := Delivery(body, None)])
    }

    function Take(m: nat, w: nat): Queue<B>
      requires Ready(m)
    {
      this.(msgs := msgs[m := msgs[m].(holder := Some(w))])
    }

    /** The delivery tag of `m` is only good while `w` still holds `m`: settling
        after the channel dropped changes nothing. */
    function Settle(m: nat, w: nat, action: Action): Queue<B> {
      if !HeldBy(m, w) then this
      else if action.Ack? || action.Drop? then this.(msgs := msgs - {m})
      else this.(msgs := msgs[m := msgs[m].(holder := None)])
    }

    /** The channel that delivered `m` to `w` went away; the broker takes `m` back. */
    function Release(m: nat, w: nat): Queue<B> {
      if HeldBy(m, w) then this.(msgs := msgs[m := msgs[m].(holder := None)]) else this
    }

    /** Every consumer of the queue went away. */
    function ReleaseAll(): Queue<B> {
      this.(msgs := map m | m in msgs :: msgs[m].(holder := None))
    }
  }

  /** Only a positive settlement by the current holder removes a message, and it
      removes that message alone; no operation changes a body. */
  lemma SettleRemovesOnlyOnAckOrDrop<B>(q: Queue<B>, m: nat, w: nat, action: Action, k: nat)
    requires k in q.msgs
    ensures k !in q.Settle(m, w, action).msgs <==>
            k == m && q.HeldBy(m, w) && (action.Ack? || action.Drop?)
    ensures k in q.Settle(m, w, action).msgs ==> q.Settle(m, w, action).msgs[k].body == q.msgs[k].body
  {
  }
}
