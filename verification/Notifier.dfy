/** The notification service as its objects: the ledger store, the service that
    reserves, sends and confirms, and the saga participant that answers commands.
    One call at a time; what every outside call does is a parameter. */
module Notifier {
  import opened Base
  import opened Broker
  import opened SagaProtocol
  import Ledger

  class LedgerStore {
    var rows: Ledger.Rows

    constructor ()
      ensures rows == map[]
    {
      rows := map[];
    }

    /** A key that is absent or unconfirmed can be reserved, again and again. */
    method Reserve(kind: Ledger.Kind, key: string, out: Outcome) returns (reserved: bool, err: bool)
      modifies this
      ensures rows == if out.TakesEffect() then Ledger.ReserveRow(old(rows), kind, key) else old(rows)
      ensures err <==> !out.Ok?
      ensures reserved <==> out.Ok? && !Ledger.Confirmed(old(rows), key)
    {
      err := !out.Ok?;
      reserved := !err && !(key in rows && rows[key].sent);
      if out.TakesEffect() && !(key in rows && rows[key].sent) {
        rows := rows[key := Ledger.Entry(kind, false)];
      }
    }

    method Confirm(key: string, out: Outcome) returns (err: bool)
      modifies this
      ensures rows == if out.TakesEffect() then Ledger.ConfirmRow(old(rows), key) else old(rows)
      ensures err <==> !out.Ok?
    {
      err := !out.Ok?;
      if out.TakesEffect() && key in rows {
        rows := rows[key := rows[key].(sent := true)];
      }
    }
  }

  /** What the three calls of one delivery do. */
  datatype SendFaults = SendFaults(reserve: Outcome, send: Outcome, confirm: Outcome)

  const NO_SEND_FAULTS := SendFaults(Ok, Ok, Ok)

  /** The ledger after one delivery, whether the mailer accepted the mail, and
      what the call returned. */
  datatype Delivered = Delivered(rows: Ledger.Rows, accepted: bool, sent: bool, err: bool)

  function DeliverOnce(rows: Ledger.Rows, mail: Ledger.Mail, f: SendFaults): Delivered {
    var key := Ledger.KeyOf(mail);
    var reserved := if f.reserve.TakesEffect() then Ledger.ReserveRow(rows, Ledger.KindOf(mail), key) else rows;
    if !f.reserve.Ok? then Delivered(reserved, false, false, true)
    else if Ledger.Confirmed(rows, key) then Delivered(reserved, false, false, false)
    else if !f.send.Ok? then Delivered(reserved, f.send.TakesEffect(), false, true)
    else Delivered(if f.confirm.TakesEffect() then Ledger.ConfirmRow(reserved, key) else reserved, true, true, false)
  }

  ghost predicate Accepted(mails: seq<Ledger.Mail>, key: string) {
    exists i :: 0 <= i < |mails| && Ledger.KeyOf(mails[i]) == key
  }

  lemma AcceptedOneMore(mails: seq<Ledger.Mail>, mail: Ledger.Mail)
    ensures Accepted(mails + [mail], Ledger.KeyOf(mail))
    ensures forall key :: Accepted(mails, key) ==> Accepted(mails + [mail], key)
  {
    var more := mails + [mail];
    assert more[|mails|] == mail;
    forall key | Accepted(mails, key) ensures Accepted(more, key) {
      var i :| 0 <= i < |mails| && Ledger.KeyOf(mails[i]) == key;
      assert more[i] == mails[i];
    }
  }

  class Service {
    const store: LedgerStore
    /** What the mailer accepted, in order. */
    var mails: seq<Ledger.Mail>

    /** A confirmed key stands for a mail that was accepted. */
    ghost predicate Valid()
      reads this, store
    {
      forall key :: Ledger.Confirmed(store.rows, key) ==> Accepted(mails, key)
    }

    constructor (store: LedgerStore)
      requires store.rows == map[]
      ensures Valid() && this.store == store && mails == []
    {
      this.store := store;
      mails := [];
    }

    /** Without an error the mail's key has been accepted, now or before; a
        confirmed key is never sent again. */
    method ReserveAndSend(mail: Ledger.Mail, f: SendFaults) returns (sent: bool, err: bool)
      requires Valid()
      modifies this`mails, store
      ensures Valid()
      ensures var r := DeliverOnce(old(store.rows), mail, f);
              store.rows == r.rows && sent == r.sent && err == r.err &&
              mails == old(mails) + (if r.accepted then [mail] else [])
      ensures !err ==> Accepted(mails, Ledger.KeyOf(mail))
      ensures Ledger.Confirmed(old(store.rows), Ledger.KeyOf(mail)) ==> mails == old(mails) && !sent
      ensures sent ==> mails == old(mails) + [mail]
    {
      var key := Ledger.KeyOf(mail);
      var reserved, reserveErr := store.Reserve(Ledger.KindOf(mail), key, f.reserve);
      if reserveErr {
        return false, true;
      }
      if !reserved {
        return false, false;
      }
      AcceptedOneMore(mails, mail);
      if f.send.TakesEffect() {
        mails := mails + [mail];
      }
      if !f.send.Ok? {
        return false, true;
      }
      var confirmErr := store.Confirm(key, f.confirm);
      return true, false;
    }
  }

  // ---------------------------------------------------------------------------
  // The method and the worker of the ledger protocol

  ghost predicate IsTrail(s: Ledger.State, events: seq<Ledger.Event>, s': Ledger.State)
    decreases |events|
  {
    if events == [] then s == s'
    else Ledger.Enabled(s, events[0]) && IsTrail(Ledger.Apply(s, events[0]), events[1..], s')
  }

  /** Steps of worker `w` alone lead from `s` to `s'`. */
  ghost predicate Reaches(s: Ledger.State, w: nat, s': Ledger.State) {
    exists events: seq<Ledger.Event> :: IsTrail(s, events, s') && AllBy(events, w)
  }

  ghost predicate AllBy(events: seq<Ledger.Event>, w: nat) {
    forall i :: 0 <= i < |events| ==> events[i].w == w
  }

  lemma ReachesSelf(s: Ledger.State, w: nat)
    ensures Reaches(s, w, s)
  {
    assert IsTrail(s, [], s) && AllBy([], w);
  }

  lemma ReachesOneMore(s: Ledger.State, t: Ledger.State, e: Ledger.Event)
    requires Reaches(s, e.w, t) && Ledger.Enabled(t, e)
    ensures Reaches(s, e.w, Ledger.Apply(t, e))
  {
    hide Ledger.Enabled, Ledger.Apply, IsTrail;
    var events :| IsTrail(s, events, t) && AllBy(events, e.w);
    TrailOneMore(s, events, t, e);
    assert AllBy(events + [e], e.w);
  }

  lemma {:induction false} TrailOneMore(s: Ledger.State, events: seq<Ledger.Event>, t: Ledger.State, e: Ledger.Event)
    requires IsTrail(s, events, t) && Ledger.Enabled(t, e)
    ensures IsTrail(s, events + [e], Ledger.Apply(t, e))
    decreases |events|
  {
    hide Ledger.Enabled, Ledger.Apply;
    if events == [] {
      assert IsTrail(Ledger.Apply(t, e), [], Ledger.Apply(t, e));
      assert (events + [e])[1..] == [];
    } else {
      TrailOneMore(Ledger.Apply(s, events[0]), events[1..], t, e);
      assert (events + [e])[1..] == events[1..] + [e];
    }
  }

  /** Where one worker stands when it has delivered `mail`, from `s`. */
  ghost predicate Delivers(s: Ledger.State, w: nat, mail: Ledger.Mail, f: SendFaults, s': Ledger.State) {
    var r := DeliverOnce(s.rows, mail, f);
    && s'.rows == r.rows && s'.workers == s.workers[w := Ledger.Done(mail, r.sent, r.err)]
    && s'.sends == s.sends + if r.accepted then multiset{Ledger.KeyOf(mail)} else multiset{}
  }

  /** The worker after its reserve, and after its send. */
  function AfterReserve(s: Ledger.State, w: nat, mail: Ledger.Mail, f: SendFaults): Ledger.State
    requires w in s.workers
  {
    Ledger.ApplyReserve(s, w, mail, f.reserve)
  }

  function AfterSend(s: Ledger.State, w: nat, mail: Ledger.Mail, f: SendFaults): Ledger.State
    requires w in s.workers && AfterReserve(s, w, mail, f).workers[w].Reserved?
  {
    Ledger.ApplySend(AfterReserve(s, w, mail, f), w, f.send)
  }

  lemma ReserveStep(s: Ledger.State, w: nat, mail: Ledger.Mail, f: SendFaults)
    requires w in s.workers && s.workers[w].Idle?
    ensures Reaches(s, w, AfterReserve(s, w, mail, f))
    ensures AfterReserve(s, w, mail, f).workers[w].Reserved? || Delivers(s, w, mail, f, AfterReserve(s, w, mail, f))
  {
    hide Reaches, Ledger.KeyOf, Ledger.KindOf, Ledger.ReserveRow;
    ReachesSelf(s, w);
    ReachesOneMore(s, s, Ledger.Reserve(w, mail, f.reserve));
  }

  lemma SendStep(s: Ledger.State, w: nat, mail: Ledger.Mail, f: SendFaults)
    requires w in s.workers && s.workers[w].Idle? && AfterReserve(s, w, mail, f).workers[w].Reserved?
    ensures Reaches(s, w, AfterSend(s, w, mail, f))
    ensures AfterSend(s, w, mail, f).workers[w].Accepted? || Delivers(s, w, mail, f, AfterSend(s, w, mail, f))
  {
    hide Reaches, Ledger.KeyOf, Ledger.KindOf, Ledger.ReserveRow;
    ReserveStep(s, w, mail, f);
    ReachesOneMore(s, AfterReserve(s, w, mail, f), Ledger.Send(w, f.send));
  }

  lemma ConfirmStep(s: Ledger.State, w: nat, mail: Ledger.Mail, f: SendFaults) returns (s': Ledger.State)
    requires w in s.workers && s.workers[w].Idle? && AfterReserve(s, w, mail, f).workers[w].Reserved?
    requires AfterSend(s, w, mail, f).workers[w].Accepted?
    ensures Reaches(s, w, s') && Delivers(s, w, mail, f, s')
  {
    hide Reaches, Ledger.KeyOf, Ledger.KindOf, Ledger.ReserveRow, Ledger.ConfirmRow;
    SendStep(s, w, mail, f);
    ReachesOneMore(s, AfterSend(s, w, mail, f), Ledger.Confirm(w, f.confirm));
    s' := Ledger.ApplyConfirm(AfterSend(s, w, mail, f), w, f.confirm);
  }

  /** One worker of the ledger protocol, left alone, does what the method does. */
  lemma UninterruptedWorkerDelivers(s: Ledger.State, w: nat, mail: Ledger.Mail, f: SendFaults)
    returns (s': Ledger.State)
    requires w in s.workers && s.workers[w].Idle?
    ensures var r := DeliverOnce(s.rows, mail, f);
            && s'.rows == r.rows && s'.workers == s.workers[w := Ledger.Done(mail, r.sent, r.err)]
            && s'.sends == s.sends + if r.accepted then multiset{Ledger.KeyOf(mail)} else multiset{}
    ensures Reaches(s, w, s')
  {
    hide Reaches, DeliverOnce, Ledger.KeyOf, Ledger.KindOf, Ledger.ReserveRow;
    ReserveStep(s, w, mail, f);
    s' := AfterReserve(s, w, mail, f);
    if s'.workers[w].Reserved? {
      SendStep(s, w, mail, f);
      s' := AfterSend(s, w, mail, f);
      if s'.workers[w].Accepted? {
        s' := ConfirmStep(s, w, mail, f);
      }
    }
  }

  /** The payload decodes and nothing in it is empty. */
  predicate HasAllFields(body: CommandBody) {
    body.SendConfirmation? && body.email != "" && body.confirmUrl != "" && body.repo != ""
  }

  class Participant {
    const service: Service
    /** The replies the broker accepted, in order. */
    var replies: seq<ReplyBody>

    constructor (service: Service)
      ensures this.service == service && replies == []
    {
      this.service := service;
      replies := [];
    }

    /** A command is dropped exactly when it cannot be decoded and acked only after
        its answer was accepted by the broker; a sent answer is a mailed saga. */
    method Handle(body: CommandBody, f: SendFaults, publish: Outcome) returns (action: Action)
      requires service.Valid()
      modifies this`replies, service`mails, service.store
      ensures service.Valid()
      ensures action == Drop <==> body.BadCommand?
      ensures body.BadCommand? ==> replies == old(replies) && service.mails == old(service.mails)
      ensures !body.BadCommand? ==> (action == Ack <==> publish.Ok?) && (action == Requeue <==> !publish.Ok?)
      ensures !body.BadCommand? && !publish.TakesEffect() ==> replies == old(replies)
      ensures body.BadPayload? || (body.SendConfirmation? &&
                                   (body.email == "" || body.confirmUrl == "" || body.repo == "")) ==>
                && service.mails == old(service.mails) && service.store.rows == old(service.store.rows)
                && (publish.TakesEffect() ==> replies == old(replies) + [ConfirmationFailed(body.saga)])
      ensures body.SendConfirmation? && body.email != "" && body.confirmUrl != "" && body.repo != "" ==>
                var r := DeliverOnce(old(service.store.rows), MailFor(body), f);
                && service.store.rows == r.rows
                && service.mails == old(service.mails) + (if r.accepted then [MailFor(body)] else [])
                && (publish.TakesEffect() ==>
                      replies == old(replies) +
                        [if r.err then ConfirmationFailed(body.saga) else ConfirmationSent(body.saga)])
                && (!r.err ==> Accepted(service.mails, Ledger.ConfirmKey(body.confirmUrl)))
    {
      if body.BadCommand? {
        return Drop;
      }
      var reply := ConfirmationFailed(body.saga);
      if HasAllFields(body) {
        var sent, err := service.ReserveAndSend(MailFor(body), f);
        if !err {
          reply := ConfirmationSent(body.saga);
        }
      }
      if publish.TakesEffect() {
        replies := replies + [reply];
      }
      action := if publish.Ok? then Ack else Requeue;
    }
  }
}
