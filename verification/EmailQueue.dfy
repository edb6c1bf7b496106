/** The email queue: commands published by the monolith, the consumer that decodes
    and dispatches them, and the dedup ledger, interleaved statement by statement. */
module EmailQueue {
  import opened Base
  import opened Broker
  import Ledger

  // ---------------------------------------------------------------------------
  // Decoding a delivery

  /** A payload that decodes has every field; absent ones are empty. */
  datatype Payload =
    | Undecodable
    | Fields(email: string, confirmUrl: string, repo: string,
             tag: string, name: string, htmlUrl: string, publishedAt: string)

  datatype Body = Garbage | Envelope(kind: string, payload: Payload)

  const TYPE_CONFIRMATION := "confirmation"
  const TYPE_RELEASE := "release"

  /** The mail a delivery asks for; none means the consumer drops it. */
  function Decode(body: Body): Option<Ledger.Mail> {
    match body
    case Garbage => None
    case Envelope(kind, payload) =>
      if kind == TYPE_CONFIRMATION then DecodeConfirmation(payload)
      else if kind == TYPE_RELEASE then DecodeRelease(payload)
      else None
  }

  function DecodeConfirmation(payload: Payload): Option<Ledger.Mail> {
    match payload
    case Undecodable => None
    case Fields(email, url, repo, _, _, _, _) =>
      if email == "" || url == "" || repo == "" then None else Some(Ledger.ConfirmationMail(email, url, repo))
  }

  function DecodeRelease(payload: Payload): Option<Ledger.Mail> {
    match payload
    case Undecodable => None
    case Fields(email, _, repo, tag, name, htmlUrl, publishedAt) =>
      if email == "" || repo == "" then None
      else Some(Ledger.ReleaseMail(email, repo, tag, name, htmlUrl, publishedAt))
  }

  /** The commands the monolith's publisher writes. */
  function EncodeConfirmation(email: string, confirmUrl: string, repo: string): Body {
    Envelope(TYPE_CONFIRMATION, Fields(email, confirmUrl, repo, "", "", "", ""))
  }

  function EncodeRelease(email: string, repo: string, tag: string, name: string, htmlUrl: string,
                         publishedAt: string): Body {
    Envelope(TYPE_RELEASE, Fields(email, "", repo, tag, name, htmlUrl, publishedAt))
  }

  /** What the publisher encodes, the consumer decodes to the very same mail. */
  lemma PublishedCommandsDecode(email: string, confirmUrl: string, repo: string,
                                tag: string, name: string, htmlUrl: string, publishedAt: string)
    requires email != "" && repo != ""
    ensures confirmUrl != "" ==>
              Decode(EncodeConfirmation(email, confirmUrl, repo)) ==
                  Some(Ledger.ConfirmationMail(email, confirmUrl, repo))
    ensures Decode(EncodeRelease(email, repo, tag, name, htmlUrl, publishedAt)) ==
            Some(Ledger.ReleaseMail(email, repo, tag, name, htmlUrl, publishedAt))
  {
    assert TYPE_RELEASE[0] != TYPE_CONFIRMATION[0];
  }

  /** The consumer drops a command exactly if it is not one of the two kinds, cannot be
      decoded, or lacks the address, the repository or, for a confirmation, the link. */
  lemma DroppedAre(body: Body)
    ensures Decode(body).None? <==>
            || body.Garbage? || (body.kind != "confirmation" && body.kind != "release") || body.payload.Undecodable?
            || body.payload.email == "" || body.payload.repo == ""
            || (body.kind == "confirmation" && body.payload.confirmUrl == "")
  {
    assert "confirmation"[0] != "release"[0];
  }

  // ---------------------------------------------------------------------------
  // The machine

  datatype Pc = ToDecode | InSend | ToSettle(action: Action)

  datatype Task = Task(msg: nat, body: Body, pc: Pc)

  /** `published`, `dropped` and `reached` record every message ever published,
      those the consumer dropped, and those whose handling reached the mailer. */
  datatype State = State(
    queue: Queue<Body>,
    tasks: map<nat, Task>,
    ledger: Ledger.State,
    published: map<nat, Body>,
    dropped: set<nat>,
    reached: set<nat>)

  datatype Event =
    | Publish(body: Body)
    | Take(w: nat, msg: nat)
    | Inspect(w: nat)
    | OfLedger(step: Ledger.Event)
    | Return(w: nat)
    | SettleDelivery(w: nat)
    | LoseChannel(w: nat)
    | CrashWorker(w: nat)

  function Init(workers: set<nat>): State {
    State(Queue(0, map[]), map[], Ledger.Init(workers), map[], {}, {})
  }

  /** Workers that hold no delivery serve other callers of the ledger. */
  predicate LedgerStepAllowed(s: State, e: Ledger.Event) {
    && Ledger.Enabled(s.ledger, e)
    && !e.Crash?
    && (e.w in s.tasks ==>
          && s.tasks[e.w].pc.InSend? && !e.Collect?
          && (e.Reserve? ==> Decode(s.tasks[e.w].body) == Some(e.mail)))
  }

  predicate Enabled(s: State, e: Event) {
    match e
    case Publish(_) => true
    case Take(w, m) => w in s.ledger.workers && w !in s.tasks && s.ledger.workers[w].Idle? && s.queue.Ready(m)
    case Inspect(w) => w in s.tasks && s.tasks[w].pc.ToDecode?
    case OfLedger(step) => LedgerStepAllowed(s, step)
    case Return(w) => w in s.tasks && w in s.ledger.workers && s.tasks[w].pc.InSend? && s.ledger.workers[w].Done?
    case SettleDelivery(w) => w in s.tasks && s.tasks[w].pc.ToSettle?
    case LoseChannel(w) => w in s.tasks
    case CrashWorker(w) => w in s.ledger.workers
  }

  function Apply(s: State, e: Event): State
    requires Enabled(s, e)
  {
    match e
    case Publish(body) => s.(queue := s.queue.Publish(body), published := s.published[s.queue.next := body])
    case Take(w, m) => s.(queue := s.queue.Take(m, w), tasks := s.tasks[w := Task(m, s.queue.msgs[m].body, ToDecode)])
    case Inspect(w) => SetPc(s, w, if Decode(s.tasks[w].body).Some? then InSend else ToSettle(Drop))
    case OfLedger(step) => ApplyLedger(s, step)
    case Return(w) =>
      SetPc(s.(ledger := Ledger.Apply(s.ledger, Ledger.Collect(w))), w,
            ToSettle(if s.ledger.workers[w].err then Requeue else Ack))
    case SettleDelivery(w) => ApplySettle(s, w)
    case LoseChannel(w) => s.(queue := s.queue.Release(s.tasks[w].msg, w))
    case CrashWorker(w) => ApplyCrash(s, w)
  }

  function SetPc(s: State, w: nat, pc: Pc): State
    requires w in s.tasks
  {
    s.(tasks := s.tasks[w := s.tasks[w].(pc := pc)])
  }

  function ApplyLedger(s: State, e: Ledger.Event): State
    requires LedgerStepAllowed(s, e)
  {
    var mailed := e.Send? && e.out.TakesEffect() && e.w in s.tasks;
    s.(ledger := Ledger.Apply(s.ledger, e),
       reached := if mailed then s.reached + {s.tasks[e.w].msg} else s.reached)
  }

  function ApplySettle(s: State, w: nat): State
    requires w in s.tasks && s.tasks[w].pc.ToSettle?
  {
    var t := s.tasks[w];
    s.(queue := s.queue.Settle(t.msg, w, t.pc.action), tasks := s.tasks - {w},
       dropped := if t.pc.action.Drop? && s.queue.HeldBy(t.msg, w) then s.dropped + {t.msg} else s.dropped)
  }

  function ApplyCrash(s: State, w: nat): State
    requires w in s.ledger.workers
  {
    var t := s.(ledger := Ledger.Apply(s.ledger, Ledger.Crash(w)));
    if w in s.tasks then t.(queue := s.queue.Release(s.tasks[w].msg, w), tasks := s.tasks - {w}) else t
  }

  // ---------------------------------------------------------------------------
  // What every step keeps

  /** A well-formed message is in the queue or its key was accepted by the mailer. */
  predicate Conserved(queue: Queue<Body>, sends: multiset<string>, m: nat, body: Body) {
    Decode(body).Some? ==> m in queue.msgs || Ledger.KeyOf(Decode(body).value) in sends
  }

  predicate TaskOk(published: map<nat, Body>, sends: multiset<string>, t: Task, phase: Ledger.Phase) {
    && t.msg in published && published[t.msg] == t.body
    && (!t.pc.InSend? ==> phase.Idle?)
    && match t.pc
       case ToDecode => true
       case InSend => Decode(t.body).Some? && (!phase.Idle? ==> phase.mail == Decode(t.body).value)
       case ToSettle(Ack) => Decode(t.body).Some? && Ledger.KeyOf(Decode(t.body).value) in sends
       case ToSettle(Drop) => Decode(t.body).None?
       case ToSettle(_) => true
  }

  ghost predicate QueueOk(queue: Queue<Body>, published: map<nat, Body>) {
    && (forall m :: m in queue.msgs ==> m in published && queue.msgs[m].body == published[m])
    && (forall m :: m in published ==> m < queue.next)
  }

  ghost predicate TasksOk(published: map<nat, Body>, l: Ledger.State, tasks: map<nat, Task>) {
    forall w :: w in tasks ==> w in l.workers && TaskOk(published, l.sends, tasks[w], l.workers[w])
  }

  ghost predicate AllConserved(queue: Queue<Body>, sends: multiset<string>, published: map<nat, Body>) {
    forall m :: m in published ==> Conserved(queue, sends, m, published[m])
  }

  ghost predicate RecordsOk(published: map<nat, Body>, dropped: set<nat>, reached: set<nat>) {
    && (forall m :: m in dropped ==> m in published && Decode(published[m]).None?)
    && (forall m :: m in reached ==> m in published && Decode(published[m]).Some?)
  }

  ghost predicate Inv(s: State) {
    && QueueOk(s.queue, s.published)
    && TasksOk(s.published, s.ledger, s.tasks)
    && AllConserved(s.queue, s.ledger.sends, s.published)
    && RecordsOk(s.published, s.dropped, s.reached)
    && Ledger.Inv(s.ledger)
  }

  lemma PublishKeepsInv(s: State, body: Body)
    requires Inv(s)
    ensures Inv(Apply(s, Publish(body)))
  {
    hide Ledger.Inv, Decode, Ledger.KeyOf;
  }

  lemma TakeKeepsInv(s: State, w: nat, m: nat)
    requires Inv(s) && Enabled(s, Take(w, m))
    ensures Inv(Apply(s, Take(w, m)))
  {
    hide Ledger.Inv, Decode, Ledger.KeyOf;
  }

  lemma InspectKeepsInv(s: State, w: nat)
    requires Inv(s) && Enabled(s, Inspect(w))
    ensures Inv(Apply(s, Inspect(w)))
  {
    hide Ledger.Inv, Decode, Ledger.KeyOf;
  }

  /** The ledger moved by one step of worker `w`. */
  lemma LedgerMoves(s: State, e: Ledger.Event)
    requires Ledger.Inv(s.ledger) && Ledger.Enabled(s.ledger, e)
    ensures var l := Ledger.Apply(s.ledger, e);
            && Ledger.Inv(l) && s.ledger.sends <= l.sends
            && l.workers == s.ledger.workers[e.w := l.workers[e.w]]
            && (!e.Crash? && !e.Collect? ==>
                  && !l.workers[e.w].Idle?
                  && l.workers[e.w].mail == if e.Reserve? then e.mail else s.ledger.workers[e.w].mail)
            && (e.Crash? || e.Collect? ==> l.workers[e.w].Idle? && l.sends == s.ledger.sends)
  {
    hide Ledger.KeyOf, Ledger.Inv;
    Ledger.StepInv(s.ledger, e);
  }

  lemma LedgerStepKeepsInv(s: State, e: Ledger.Event)
    requires Inv(s) && LedgerStepAllowed(s, e)
    ensures Inv(ApplyLedger(s, e))
  {
    hide Ledger.Inv, Decode, Ledger.KeyOf, Ledger.Apply;
    LedgerMoves(s, e);
  }

  lemma ReturnKeepsInv(s: State, w: nat)
    requires Inv(s) && Enabled(s, Return(w))
    ensures Inv(Apply(s, Return(w)))
  {
    hide Ledger.Inv, Decode, Ledger.KeyOf, Ledger.Apply;
    LedgerMoves(s, Ledger.Collect(w));
    DoneMeansSent(s.ledger, w);
  }

  lemma DoneMeansSent(l: Ledger.State, w: nat)
    requires Ledger.Inv(l) && w in l.workers && l.workers[w].Done?
    ensures !l.workers[w].err ==> Ledger.KeyOf(l.workers[w].mail) in l.sends
  {
    assert Ledger.PhaseOk(l, l.workers[w]);
  }

  lemma SettleKeepsInv(s: State, w: nat)
    requires Inv(s) && Enabled(s, SettleDelivery(w))
    ensures Inv(ApplySettle(s, w))
  {
    hide Ledger.Inv, Decode, Ledger.KeyOf;
  }

  lemma CrashKeepsInv(s: State, w: nat)
    requires Inv(s) && Enabled(s, CrashWorker(w))
    ensures Inv(ApplyCrash(s, w))
  {
    hide Ledger.Inv, Decode, Ledger.KeyOf, Ledger.Apply;
    LedgerMoves(s, Ledger.Crash(w));
  }

  lemma LoseChannelKeepsInv(s: State, w: nat)
    requires Inv(s) && Enabled(s, LoseChannel(w))
    ensures Inv(Apply(s, LoseChannel(w)))
  {
    hide Ledger.Inv, Decode, Ledger.KeyOf;
  }

  lemma StepKeepsInv(s: State, e: Event)
    requires Inv(s) && Enabled(s, e)
    ensures Inv(Apply(s, e))
  {
    hide Inv, ApplyLedger, ApplySettle, ApplyCrash;
    match e
    case Publish(body) => PublishKeepsInv(s, body);
    case Take(w, m) => TakeKeepsInv(s, w, m);
    case Inspect(w) => InspectKeepsInv(s, w);
    case OfLedger(step) => LedgerStepKeepsInv(s, step);
    case Return(w) => ReturnKeepsInv(s, w);
    case SettleDelivery(w) => SettleKeepsInv(s, w);
    case LoseChannel(w) => LoseChannelKeepsInv(s, w);
    case CrashWorker(w) => CrashKeepsInv(s, w);
  }

  // ---------------------------------------------------------------------------
  // Whole runs

  ghost predicate IsRun(states: seq<State>, events: seq<Event>) {
    && |states| == |events| + 1
    && (exists workers :: states[0] == Init(workers))
    && forall i :: 0 <= i < |events| ==>
         Enabled(states[i], events[i]) && states[i + 1] == Apply(states[i], events[i])
  }

  lemma {:induction false} RunInv(states: seq<State>, events: seq<Event>, i: nat)
    requires IsRun(states, events) && i < |states|
    ensures Inv(states[i])
  {
    hide Enabled, Apply, Ledger.Inv;
    if i == 0 {
      var workers :| states[0] == Init(workers);
      Ledger.InitInv(workers);
    } else {
      RunInv(states, events, i - 1);
      StepKeepsInv(states[i - 1], events[i - 1]);
    }
  }

  /** Every well-formed command ever published is queued or unacked, or the mailer
      has accepted a mail with its dedup key. */
  lemma NoEmailLost(states: seq<State>, events: seq<Event>, i: nat, m: nat)
    requires IsRun(states, events) && i < |states| && m in states[i].published
    ensures var s := states[i];
            match Decode(s.published[m])
            case None => true
            case Some(mail) =>
              || m in s.queue.msgs
              || exists other :: other in s.ledger.mails && Ledger.KeyOf(other) == Ledger.KeyOf(mail)
  {
    hide Enabled, Apply, Decode, Ledger.KeyOf;
    RunInv(states, events, i);
    var s := states[i];
    if Decode(s.published[m]).Some? {
      assert Conserved(s.queue, s.ledger.sends, m, s.published[m]);
      assert Ledger.MailsOk(s.ledger, Ledger.KeyOf(Decode(s.published[m]).value));
    }
  }

  /** A command that the consumer dropped never reached the mailer, on this or on
      any other delivery of it. */
  lemma DroppedNeverMailed(states: seq<State>, events: seq<Event>, i: nat, j: nat, m: nat)
    requires IsRun(states, events) && i < |states| && j < |states| && m in states[i].dropped
    ensures m !in states[j].reached
  {
    hide Enabled, Apply, Decode, Ledger.Inv, AllConserved, TasksOk;
    RunInv(states, events, i);
    RunInv(states, events, j);
    if m in states[j].reached {
      PublishedAgree(states, events, i, j, m);
    }
  }

  lemma {:induction false} PublishedAgree(states: seq<State>, events: seq<Event>, i: nat, j: nat, m: nat)
    requires IsRun(states, events) && i < |states| && j < |states| && m in states[i].published &&
             m in states[j].published
    ensures states[i].published[m] == states[j].published[m]
  {
    var last := |states| - 1;
    PublishedStays(states, events, i, last, m);
    PublishedStays(states, events, j, last, m);
  }

  lemma {:induction false} PublishedStays(states: seq<State>, events: seq<Event>, i: nat, j: nat, m: nat)
    requires IsRun(states, events) && i <= j < |states| && m in states[i].published
    ensures m in states[j].published && states[j].published[m] == states[i].published[m]
  {
    hide Enabled, Apply, AllConserved, TasksOk, Ledger.Inv;
    if i < j {
      PublishedStays(states, events, i, j - 1, m);
      RunInv(states, events, j - 1);
      StepKeepsPublished(states[j - 1], events[j - 1], m);
    }
  }

  lemma StepKeepsPublished(s: State, e: Event, m: nat)
    requires Enabled(s, e) && m in s.published && m < s.queue.next
    ensures m in Apply(s, e).published && Apply(s, e).published[m] == s.published[m]
  {
    match e
    case Publish(_) =>
    case Take(_, _) =>
    case Inspect(_) =>
    case OfLedger(_) =>
    case Return(_) =>
    case SettleDelivery(_) =>
    case LoseChannel(_) =>
    case CrashWorker(_) =>
  }
}
