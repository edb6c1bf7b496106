/** The dedup ledger of the notification service (table sent_notifications) and
    the reserve, send, confirm protocol that its workers run over it. */
module Ledger {
  import opened Base
  import opened Strings

  datatype Mail =
    | ConfirmationMail(email: string, confirmUrl: string, repo: string)
    | ReleaseMail(email: string, repo: string, tag: string, name: string, htmlUrl: string, publishedAt: string)

  datatype Kind = Confirmation | Release

  function KindOf(mail: Mail): Kind {
    if mail.ConfirmationMail? then Confirmation else Release
  }

  /** The logical dedup key. The stored key is its hash, taken to be injective. */
  function KeyOf(mail: Mail): string {
    match mail
    case ConfirmationMail(_, url, _) => ConfirmKey(url)
    case ReleaseMail(email, repo, tag, _, _, _) => "release:" + Join(repo, ':', Join(tag, ':', email))
  }

  function ConfirmKey(url: string): string {
    "confirm:" + url
  }

  /** A confirmation key is the key of confirmations of that very URL and of nothing else. */
  lemma ConfirmKeyIdentifiesUrl(mail: Mail, url: string)
    ensures KeyOf(mail) == ConfirmKey(url) <==> mail.ConfirmationMail? && mail.confirmUrl == url
  {
    if KeyOf(mail) == ConfirmKey(url) {
      assert KeyOf(mail)[0] == ConfirmKey(url)[0] == 'c';
      assert KeyOf(mail)[8..] == ConfirmKey(url)[8..] == url;
      if mail.ConfirmationMail? {
        assert KeyOf(mail)[8..] == mail.confirmUrl;
      }
    }
  }

  /** Two releases share a key exactly when they are the same tag of the same
      repository for the same address, as long as no repository or tag has a colon. */
  lemma ReleaseKeyIdentifiesDelivery(a: Mail, b: Mail)
    requires a.ReleaseMail? && b.ReleaseMail?
    requires ':' !in a.repo && ':' !in a.tag && ':' !in b.repo && ':' !in b.tag
    ensures KeyOf(a) == KeyOf(b) <==> a.repo == b.repo && a.tag == b.tag && a.email == b.email
  {
    var restA, restB := Join(a.tag, ':', a.email), Join(b.tag, ':', b.email);
    JoinIsInjective(a.tag, a.email, b.tag, b.email, ':');
    JoinIsInjective(a.repo, restA, b.repo, restB, ':');
    assert KeyOf(a)[8..] == Join(a.repo, ':', restA);
    assert KeyOf(b)[8..] == Join(b.repo, ':', restB);
  }

  // ---------------------------------------------------------------------------
  // The table and its two statements

  datatype Entry = Entry(kind: Kind, sent: bool)

  type Rows = map<string, Entry>

  predicate Confirmed(rows: Rows, key: string) {
    key in rows && rows[key].sent
  }

  /** The upsert of Reserve: it returns a row exactly when the key is not confirmed. */
  function ReserveRow(rows: Rows, kind: Kind, key: string): Rows {
    if Confirmed(rows, key) then rows else rows[key := Entry(kind, false)]
  }

  function ConfirmRow(rows: Rows, key: string): Rows {
    if key in rows then rows[key := rows[key].(sent := true)] else rows
  }

  // ---------------------------------------------------------------------------
  // Concurrent workers, interleaved statement by statement

  /** One worker inside reserveAndSend; `Done` is what the call returned. */
  datatype Phase =
    | Idle
    | Reserved(mail: Mail)
    | Accepted(mail: Mail)
    | Done(mail: Mail, sent: bool, err: bool)

  /** `mails` and `sends` record what the mailer accepted (`sends` by key);
      `committed` and `lost` split the accepted mails whose worker is finished
      with them by whether their Confirm statement took effect. */
  datatype State = State(
    rows: Rows,
    workers: map<nat, Phase>,
    mails: set<Mail>,
    sends: multiset<string>,
    committed: multiset<string>,
    lost: multiset<string>)

  datatype Event =
    | Reserve(w: nat, mail: Mail, out: Outcome)
    | Send(w: nat, out: Outcome)
    | Confirm(w: nat, out: Outcome)
    | Collect(w: nat)
    | Crash(w: nat)

  function Init(workers: set<nat>): State {
    State(map[], map w | w in workers :: Idle, {}, multiset{}, multiset{}, multiset{})
  }

  predicate Enabled(s: State, e: Event) {
    && e.w in s.workers
    && match e
       case Reserve(w, _, _) => s.workers[w].Idle?
       case Send(w, _) => s.workers[w].Reserved?
       case Confirm(w, _) => s.workers[w].Accepted?
       case Collect(w) => s.workers[w].Done?
       case Crash(_) => true
  }

  function Apply(s: State, e: Event): State
    requires Enabled(s, e)
  {
    match e
    case Reserve(w, mail, out) => ApplyReserve(s, w, mail, out)
    case Send(w, out) => ApplySend(s, w, out)
    case Confirm(w, out) => ApplyConfirm(s, w, out)
    case Collect(w) => s.(workers := s.workers[w := Idle])
    case Crash(w) => ApplyCrash(s, w)
  }

  function ApplyReserve(s: State, w: nat, mail: Mail, out: Outcome): State
    requires w in s.workers
  {
    var key := KeyOf(mail);
    var rows := if out.TakesEffect() then ReserveRow(s.rows, KindOf(mail), key) else s.rows;
    var phase :=
      if !out.Ok? then Done(mail, false, true)
      else if Confirmed(s.rows, key) then Done(mail, false, false)
      else Reserved(mail);
    s.(rows := rows, workers := s.workers[w := phase])
  }

  /** The mailer may have accepted a message although the send reported an error. */
  function ApplySend(s: State, w: nat, out: Outcome): State
    requires w in s.workers && s.workers[w].Reserved?
  {
    var mail := s.workers[w].mail;
    var key := KeyOf(mail);
    match out
    case ErrNoEffect => s.(workers := s.workers[w := Done(mail, false, true)])
    case ErrAfterEffect =>
      s.(workers := s.workers[w := Done(mail, false, true)],
         mails := s.mails + {mail}, sends := s.sends + multiset{key}, lost := s.lost + multiset{key})
    case Ok =>
      s.(workers := s.workers[w := Accepted(mail)],
         mails := s.mails + {mail}, sends := s.sends + multiset{key})
  }

  /** A failed Confirm is logged and the call still reports success. */
  function ApplyConfirm(s: State, w: nat, out: Outcome): State
    requires w in s.workers && s.workers[w].Accepted?
  {
    var mail := s.workers[w].mail;
    var key := KeyOf(mail);
    var workers := s.workers[w := Done(mail, true, false)];
    if out.TakesEffect() then
      s.(workers := workers, rows := ConfirmRow(s.rows, key), committed := s.committed + multiset{key})
    else
      s.(workers := workers, lost := s.lost + multiset{key})
  }

  function ApplyCrash(s: State, w: nat): State
    requires w in s.workers
  {
    var workers := s.workers[w := Idle];
    if s.workers[w].Accepted? then
      s.(workers := workers, lost := s.lost + multiset{KeyOf(s.workers[w].mail)})
    else
      s.(workers := workers)
  }

  // ---------------------------------------------------------------------------
  // What every step keeps

  predicate Sending(p: Phase, key: string) {
    p.Accepted? && KeyOf(p.mail) == key
  }

  predicate Busy(p: Phase, key: string) {
    (p.Reserved? || p.Accepted?) && KeyOf(p.mail) == key
  }

  function SendingWorkers(s: State, key: string): set<nat> {
    set w | w in s.workers && Sending(s.workers[w], key)
  }

  function BusyWorkers(s: State, key: string): set<nat> {
    set w | w in s.workers && Busy(s.workers[w], key)
  }

  /** Every accepted mail is in the hands of a worker, confirmed or lost; a key
      is confirmed exactly when some Confirm for it took effect, and from then
      on its confirms and its busy workers together fit into the pool. */
  ghost predicate Balanced(s: State, key: string) {
    && s.sends[key] == s.committed[key] + s.lost[key] + |SendingWorkers(s, key)|
    && (Confirmed(s.rows, key) <==> s.committed[key] > 0)
    && (Confirmed(s.rows, key) ==> s.committed[key] + |BusyWorkers(s, key)| <= |s.workers|)
  }

  ghost predicate PhaseOk(s: State, p: Phase) {
    match p
    case Idle => true
    case Reserved(mail) => KeyOf(mail) in s.rows
    case Accepted(mail) => KeyOf(mail) in s.rows && KeyOf(mail) in s.sends
    case Done(mail, sent, err) => (!err ==> KeyOf(mail) in s.sends) && (sent ==> !err)
  }

  ghost predicate Inv(s: State) {
    && (forall key :: Balanced(s, key))
    && (forall w :: w in s.workers ==> PhaseOk(s, s.workers[w]))
    && (forall key :: MailsOk(s, key))
  }

  ghost predicate MailsOk(s: State, key: string) {
    key in s.sends <==> exists mail :: mail in s.mails && KeyOf(mail) == key
  }

  lemma InitInv(workers: set<nat>)
    ensures Inv(Init(workers))
  {
    var s := Init(workers);
    forall key ensures Balanced(s, key) {
      assert SendingWorkers(s, key) == {};
    }
  }

  /** How one worker's change of phase moves the two counts of a key. */
  lemma CountsMove(s: State, s': State, w: nat, p: Phase, key: string)
    requires w in s.workers && s'.workers == s.workers[w := p]
    ensures |s'.workers| == |s.workers|
    ensures |SendingWorkers(s', key)| - Ones(Sending(p, key)) ==
            |SendingWorkers(s, key)| - Ones(Sending(s.workers[w], key))
    ensures |BusyWorkers(s', key)| - Ones(Busy(p, key)) == |BusyWorkers(s, key)| - Ones(Busy(s.workers[w], key))
    ensures |BusyWorkers(s, key)| <= |s.workers|
  {
    assert s'.workers.Keys == s.workers.Keys;
    SizesMove(SendingWorkers(s, key), SendingWorkers(s', key), w);
    SizesMove(BusyWorkers(s, key), BusyWorkers(s', key), w);
    SubsetSize(BusyWorkers(s, key), s.workers.Keys);
  }

  function Ones(b: bool): nat {
    if b then 1 else 0
  }

  lemma SizesMove(a: set<nat>, b: set<nat>, w: nat)
    requires forall x :: x != w ==> (x in a <==> x in b)
    ensures |a| - Ones(w in a) == |b| - Ones(w in b)
  {
    assert a - {w} == b - {w};
    assert w in a ==> a == (a - {w}) + {w};
    assert w !in a ==> a == a - {w};
    assert w in b ==> b == (b - {w}) + {w};
    assert w !in b ==> b == b - {w};
  }

  lemma ReserveConfirmsNothing(rows: Rows, kind: Kind, reserved: string, key: string)
    ensures Confirmed(ReserveRow(rows, kind, reserved), key) <==> Confirmed(rows, key)
  {
  }

  lemma ReserveBalanced(s: State, w: nat, mail: Mail, out: Outcome, key: string)
    requires w in s.workers && s.workers[w].Idle? && Balanced(s, key)
    ensures Balanced(ApplyReserve(s, w, mail, out), key)
  {
    hide KeyOf, KindOf, SendingWorkers, BusyWorkers;
    var s' := ApplyReserve(s, w, mail, out);
    CountsMove(s, s', w, s'.workers[w], key);
    ReserveConfirmsNothing(s.rows, KindOf(mail), KeyOf(mail), key);
  }

  lemma SendBalanced(s: State, w: nat, out: Outcome, key: string)
    requires w in s.workers && s.workers[w].Reserved? && Balanced(s, key)
    ensures Balanced(ApplySend(s, w, out), key)
  {
    hide KeyOf, KindOf, SendingWorkers, BusyWorkers, Confirmed;
    var s' := ApplySend(s, w, out);
    CountsMove(s, s', w, s'.workers[w], key);
  }

  lemma ConfirmBalanced(s: State, w: nat, out: Outcome, key: string)
    requires w in s.workers && s.workers[w].Accepted? && Balanced(s, key) && KeyOf(s.workers[w].mail) in s.rows
    ensures Balanced(ApplyConfirm(s, w, out), key)
  {
    hide KeyOf, KindOf, SendingWorkers, BusyWorkers;
    var s' := ApplyConfirm(s, w, out);
    CountsMove(s, s', w, s'.workers[w], key);
  }

  lemma CrashBalanced(s: State, w: nat, key: string)
    requires w in s.workers && Balanced(s, key)
    ensures Balanced(ApplyCrash(s, w), key)
  {
    hide KeyOf, KindOf, SendingWorkers, BusyWorkers, Confirmed;
    CountsMove(s, ApplyCrash(s, w), w, Idle, key);
  }

  lemma StepBalanced(s: State, e: Event, key: string)
    requires Enabled(s, e) && Balanced(s, key) && PhaseOk(s, s.workers[e.w])
    ensures Balanced(Apply(s, e), key)
  {
    hide Balanced, ApplyReserve, ApplySend, ApplyConfirm, ApplyCrash, KeyOf;
    match e
    case Reserve(w, mail, out) => ReserveBalanced(s, w, mail, out, key);
    case Send(w, out) => SendBalanced(s, w, out, key);
    case Confirm(w, out) => ConfirmBalanced(s, w, out, key);
    case Collect(w) => CollectBalanced(s, w, key);
    case Crash(w) => CrashBalanced(s, w, key);
  }

  lemma CollectBalanced(s: State, w: nat, key: string)
    requires w in s.workers && s.workers[w].Done? && Balanced(s, key)
    ensures Balanced(s.(workers := s.workers[w := Idle]), key)
  {
    hide KeyOf, KindOf, SendingWorkers, BusyWorkers, Confirmed;
    CountsMove(s, s.(workers := s.workers[w := Idle]), w, Idle, key);
  }

  lemma StepMails(s: State, e: Event, key: string)
    requires Enabled(s, e) && MailsOk(s, key)
    ensures MailsOk(Apply(s, e), key)
  {
    var s' := Apply(s, e);
    if e.Send? && !e.out.ErrNoEffect? {
      var mail := s.workers[e.w].mail;
      assert s'.mails == s.mails + {mail} && s'.sends == s.sends + multiset{KeyOf(mail)};
      assert mail in s'.mails;
    }
  }

  lemma StepPhase(s: State, e: Event, w: nat)
    requires Enabled(s, e) && w in s.workers
    requires PhaseOk(s, s.workers[w])
    requires e.Reserve? ==> Balanced(s, KeyOf(e.mail))
    ensures PhaseOk(Apply(s, e), Apply(s, e).workers[w])
  {
    hide KeyOf, KindOf, SendingWorkers, BusyWorkers;
    match e
    case Reserve(_, _, _) =>
    case Send(_, _) =>
    case Confirm(_, _) =>
    case Collect(_) =>
    case Crash(_) =>
  }

  lemma StepInv(s: State, e: Event)
    requires Inv(s) && Enabled(s, e)
    ensures Inv(Apply(s, e))
    ensures s.sends <= Apply(s, e).sends
  {
    var s' := Apply(s, e);
    forall key ensures Balanced(s', key) {
      StepBalanced(s, e, key);
    }
    forall key ensures MailsOk(s', key) {
      StepMails(s, e, key);
    }
    forall w | w in s'.workers ensures PhaseOk(s', s'.workers[w]) {
      StepPhase(s, e, w);
    }
  }

  // ---------------------------------------------------------------------------
  // Whole runs

  ghost predicate IsRun(states: seq<State>, events: seq<Event>) {
    && |states| == |events| + 1
    && (exists workers :: states[0] == Init(workers))
    && forall i :: 0 <= i < |events| ==>
         Enabled(states[i], events[i]) && states[i + 1] == Apply(states[i], events[i])
  }

  lemma {:induction false} RunInv(states: seq<State>, events: seq<Event>, i: nat)
    requires IsRun(states, events) && i < |states|
    ensures Inv(states[i])
    ensures |states[i].workers| == |states[0].workers|
  {
    if i == 0 {
      var workers :| states[0] == Init(workers);
      InitInv(workers);
    } else {
      RunInv(states, events, i - 1);
      var e := events[i - 1];
      StepInv(states[i - 1], e);
      CountsMove(states[i - 1], states[i], e.w, states[i].workers[e.w], "");
    }
  }

  lemma InvBoundsSends(s: State, key: string)
    requires Inv(s)
    ensures s.sends[key] <= |s.workers| + s.lost[key]
  {
    assert Balanced(s, key);
    SubsetSize(SendingWorkers(s, key), BusyWorkers(s, key));
    SubsetSize(BusyWorkers(s, key), s.workers.Keys);
  }

  /** For every dedup key and every schedule of the pool, the mailer accepts at
      most one message per worker plus one per message whose confirm was lost. */
  lemma SendsBounded(states: seq<State>, events: seq<Event>, i: nat, key: string)
    requires IsRun(states, events) && i < |states|
    ensures states[i].sends[key] <= |states[0].workers| + states[i].lost[key]
  {
    RunInv(states, events, i);
    InvBoundsSends(states[i], key);
  }

  /** A single sequential worker sends a key twice only if a confirm was lost. */
  lemma OneWorkerSendsOnce(states: seq<State>, events: seq<Event>, i: nat, key: string)
    requires IsRun(states, events) && i < |states| && |states[0].workers| == 1
    requires states[i].lost[key] == 0
    ensures states[i].sends[key] <= 1
  {
    SendsBounded(states, events, i, key);
  }

  /** A call that returned without an error, deduplicated or not, returned after
      the mailer had accepted a mail with its key. */
  lemma SuccessMeansAccepted(states: seq<State>, events: seq<Event>, i: nat, w: nat)
    requires IsRun(states, events) && i < |states|
    requires w in states[i].workers && states[i].workers[w].Done? && !states[i].workers[w].err
    ensures exists mail :: mail in states[i].mails && KeyOf(mail) == KeyOf(states[i].workers[w].mail)
  {
    RunInv(states, events, i);
    assert PhaseOk(states[i], states[i].workers[w]);
    assert MailsOk(states[i], KeyOf(states[i].workers[w].mail));
  }
}
