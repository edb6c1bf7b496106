/** The release poller over the tracked repositories: scans step by step, with a
    crash possible between any two steps and subscriptions changing meanwhile. */
module Poller {
  import opened Base
  import FanOut
  import Subscriptions
  import SubscriptionService

  datatype Repo = Repo(owner: string, name: string, lastSeen: Option<string>)

  /** One row of the scan's result set, as it was when the scan read it. */
  datatype Snapshot = Snapshot(id: nat, repo: Repo)

  /** One call of SendReleaseNotification, for the repository's `change`-th tag. */
  datatype Notice = Notice(repo: nat, change: nat, tag: string, email: string)

  datatype Pc =
    | Idle
    | Scanning(rest: seq<Snapshot>)
    | Persisting(snap: Snapshot, tag: string, rest: seq<Snapshot>)
    | Listing(snap: Snapshot, tag: string, rest: seq<Snapshot>)
    | Sending(snap: Snapshot, tag: string, fan: FanOut.State, rest: seq<Snapshot>)

  type History = map<nat, seq<Option<string>>>

  /** What happened so far, read by nothing in the source: every value that
      last_seen_tag ever had, the notices, the addresses listed for a change, the
      committed changes whose update reported an error, and the changes whose
      fan-out ran to its end. */
  datatype Book = Book(
    history: History,
    notices: multiset<Notice>,
    audience: map<(nat, nat), seq<string>>,
    failed: set<(nat, nat)>,
    complete: set<(nat, nat)>)

  datatype State = State(repos: map<nat, Repo>, subscriptions: Subscriptions.Table, book: Book, pc: Pc)

  datatype Fetched = FetchError | NoRelease | Latest(tag: string)

  datatype Event =
    | StartScan(snaps: seq<Snapshot>)
    | Fetch(answer: Fetched)
    | Persist(out: Outcome)
    | List(ids: seq<nat>, emails: seq<string>)
    | ListFailed
    | Fan(e: FanOut.Event)
    | EndScan
    | Crash
    | Track(id: nat, owner: string, name: string)
    | ChangeSubscriptions(table: Subscriptions.Table)

  /** The whole table in the order of the ids. */
  ghost predicate IsSnapshot(repos: map<nat, Repo>, snaps: seq<Snapshot>) {
    && (forall i :: 0 <= i < |snaps| ==> snaps[i].id in repos && snaps[i].repo == repos[snaps[i].id])
    && (forall i, j :: 0 <= i < j < |snaps| ==> snaps[i].id < snaps[j].id)
    && (forall id :: id in repos ==> exists i :: 0 <= i < |snaps| && snaps[i].id == id)
  }

  /** A scan starts only while none holds the scan lock. EndScan also covers a
      context that is cancelled between two repositories. */
  ghost predicate Enabled(s: State, e: Event) {
    match e
    case StartScan(snaps) => s.pc.Idle? && IsSnapshot(s.repos, snaps)
    case Fetch(_) => s.pc.Scanning? && s.pc.rest != []
    case Persist(_) => s.pc.Persisting?
    case List(ids, emails) => s.pc.Listing? && SubscriptionService.ListsSubscribers(
        s.subscriptions, s.pc.snap.repo.owner, s.pc.snap.repo.name, ids, emails)
    case ListFailed => s.pc.Listing?
    case Fan(e) => s.pc.Sending? && FanOut.Enabled(s.pc.fan, e)
    case EndScan => s.pc.Scanning?
    case Crash => true
    case Track(id, owner, name) =>
      id !in s.repos && forall i :: i in s.repos ==> (s.repos[i].owner, s.repos[i].name) != (owner, name)
    case ChangeSubscriptions(table) => Subscriptions.TableOk(table)
  }

  function Past(history: History, id: nat): seq<Option<string>> {
    if id in history then history[id] else []
  }

  /** The number of changes of the repository so far. */
  function Change(history: History, id: nat): nat {
    if Past(history, id) == [] then 0 else |Past(history, id)| - 1
  }

  function Apply(s: State, e: Event): State
    requires Enabled(s, e)
  {
    match e
    case StartScan(snaps) => s.(pc := Scanning(snaps))
    case Fetch(answer) => s.(pc := AfterFetch(s.pc.rest[0], answer, s.pc.rest[1..]))
    case Persist(out) => ApplyPersist(s, s.pc.snap, s.pc.tag, s.pc.rest, out)
    case List(_, emails) =>
      var c := (s.pc.snap.id, Change(s.book.history, s.pc.snap.id));
      s.(book := s.book.(audience := s.book.audience[c := emails]),
         pc := Sending(s.pc.snap, s.pc.tag, FanOut.Init(emails), s.pc.rest))
    case ListFailed => s.(pc := Scanning(s.pc.rest))
    case Fan(e) => ApplyFan(s, s.pc.snap, s.pc.tag, s.pc.fan, s.pc.rest, e)
    case EndScan => s.(pc := Idle)
    case Crash => s.(pc := Idle)
    case Track(id, owner, name) =>
      s.(repos := s.repos[id := Repo(owner, name, None)],
         book := s.book.(history := s.book.history[id := [None]]))
    case ChangeSubscriptions(table) => s.(subscriptions := table)
  }

  /** The comparison is with the tag the scan read at its start. */
  function AfterFetch(snap: Snapshot, answer: Fetched, rest: seq<Snapshot>): Pc {
    if answer.Latest? && snap.repo.lastSeen != Some(answer.tag)
    then Persisting(snap, answer.tag, rest) else Scanning(rest)
  }

  function Commit(b: Book, id: nat, tag: string): Book {
    b.(history := b.history[id := Past(b.history, id) + [Some(tag)]])
  }

  /** An update that finds no row is an error too. */
  function ApplyPersist(s: State, snap: Snapshot, tag: string, rest: seq<Snapshot>, out: Outcome): State {
    if snap.id !in s.repos || out.ErrNoEffect? then s.(pc := Scanning(rest))
    else
      var repos := s.repos[snap.id := s.repos[snap.id].(lastSeen := Some(tag))];
      var book := Commit(s.book, snap.id, tag);
      if out.Ok? then s.(repos := repos, book := book, pc := Listing(snap, tag, rest))
      else s.(repos := repos, pc := Scanning(rest),
              book := book.(failed := book.failed + {(snap.id, |Past(s.book.history, snap.id)|)}))
  }

  function ApplyFan(s: State, snap: Snapshot, tag: string, fan: FanOut.State, rest: seq<Snapshot>,
                    e: FanOut.Event): State
    requires FanOut.Enabled(fan, e)
  {
    var change := Change(s.book.history, snap.id);
    match e
    case HandOff(_) =>
      s.(book := s.book.(notices := s.book.notices + multiset{Notice(snap.id, change, tag, fan.emails[fan.next])}),
         pc := Sending(snap, tag, FanOut.Apply(fan, e), rest))
    case Return =>
      s.(book := if fan.cancelled then s.book else s.book.(complete := s.book.complete + {(snap.id, change)}),
         pc := Scanning(rest))
    case _ => s.(pc := Sending(snap, tag, FanOut.Apply(fan, e), rest))
  }

  // ---------------------------------------------------------------------------
  // What every step keeps

  ghost predicate Rows(repos: map<nat, Repo>, history: History) {
    && history.Keys == repos.Keys
    && forall id :: id in history ==> GoodHistory(history[id], repos[id].lastSeen)
  }

  /** The last entry is the stored tag, and neighbours differ. */
  ghost predicate GoodHistory(h: seq<Option<string>>, lastSeen: Option<string>) {
    && h != [] && h[|h| - 1] == lastSeen
    && (forall k :: 0 < k < |h| ==> h[k].Some?)
    && (forall k :: 0 < k < |h| ==> h[k - 1] != h[k])
  }

  /** Repositories still to be scanned are distinct and unchanged since the read. */
  ghost predicate Ahead(repos: map<nat, Repo>, rest: seq<Snapshot>) {
    && (forall i :: 0 <= i < |rest| ==> rest[i].id in repos && rest[i].repo == repos[rest[i].id])
    && (forall i, j :: 0 <= i < j < |rest| ==> rest[i].id != rest[j].id)
  }

  ghost predicate NotAhead(id: nat, rest: seq<Snapshot>) {
    forall i :: 0 <= i < |rest| ==> rest[i].id != id
  }

  ghost predicate Plan(repos: map<nat, Repo>, pc: Pc) {
    match pc
    case Idle => true
    case Scanning(rest) => Ahead(repos, rest)
    case Persisting(snap, tag, rest) =>
      && Ahead(repos, rest) && NotAhead(snap.id, rest) && snap.id in repos
      && snap.repo == repos[snap.id] && snap.repo.lastSeen != Some(tag)
    case Listing(snap, tag, rest) => Ahead(repos, rest) && NotAhead(snap.id, rest) && Seen(repos, snap, tag)
    case Sending(snap, tag, _, rest) => Ahead(repos, rest) && NotAhead(snap.id, rest) && Seen(repos, snap, tag)
  }

  ghost predicate Seen(repos: map<nat, Repo>, snap: Snapshot, tag: string) {
    snap.id in repos && SameName(snap.repo, repos[snap.id]) && repos[snap.id].lastSeen == Some(tag)
  }

  predicate SameName(a: Repo, b: Repo) {
    a.owner == b.owner && a.name == b.name
  }

  /** `c` is the k-th committed change of a repository. */
  ghost predicate Committed(history: History, c: (nat, nat)) {
    c.0 in history && 0 < c.1 < |history[c.0]|
  }

  ghost predicate Distinct(emails: seq<string>) {
    forall i, j :: 0 <= i < j < |emails| ==> emails[i] != emails[j]
  }

  ghost predicate Addressed(b: Book, c: (nat, nat)) {
    Committed(b.history, c) && c in b.audience && c !in b.failed && Distinct(b.audience[c])
  }

  /** One notice of a committed change, with its tag, to an address listed for it. */
  ghost predicate Proper(b: Book, n: Notice) {
    && b.notices[n] == 1
    && Committed(b.history, (n.repo, n.change)) && b.history[n.repo][n.change] == Some(n.tag)
    && (n.repo, n.change) in b.audience && n.email in b.audience[(n.repo, n.change)]
  }

  /** Every listed address has got its notice. */
  ghost predicate Covered(b: Book, c: (nat, nat)) {
    && Committed(b.history, c) && b.history[c.0][c.1].Some? && c in b.audience
    && forall email :: email in b.audience[c] ==> Notice(c.0, c.1, b.history[c.0][c.1].value, email) in b.notices
  }

  ghost predicate Kept(b: Book) {
    && (forall c :: c in b.audience ==> Addressed(b, c))
    && (forall c :: c in b.failed ==> Committed(b.history, c))
    && (forall n :: n in b.notices ==> Proper(b, n))
    && (forall c :: c in b.complete ==> Covered(b, c))
  }

  /** The change being announced, and how far its fan-out has come. */
  ghost predicate Current(b: Book, pc: Pc) {
    match pc
    case Listing(snap, tag, _) =>
      && snap.id in b.history && |b.history[snap.id]| > 1
      && (snap.id, Change(b.history, snap.id)) !in b.audience && (snap.id, Change(b.history, snap.id)) !in b.failed
    case Sending(snap, tag, fan, _) =>
      && snap.id in b.history && |b.history[snap.id]| > 1
      && (snap.id, Change(b.history, snap.id)) in b.audience
      && b.audience[(snap.id, Change(b.history, snap.id))] == fan.emails && FanOut.Inv(fan)
      && forall email :: b.notices[Notice(snap.id, Change(b.history, snap.id), tag, email)] == fan.started[email]
    case _ => true
  }

  ghost predicate Inv(s: State) {
    && Rows(s.repos, s.book.history) && Plan(s.repos, s.pc) && Subscriptions.TableOk(s.subscriptions)
    && Kept(s.book) && Current(s.book, s.pc)
  }

  ghost predicate Init(s: State) {
    && s.book == Book(map id | id in s.repos :: [s.repos[id].lastSeen], multiset{}, map[], {}, {})
    && Subscriptions.TableOk(s.subscriptions) && s.pc.Idle?
  }

  lemma InitInv(s: State)
    requires Init(s)
    ensures Inv(s)
  {
  }

  /** A longer history, of one repository or with one more, leaves the record intact. */
  lemma GrownHistoryKeepsBook(b: Book, b': Book)
    requires Kept(b) && b' == b.(history := b'.history) && b.history.Keys <= b'.history.Keys
    requires forall id :: id in b.history ==> b.history[id] <= b'.history[id]
    ensures Kept(b')
  {
    hide FanOut.Inv, Distinct;
    forall c: (nat, nat) | Committed(b.history, c)
      ensures Committed(b'.history, c) && b'.history[c.0][c.1] == b.history[c.0][c.1]
    {
    }
  }

  /** A change that was just committed is in nobody's audience and did not fail. */
  lemma NewChangeIsUntouched(b: Book, id: nat)
    requires Kept(b) && id in b.history
    ensures (id, |b.history[id]|) !in b.audience && (id, |b.history[id]|) !in b.failed
  {
    hide Proper, Covered, Distinct;
  }

  lemma ScanKeepsInv(s: State, e: Event)
    requires Inv(s) && Enabled(s, e) && (e.StartScan? || e.Fetch?)
    ensures Inv(Apply(s, e))
  {
    hide Kept, GoodHistory, Subscriptions.TableOk;
  }

  lemma QuietKeepsInv(s: State, e: Event)
    requires Inv(s) && Enabled(s, e) && (e.ListFailed? || e.EndScan? || e.Crash? || e.ChangeSubscriptions?)
    ensures Inv(Apply(s, e))
  {
    hide Kept, GoodHistory, Subscriptions.TableOk;
  }

  lemma GoodFirst()
    ensures GoodHistory([None], None)
  {
  }

  lemma TrackKeepsInv(s: State, e: Event)
    requires Inv(s) && Enabled(s, e) && e.Track?
    ensures Inv(Apply(s, e))
  {
    hide Kept, GoodHistory, Subscriptions.TableOk, FanOut.Inv;
    GoodFirst();
    GrownHistoryKeepsBook(s.book, Apply(s, e).book);
    match s.pc
    case Idle =>
    case Scanning(_) =>
    case Persisting(_, _, _) =>
    case Listing(_, _, _) =>
    case Sending(_, _, _, _) =>
  }

  lemma PersistKeepsInv(s: State, e: Event)
    requires Inv(s) && Enabled(s, e) && e.Persist?
    ensures Inv(Apply(s, e))
  {
    hide Kept, Subscriptions.TableOk, FanOut.Inv, Rows, GoodHistory, Ahead, NotAhead;
    var id, tag := s.pc.snap.id, s.pc.tag;
    RowsAgree(s.repos, s.book.history, id);
    match e.out
    case ErrNoEffect =>
    case Ok =>
      CommitKeepsAll(s.repos, s.book, id, tag, s.pc.rest);
    case ErrAfterEffect =>
      CommitKeepsAll(s.repos, s.book, id, tag, s.pc.rest);
      FailureKeepsBook(Commit(s.book, id, tag), (id, |s.book.history[id]|));
  }

  lemma RowsAgree(repos: map<nat, Repo>, history: History, id: nat)
    requires Rows(repos, history) && id in repos
    ensures id in history && GoodHistory(history[id], repos[id].lastSeen)
    ensures history[id] != [] && history[id][|history[id]| - 1] == repos[id].lastSeen
  {
  }

  lemma CommitKeepsAll(repos: map<nat, Repo>, b: Book, id: nat, tag: string, rest: seq<Snapshot>)
    requires Rows(repos, b.history) && Kept(b) && id in repos && repos[id].lastSeen != Some(tag)
    requires Ahead(repos, rest) && NotAhead(id, rest)
    ensures id in b.history && b.history[id] != []
    ensures Rows(repos[id := repos[id].(lastSeen := Some(tag))], Commit(b, id, tag).history)
    ensures Ahead(repos[id := repos[id].(lastSeen := Some(tag))], rest)
    ensures Kept(Commit(b, id, tag))
    ensures (id, |b.history[id]|) !in b.audience && (id, |b.history[id]|) !in b.failed
  {
    hide Kept, GoodHistory, Rows;
    RowsAgree(repos, b.history, id);
    CommitKeepsRows(repos, b, id, tag);
    GrownHistoryKeepsBook(b, Commit(b, id, tag));
    NewChangeIsUntouched(b, id);
  }

  lemma CommitKeepsRows(repos: map<nat, Repo>, b: Book, id: nat, tag: string)
    requires Rows(repos, b.history) && id in repos && repos[id].lastSeen != Some(tag)
    ensures Rows(repos[id := repos[id].(lastSeen := Some(tag))], Commit(b, id, tag).history)
  {
  }

  lemma FailureKeepsBook(b: Book, c: (nat, nat))
    requires Kept(b) && Committed(b.history, c) && c !in b.audience
    ensures Kept(b.(failed := b.failed + {c}))
  {
    hide Distinct;
  }

  lemma ListKeepsInv(s: State, e: Event)
    requires Inv(s) && Enabled(s, e) && e.List?
    ensures Inv(Apply(s, e))
  {
    hide Kept, GoodHistory, Subscriptions.TableOk, FanOut.Inv;
    forall i, j | 0 <= i < j < |e.emails| ensures e.emails[i] != e.emails[j] {
      SubscriptionService.SubscribersAreDistinct(s.subscriptions, s.pc.snap.repo.owner, s.pc.snap.repo.name, e.ids,
                                                 e.emails, i, j);
    }
    FanOut.InitInv(e.emails);
    var id := s.pc.snap.id;
    AudienceKeepsBook(s.book, (id, Change(s.book.history, id)), e.emails);
  }

  /** Listing an audience for a change that had none. */
  lemma AudienceKeepsBook(b: Book, c: (nat, nat), emails: seq<string>)
    requires Kept(b) && Committed(b.history, c) && c !in b.failed && c !in b.audience && Distinct(emails)
    ensures Kept(b.(audience := b.audience[c := emails]))
    ensures forall tag, email :: b.notices[Notice(c.0, c.1, tag, email)] == 0
  {
    hide Distinct;
    forall tag, email ensures b.notices[Notice(c.0, c.1, tag, email)] == 0 {
      assert Notice(c.0, c.1, tag, email) in b.notices ==> Proper(b, Notice(c.0, c.1, tag, email));
    }
  }

  /** One more notice of the change that is being announced. */
  lemma NoticeKeepsBook(b: Book, n: Notice)
    requires Kept(b) && n !in b.notices
    requires (n.repo, n.change) in b.audience && n.email in b.audience[(n.repo, n.change)]
    requires Committed(b.history, (n.repo, n.change)) && b.history[n.repo][n.change] == Some(n.tag)
    ensures Kept(b.(notices := b.notices + multiset{n}))
  {
    hide Distinct;
  }

  lemma CompletionKeepsBook(b: Book, c: (nat, nat))
    requires Kept(b) && Covered(b, c)
    ensures Kept(b.(complete := b.complete + {c}))
  {
    hide Distinct;
  }

  lemma NextIsNotInPrefix(emails: seq<string>, k: nat)
    requires Distinct(emails) && k < |emails|
    ensures multiset(emails[..k])[emails[k]] == 0
  {
    assert emails[k] !in emails[..k];
  }

  lemma HandOffKeepsInv(s: State, e: FanOut.Event)
    requires Inv(s) && Enabled(s, Fan(e)) && e.HandOff?
    ensures Inv(Apply(s, Fan(e)))
  {
    hide Kept, GoodHistory, Rows, Ahead, NotAhead, Subscriptions.TableOk, FanOut.Shape, FanOut.Counted, Distinct;
    var fan, id := s.pc.fan, s.pc.snap.id;
    RowsAgree(s.repos, s.book.history, id);
    FanOut.StepKeepsInv(fan, e);
    AudienceIsDistinct(s.book, (id, Change(s.book.history, id)));
    NextIsNotInPrefix(fan.emails, fan.next);
    NoticeKeepsBook(s.book, Notice(id, Change(s.book.history, id), s.pc.tag, fan.emails[fan.next]));
  }

  lemma AudienceIsDistinct(b: Book, c: (nat, nat))
    requires Kept(b) && c in b.audience
    ensures Distinct(b.audience[c])
  {
    hide Distinct, Proper, Covered;
  }

  lemma ReturnKeepsInv(s: State, e: FanOut.Event)
    requires Inv(s) && Enabled(s, Fan(e)) && e.Return?
    ensures Inv(Apply(s, Fan(e)))
  {
    hide Kept, GoodHistory, Rows, Ahead, NotAhead, Subscriptions.TableOk, FanOut.Counted, Distinct;
    var fan, id := s.pc.fan, s.pc.snap.id;
    RowsAgree(s.repos, s.book.history, id);
    if !fan.cancelled {
      assert fan.emails[..fan.next] == fan.emails;
      CompletionKeepsBook(s.book, (id, Change(s.book.history, id)));
    }
  }

  lemma PoolStepKeepsInv(s: State, e: FanOut.Event)
    requires Inv(s) && Enabled(s, Fan(e)) && !e.HandOff? && !e.Return?
    ensures Inv(Apply(s, Fan(e)))
  {
    hide Kept, GoodHistory, Rows, Ahead, NotAhead, Subscriptions.TableOk, FanOut.Inv;
    RowsAgree(s.repos, s.book.history, s.pc.snap.id);
    FanOut.StepKeepsInv(s.pc.fan, e);
  }

  lemma StepKeepsInv(s: State, e: Event)
    requires Inv(s) && Enabled(s, e)
    ensures Inv(Apply(s, e))
  {
    hide Inv, Enabled, Apply;
    match e
    case StartScan(_) => ScanKeepsInv(s, e);
    case Fetch(_) => ScanKeepsInv(s, e);
    case Persist(_) => PersistKeepsInv(s, e);
    case List(_, _) => ListKeepsInv(s, e);
    case ListFailed => QuietKeepsInv(s, e);
    case Fan(f) =>
      match f {
        case HandOff(_) => HandOffKeepsInv(s, f);
        case Return => ReturnKeepsInv(s, f);
        case _ => PoolStepKeepsInv(s, f);
      }
    case EndScan => QuietKeepsInv(s, e);
    case Crash => QuietKeepsInv(s, e);
    case Track(_, _, _) => TrackKeepsInv(s, e);
    case ChangeSubscriptions(_) => QuietKeepsInv(s, e);
  }

  // ---------------------------------------------------------------------------
  // Whole runs

  ghost predicate IsRun(states: seq<State>, events: seq<Event>) {
    && |states| == |events| + 1 && Init(states[0])
    && forall i :: 0 <= i < |events| ==>
         Enabled(states[i], events[i]) && states[i + 1] == Apply(states[i], events[i])
  }

  lemma {:induction false} RunInv(states: seq<State>, events: seq<Event>, i: nat)
    requires IsRun(states, events) && i < |states|
    ensures Inv(states[i])
  {
    hide Inv, Init, Enabled, Apply, Rows, Plan;
    if i == 0 {
      InitInv(states[0]);
    } else {
      RunInv(states, events, i - 1);
      StepKeepsInv(states[i - 1], events[i - 1]);
    }
  }

  /** Per committed change of a repository each address gets at most one notice,
      carrying that change's tag. */
  lemma AtMostOncePerChange(states: seq<State>, events: seq<Event>, i: nat, n: Notice)
    requires IsRun(states, events) && i < |states|
    ensures var b := states[i].book;
            && b.notices[n] <= 1
            && (n in b.notices ==> Committed(b.history, (n.repo, n.change)))
            && (n in b.notices ==> b.history[n.repo][n.change] == Some(n.tag))
            && (n in b.notices ==> (n.repo, n.change) in b.audience && n.email in b.audience[(n.repo, n.change)])
  {
    hide Enabled, Apply, IsRun;
    RunInv(states, events, i);
    assert n in states[i].book.notices ==> Proper(states[i].book, n);
  }

  /** The history ends in the stored tag and neighbouring entries differ. */
  lemma ChangesCarryDifferentTags(states: seq<State>, events: seq<Event>, i: nat, id: nat, k: nat)
    requires IsRun(states, events) && i < |states| && id in states[i].repos
    ensures var h := states[i].book.history;
            && id in h && h[id] != [] && h[id][|h[id]| - 1] == states[i].repos[id].lastSeen
            && (k + 1 < |h[id]| ==> h[id][k] != h[id][k + 1])
  {
    hide Enabled, Apply, IsRun;
    RunInv(states, events, i);
    assert k + 1 < |states[i].book.history[id]| ==>
        states[i].book.history[id][(k + 1) - 1] != states[i].book.history[id][k + 1];
  }

  /** An update that reported an error announces nothing, even if it took effect. */
  lemma FailedPersistIsSilent(states: seq<State>, events: seq<Event>, i: nat, n: Notice)
    requires IsRun(states, events) && i < |states| && (n.repo, n.change) in states[i].book.failed
    ensures n !in states[i].book.notices
  {
    hide Enabled, Apply, IsRun;
    RunInv(states, events, i);
    assert n in states[i].book.notices ==> Proper(states[i].book, n);
  }

  /** A fan-out that ran to its end notified every listed subscriber exactly once. */
  lemma CompleteFanOutReachesAll(states: seq<State>, events: seq<Event>, i: nat, c: (nat, nat), email: string)
    requires IsRun(states, events) && i < |states| && c in states[i].book.complete
    ensures var b := states[i].book;
            && Committed(b.history, c) && b.history[c.0][c.1].Some? && c in b.audience
            && b.notices[Notice(c.0, c.1, b.history[c.0][c.1].value, email)] ==
                (if email in b.audience[c] then 1 else 0)
  {
    hide Enabled, Apply, IsRun;
    RunInv(states, events, i);
    var b := states[i].book;
    assert Covered(b, c);
    AtMostOncePerChange(states, events, i, Notice(c.0, c.1, b.history[c.0][c.1].value, email));
  }

  // ---------------------------------------------------------------------------
  // What is announced, and to whom

  /** A release is recorded and announced exactly if its tag is not the stored one. */
  lemma NewsIsWhatIsNotStored(states: seq<State>, events: seq<Event>, i: nat, answer: Fetched)
    requires IsRun(states, events) && i < |events| && events[i] == Fetch(answer)
    ensures states[i].pc.Scanning? && states[i].pc.rest != []
    ensures var snap := states[i].pc.rest[0];
            && snap.id in states[i].repos
            && (answer.Latest? && states[i].repos[snap.id].lastSeen != Some(answer.tag) ==>
                  states[i + 1].pc == Persisting(snap, answer.tag, states[i].pc.rest[1..]))
            && (!answer.Latest? || states[i].repos[snap.id].lastSeen == Some(answer.tag) ==>
                  states[i + 1].pc == Scanning(states[i].pc.rest[1..]))
  {
    hide Kept, Rows;
    RunInv(states, events, i);
    assert Enabled(states[i], events[i]);
  }

  /** A step leaves the name of a repository and the audience of a change alone. */
  lemma StepKeepsAudience(s: State, e: Event, c: (nat, nat))
    requires Inv(s) && Enabled(s, e)
    ensures var s' := Apply(s, e);
            && (forall id :: id in s.repos ==> id in s'.repos && SameName(s'.repos[id], s.repos[id]))
            && (c in s.book.audience ==> c in s'.book.audience && s'.book.audience[c] == s.book.audience[c])
            && (c in s'.book.audience && c !in s.book.audience ==>
                  && e.List? && s.pc.Listing? && c == (s.pc.snap.id, Change(s.book.history, s.pc.snap.id))
                  && s'.book.audience[c] == e.emails)
  {
    hide Rows, Kept, Subscriptions.TableOk, FanOut.Inv, Ahead, IsSnapshot;
    match e
    case StartScan(_) =>
    case Fetch(_) =>
    case Persist(_) =>
    case List(_, _) =>
    case ListFailed =>
    case Fan(_) =>
    case EndScan =>
    case Crash =>
    case Track(_, _, _) =>
    case ChangeSubscriptions(_) =>
  }

  /** The audience of a change was listed once, for the repository's name. */
  lemma {:induction false} AudienceWasListed(states: seq<State>, events: seq<Event>, i: nat, c: (nat, nat))
    returns (k: nat, repo: Repo)
    requires IsRun(states, events) && i < |states| && c in states[i].book.audience
    ensures k < i && events[k].List? && states[k].pc.Listing? && states[k].pc.snap.repo == repo
    ensures c == (states[k].pc.snap.id, Change(states[k].book.history, states[k].pc.snap.id))
    ensures states[i].book.audience[c] == events[k].emails
    ensures c.0 in states[i].repos && SameName(repo, states[i].repos[c.0])
  {
    hide Inv, Enabled, Apply;
    assert i > 0;
    RunInv(states, events, i - 1);
    StepKeepsAudience(states[i - 1], events[i - 1], c);
    if c in states[i - 1].book.audience {
      k, repo := AudienceWasListed(states, events, i - 1, c);
    } else {
      k, repo := i - 1, states[i - 1].pc.snap.repo;
      ListingIsOfItsRepo(states[i - 1]);
    }
  }

  lemma ListingIsOfItsRepo(s: State)
    requires Inv(s) && s.pc.Listing?
    ensures s.pc.snap.id in s.repos && SameName(s.pc.snap.repo, s.repos[s.pc.snap.id])
  {
    hide Rows, Kept, Ahead, Current, Subscriptions.TableOk;
  }

  /** A notice goes to an address that had a row of the repository with the status
      active when the list for that change was read. */
  lemma NoticeNeedsActiveRow(states: seq<State>, events: seq<Event>, i: nat, n: Notice) returns (k: nat, id: nat)
    requires IsRun(states, events) && i < |states| && n in states[i].book.notices
    ensures k < i && events[k].List? && n.repo in states[i].repos
    ensures var rows := states[k].subscriptions.rows;
            && id in rows && rows[id].email == n.email && rows[id].status == Subscriptions.Active
            && rows[id].owner == states[i].repos[n.repo].owner && rows[id].name == states[i].repos[n.repo].name
  {
    hide Apply;
    AtMostOncePerChange(states, events, i, n);
    var repo;
    k, repo := AudienceWasListed(states, events, i, (n.repo, n.change));
    assert Enabled(states[k], events[k]);
    var t := states[k].subscriptions;
    SubscriptionService.ListedAreActive(t, repo.owner, repo.name, events[k].ids, events[k].emails);
    id :| id in t.rows && t.rows[id].email == n.email && t.rows[id].owner == repo.owner &&
          t.rows[id].name == repo.name && t.rows[id].status == Subscriptions.Active;
  }

  /** After a fan-out that ran to its end every row of the repository that was active
      when the list was read has got its one notice. */
  lemma ActiveRowsAreNotified(states: seq<State>, events: seq<Event>, i: nat, c: (nat, nat)) returns (k: nat)
    requires IsRun(states, events) && i < |states| && c in states[i].book.complete
    ensures k < i && events[k].List? && c.0 in states[i].repos
    ensures Committed(states[i].book.history, c) && states[i].book.history[c.0][c.1].Some?
    ensures var rows, repo := states[k].subscriptions.rows, states[i].repos[c.0];
            forall id :: id in rows && rows[id].owner == repo.owner && rows[id].name == repo.name &&
                         rows[id].status == Subscriptions.Active ==>
              states[i].book.notices[Notice(c.0, c.1, states[i].book.history[c.0][c.1].value, rows[id].email)] == 1
  {
    hide Apply;
    CompleteFanOutReachesAll(states, events, i, c, "");
    var repo;
    k, repo := AudienceWasListed(states, events, i, c);
    assert Enabled(states[k], events[k]);
    var t := states[k].subscriptions;
    SubscriptionService.ListedAreActive(t, repo.owner, repo.name, events[k].ids, events[k].emails);
    hide IsRun;
    forall id | id in t.rows && t.rows[id].owner == repo.owner && t.rows[id].name == repo.name &&
                t.rows[id].status == Subscriptions.Active
      ensures states[i].book.notices[Notice(c.0, c.1, states[i].book.history[c.0][c.1].value, t.rows[id].email)] == 1 {
      CompleteFanOutReachesAll(states, events, i, c, t.rows[id].email);
    }
  }
}
