/** The tracked-repository store and one whole scan as objects. */
module PollerService {
  import opened Base
  import opened Poller
  import FanOut
  import Subscriptions
  import SubscriptionService

  /** What one scan makes of a row, given GitHub's answer and the update's outcome. */
  function Scanned(repo: Repo, answer: Fetched, out: Outcome): Repo {
    if IsNews(repo, answer) && out.TakesEffect() then repo.(lastSeen := Some(answer.tag)) else repo
  }

  predicate IsNews(repo: Repo, answer: Fetched) {
    answer.Latest? && repo.lastSeen != Some(answer.tag)
  }

  datatype Message = Message(repo: nat, tag: string, email: string)

  /** What a scan does to the outside, in order. */
  datatype Effect = Recorded(repo: nat, tag: string) | Sent(message: Message)

  function Count(log: seq<Effect>, m: Message): nat {
    multiset(log)[Sent(m)]
  }

  /** A message goes out only after its repository's tag was recorded. */
  ghost predicate Orderly(log: seq<Effect>) {
    forall k :: 0 <= k < |log| && log[k].Sent? ==> Recorded(log[k].message.repo, log[k].message.tag) in log[..k]
  }

  lemma OneMoreEffect(log: seq<Effect>, e: Effect)
    requires Orderly(log) && (e.Sent? ==> Recorded(e.message.repo, e.message.tag) in log)
    ensures Orderly(log + [e])
    ensures forall m :: Count(log + [e], m) == Count(log, m) + if e == Sent(m) then 1 else 0
  {
    var more := log + [e];
    assert more[..|log|] == log;
    forall k | 0 <= k < |log| && more[k].Sent?
      ensures Recorded(more[k].message.repo, more[k].message.tag) in more[..k]
    {
      assert more[..k] == log[..k];
    }
  }

  /** What GitHub, the update and the subscriber query answer for each repository. */
  datatype World = World(fetch: nat -> Fetched, persist: nat -> Outcome, listErr: nat -> bool)

  /** The scan owes this message: its tag is news for its repository, the news was
      recorded without an error, and its address has an active subscription. */
  ghost predicate Due(repos: map<nat, Repo>, t: Subscriptions.Table, w: World, m: Message) {
    && m.repo in repos && w.fetch(m.repo) == Latest(m.tag) && IsNews(repos[m.repo], w.fetch(m.repo))
    && w.persist(m.repo).Ok? && !w.listErr(m.repo) && Subscribed(t, repos[m.repo], m.email)
  }

  ghost predicate Subscribed(t: Subscriptions.Table, repo: Repo, email: string) {
    exists id :: id in t.rows && SubscriptionService.IsSubscriber(t.rows[id], repo.owner, repo.name) &&
        t.rows[id].email == email
  }

  ghost function Ids(snaps: seq<Snapshot>): set<nat> {
    set i | 0 <= i < |snaps| :: snaps[i].id
  }

  lemma IdsOfOneMore(snaps: seq<Snapshot>, snap: Snapshot)
    ensures Ids(snaps + [snap]) == Ids(snaps) + {snap.id}
  {
    var more := snaps + [snap];
    assert more[|snaps|] == snap;
    forall id | id in Ids(snaps) ensures id in Ids(more) {
      var i :| 0 <= i < |snaps| && snaps[i].id == id;
      assert more[i].id == id;
    }
  }

  ghost predicate Ordered(rows: map<nat, Repo>, snaps: seq<Snapshot>) {
    && (forall i :: 0 <= i < |snaps| ==> snaps[i].id in rows && snaps[i].repo == rows[snaps[i].id])
    && (forall i, j :: 0 <= i < j < |snaps| ==> snaps[i].id < snaps[j].id)
  }

  lemma OrderedIsSnapshot(rows: map<nat, Repo>, snaps: seq<Snapshot>)
    requires Ordered(rows, snaps) && rows.Keys - Ids(snaps) == {}
    ensures IsSnapshot(rows, snaps)
  {
    forall id | id in rows ensures id in Ids(snaps) {
      assert id !in rows.Keys - Ids(snaps);
    }
  }

  class Store {
    var rows: map<nat, Repo>
    var next: nat

    ghost predicate Valid()
      reads this
    {
      && (forall id :: id in rows ==> id < next)
      && (forall i, j :: i in rows && j in rows && i != j ==>
            (rows[i].owner, rows[i].name) != (rows[j].owner, rows[j].name))
    }

    /** A tracked repository keeps its row and its tag. */
    method Upsert(owner: string, name: string, out: Outcome) returns (err: bool)
      requires Valid()
      modifies this
      ensures Valid() && (err <==> !out.Ok?)
      ensures forall id :: id in old(rows) ==> id in rows && rows[id] == old(rows)[id]
      ensures forall id :: id in rows && id !in old(rows) ==> rows[id] == Repo(owner, name, None)
      ensures out.TakesEffect() ==> exists id :: id in rows && rows[id].owner == owner && rows[id].name == name
      ensures !out.TakesEffect() ==> rows == old(rows)
    {
      err := !out.Ok?;
      if out.TakesEffect() {
        if id :| id in rows && rows[id].owner == owner && rows[id].name == name {
          return;
        }
        rows := rows[next := Repo(owner, name, None)];
        next := next + 1;
        assert next - 1 in rows;
      }
    }

    /** The rows in the order of their ids. */
    method GetAll() returns (snaps: seq<Snapshot>)
      ensures IsSnapshot(rows, snaps)
    {
      snaps := [];
      var rest := rows.Keys;
      while rest != {}
        invariant Ordered(rows, snaps) && rest == rows.Keys - Ids(snaps)
        invariant forall i, id :: 0 <= i < |snaps| && id in rest ==> snaps[i].id < id
        decreases rest
      {
        var id := Least(rest);
        IdsOfOneMore(snaps, Snapshot(id, rows[id]));
        snaps := snaps + [Snapshot(id, rows[id])];
        rest := rest - {id};
      }
      OrderedIsSnapshot(rows, snaps);
    }

    method UpdateLastSeen(id: nat, tag: string, out: Outcome) returns (err: bool)
      requires Valid()
      modifies this
      ensures Valid() && next == old(next)
      ensures err <==> !out.Ok? || id !in old(rows)
      ensures rows == if id in old(rows) && out.TakesEffect()
                      then old(rows)[id := old(rows)[id].(lastSeen := Some(tag))] else old(rows)
    {
      err := !out.Ok? || id !in rows;
      if id in rows && out.TakesEffect() {
        rows := rows[id := rows[id].(lastSeen := Some(tag))];
      }
    }
  }

  method Least(ids: set<nat>) returns (least: nat)
    requires ids != {}
    ensures least in ids && forall id :: id in ids ==> least <= id
  {
    least :| least in ids;
    var rest := ids - {least};
    while rest != {}
      invariant rest <= ids && least in ids
      invariant forall id :: id in ids && id !in rest ==> least <= id
      decreases rest
    {
      var id :| id in rest;
      rest := rest - {id};
      if id < least {
        least := id;
      }
    }
  }

  class Scanner {
    const store: Store
    const subs: SubscriptionService.Repo
    /** What the scans did so far. */
    var log: seq<Effect>

    constructor (store: Store, subs: SubscriptionService.Repo)
      ensures this.store == store && this.subs == subs && log == []
    {
      this.store, this.subs, log := store, subs, [];
    }

    /** One message to each active subscriber of the repository, handed out by any
        schedule of the worker pool; a cancelled one reaches only some of them. */
    method NotifySubscribers(snap: Snapshot, tag: string, listErr: bool) returns (cancelled: bool)
      requires subs.Valid() && Orderly(log) && Recorded(snap.id, tag) in log
      modifies this
      ensures Orderly(log) && old(log) <= log
      ensures forall k :: |old(log)| <= k < |log| ==> log[k].Sent?
      ensures SentFor(old(log), log, snap, tag, !listErr, !cancelled, subs.table)
      ensures forall k :: |old(log)| <= k < |log| ==>
                && log[k].message.repo == snap.id && log[k].message.tag == tag
                && exists id :: id in subs.table.rows && subs.table.rows[id].email == log[k].message.email &&
                                subs.table.rows[id].owner == snap.repo.owner &&
                                subs.table.rows[id].name == snap.repo.name &&
                                subs.table.rows[id].status == Subscriptions.Active
      ensures !listErr && !cancelled ==>
                forall id :: id in subs.table.rows && subs.table.rows[id].owner == snap.repo.owner &&
                             subs.table.rows[id].name == snap.repo.name &&
                             subs.table.rows[id].status == Subscriptions.Active ==>
                  var m := Message(snap.id, tag, subs.table.rows[id].email);
                  Count(log, m) == Count(old(log), m) + 1
    {
      cancelled := false;
      if listErr {
        return;
      }
      var emails, ids := subs.GetEmailsByRepo(snap.repo.owner, snap.repo.name);
      forall i, j | 0 <= i < j < |emails| ensures emails[i] != emails[j] {
        SubscriptionService.SubscribersAreDistinct(subs.table, snap.repo.owner, snap.repo.name, ids, emails, i, j);
      }
      ListedIffSubscribed(subs.table, snap.repo, ids, emails);
      cancelled := RunPool(snap, tag, emails);
      NewMessagesCount(old(log), log);
    }

    /** The pool: as long as the call has not returned, some enabled step is taken. */
    method RunPool(snap: Snapshot, tag: string, emails: seq<string>) returns (cancelled: bool)
      requires Orderly(log) && Recorded(snap.id, tag) in log && Distinct(emails)
      modifies this
      ensures Orderly(log) && old(log) <= log
      ensures forall k :: |old(log)| <= k < |log| ==> log[k].Sent?
      ensures exists n: nat :: n <= |emails| && HandedOut(old(log), log, snap.id, tag, emails[..n]) &&
                               (!cancelled ==> n == |emails|)
    {
      hide FanOut.Inv, FanOut.Apply, FanOut.Enabled, FanOut.Measure, FanOut.Init, HandedOut, Orderly, Distinct;
      var fan := FanOut.Init(emails);
      PoolStarts(emails, log, snap.id, tag);
      while !fan.returned
        invariant FanOut.Inv(fan) && fan.emails == emails && fan.next <= |emails| && Orderly(log) && old(log) <= log
        invariant forall k :: |old(log)| <= k < |log| ==> log[k].Sent?
        invariant HandedOut(old(log), log, snap.id, tag, emails[..fan.next])
        decreases FanOut.Measure(fan)
      {
        ghost var next := PoolCanStep(fan);
        var e :| FanOut.Enabled(fan, e);
        PoolSteps(fan, e);
        if e.HandOff? {
          HandOutOne(old(log), log, snap.id, tag, emails, fan.next);
          log := log + [Sent(Message(snap.id, tag, emails[fan.next]))];
        }
        fan := FanOut.Apply(fan, e);
      }
      PoolEnds(fan);
      cancelled := fan.cancelled;
    }

    method ScanRepository(snap: Snapshot, answer: Fetched, out: Outcome, listErr: bool) returns (cancelled: bool)
      requires store.Valid() && subs.Valid() && snap.id in store.rows && snap.repo == store.rows[snap.id]
      requires Orderly(log)
      modifies this, store
      ensures store.Valid() && store.rows == old(store.rows)[snap.id := Scanned(snap.repo, answer, out)]
      ensures Orderly(log) && old(log) <= log
      ensures |log| > |old(log)| <==> IsNews(snap.repo, answer) && out.TakesEffect()
      ensures |log| > |old(log)| ==> log[|old(log)|] == Recorded(snap.id, answer.tag)
      ensures forall k :: |old(log)| < k < |log| ==> log[k].Sent?
      ensures if IsNews(snap.repo, answer)
              then SentFor(old(log), log, snap, answer.tag, out.Ok? && !listErr, !cancelled, subs.table)
              else log == old(log)
    {
      cancelled := false;
      if !answer.Latest? || snap.repo.lastSeen == Some(answer.tag) {
        return;
      }
      var err := store.UpdateLastSeen(snap.id, answer.tag, out);
      if out.TakesEffect() {
        OneMoreEffect(log, Recorded(snap.id, answer.tag));
        log := log + [Recorded(snap.id, answer.tag)];
      }
      if err {
        return;
      }
      cancelled := NotifySubscribers(snap, answer.tag, listErr);
    }

    /** The loop of Scan: every repository in `done` has become what GitHub said, and
        exactly the owed messages went out, each once, except that a cancelled fan-out,
        of repository `partial`, reached only some. */
    method ScanEach(w: World, list: bool, budget: nat)
      returns (complete: bool, ghost done: set<nat>, ghost partial: Option<nat>)
      requires store.Valid() && subs.Valid() && Orderly(log)
      modifies this, store
      ensures store.Valid() && Orderly(log) && old(log) <= log
      ensures store.rows == ScannedUpTo(old(store.rows), w, done) && done <= old(store.rows).Keys
      ensures SentUpTo(old(log), log, old(store.rows), subs.table, w, done, partial)
      ensures complete ==> partial.None? && done == old(store.rows).Keys
      ensures list && budget >= |old(store.rows)| && partial.None? ==> complete
    {
      hide Due, SentUpTo, SentFor, Scanned, ScannedUpTo, Ids, IsSnapshot, Orderly, IsNews, Store.Valid;
      ghost var before := store.rows;
      complete, done, partial := false, {}, None;
      NothingScanned(before, w, log, subs.table);
      if !list {
        return;
      }
      var snaps := store.GetAll();
      SnapshotSize(before, snaps);
      var i, cancelled := 0, false;
      while i < |snaps| && i < budget && !cancelled
        invariant 0 <= i <= |snaps| && store.Valid() && Orderly(log) && old(log) <= log
        invariant done == Ids(snaps[..i]) && done <= before.Keys && (cancelled <==> partial.Some?)
        invariant store.rows == ScannedUpTo(before, w, done)
        invariant SentUpTo(old(log), log, before, subs.table, w, done, partial)
      {
        NotYetScanned(before, w, snaps, i);
        ghost var soFar := log;
        var id := snaps[i].id;
        cancelled := ScanRepository(snaps[i], w.fetch(id), w.persist(id), w.listErr(id));
        partial := if cancelled then Some(id) else None;
        OneMoreScanned(old(log), soFar, log, before, subs.table, w, done, snaps[i], cancelled);
        IdsOfOneMore(snaps[..i], snaps[i]);
        assert snaps[..i + 1] == snaps[..i] + [snaps[i]];
        done := done + {id};
        i := i + 1;
      }
      SnapshotHasAllIds(before, snaps);
      complete := i == |snaps| && !cancelled;
    }

    /** A scan of the repositories in the order of their ids, until the context ends:
        `budget` repositories are begun at most, and a cancelled fan-out is the last. A
        message tells a row of the repository with the status active about a tag that is
        not the stored one, and a scan that is not cut short leaves no such row out. */
    method Scan(w: World, list: bool, budget: nat)
      returns (complete: bool, ghost done: set<nat>, ghost partial: Option<nat>)
      requires store.Valid() && subs.Valid() && Orderly(log)
      modifies this, store
      ensures store.Valid() && Orderly(log) && old(log) <= log
      ensures store.rows == ScannedUpTo(old(store.rows), w, done) && done <= old(store.rows).Keys
      ensures SentUpTo(old(log), log, old(store.rows), subs.table, w, done, partial)
      ensures complete ==> partial.None? && done == old(store.rows).Keys
      ensures list && budget >= |old(store.rows)| && partial.None? ==> complete
      ensures forall k :: |old(log)| <= k < |log| && log[k].Sent? ==>
                var m := log[k].message;
                && m.repo in old(store.rows) && w.fetch(m.repo) == Latest(m.tag) && w.persist(m.repo).Ok?
                && old(store.rows)[m.repo].lastSeen != Some(m.tag)
                && exists id :: id in subs.table.rows && subs.table.rows[id].email == m.email &&
                                subs.table.rows[id].owner == old(store.rows)[m.repo].owner &&
                                subs.table.rows[id].name == old(store.rows)[m.repo].name &&
                                subs.table.rows[id].status == Subscriptions.Active
      ensures complete ==>
                forall r, id :: r in old(store.rows) && id in subs.table.rows &&
                                w.fetch(r).Latest? && old(store.rows)[r].lastSeen != Some(w.fetch(r).tag) &&
                                w.persist(r).Ok? && !w.listErr(r) &&
                                subs.table.rows[id].owner == old(store.rows)[r].owner &&
                                subs.table.rows[id].name == old(store.rows)[r].name &&
                                subs.table.rows[id].status == Subscriptions.Active ==>
                  var m := Message(r, w.fetch(r).tag, subs.table.rows[id].email);
                  Count(log, m) == Count(old(log), m) + 1
      ensures complete ==>
                forall r :: r in old(store.rows) ==>
                  r in store.rows && store.rows[r].lastSeen ==
                    if w.fetch(r).Latest? && w.persist(r).TakesEffect() then Some(w.fetch(r).tag)
                    else old(store.rows)[r].lastSeen
    {
      complete, done, partial := ScanEach(w, list, budget);
      hide SentUpTo, ScannedUpTo, Orderly, Store.Valid, Count;
      NewMessagesCount(old(log), log);
      SentUpToMeans(old(log), log, old(store.rows), subs.table, w, done, partial);
      ScannedMeans(old(store.rows), w, done);
    }
  }

  lemma PoolStarts(emails: seq<string>, log: seq<Effect>, repo: nat, tag: string)
    ensures var fan := FanOut.Init(emails);
            FanOut.Inv(fan) && fan.emails == emails && fan.next == 0 && HandedOut(log, log, repo, tag, emails[..0])
  {
    FanOut.InitInv(emails);
  }

  lemma PoolCanStep(fan: FanOut.State) returns (e: FanOut.Event)
    requires FanOut.Inv(fan) && !fan.returned
    ensures FanOut.Enabled(fan, e)
  {
    e := FanOut.NeverStuck(fan);
  }

  lemma PoolSteps(fan: FanOut.State, e: FanOut.Event)
    requires FanOut.Inv(fan) && FanOut.Enabled(fan, e)
    ensures var next := FanOut.Apply(fan, e);
            && FanOut.Inv(next) && next.emails == fan.emails && next.next <= |fan.emails|
            && next.next == (if e.HandOff? then fan.next + 1 else fan.next)
            && 0 <= FanOut.Measure(next) < FanOut.Measure(fan)
  {
    FanOut.StepKeepsInv(fan, e);
    FanOut.StepsDecreaseMeasure(fan, e);
    hide FanOut.Counted, FanOut.Measure;
  }

  lemma PoolEnds(fan: FanOut.State)
    requires FanOut.Inv(fan) && fan.returned
    ensures !fan.cancelled ==> fan.next == |fan.emails|
  {
    hide FanOut.Counted;
  }

  ghost predicate HandedOut(before: seq<Effect>, after: seq<Effect>, repo: nat, tag: string, emails: seq<string>) {
    forall m :: Count(after, m) ==
      Count(before, m) + if m.repo == repo && m.tag == tag && m.email in emails then 1 else 0
  }

  lemma HandOutOne(before: seq<Effect>, log: seq<Effect>, repo: nat, tag: string, emails: seq<string>, k: nat)
    requires Distinct(emails) && k < |emails| && HandedOut(before, log, repo, tag, emails[..k])
    requires Orderly(log) && before <= log && Recorded(repo, tag) in before
    ensures var more := log + [Sent(Message(repo, tag, emails[k]))];
            Orderly(more) && HandedOut(before, more, repo, tag, emails[..k + 1])
  {
    OneMoreEffect(log, Sent(Message(repo, tag, emails[k])));
    assert emails[k] !in emails[..k];
    assert emails[..k + 1] == emails[..k] + [emails[k]];
  }

  function ScannedUpTo(rows: map<nat, Repo>, w: World, ids: set<nat>): map<nat, Repo> {
    map id | id in rows :: if id in ids then Scanned(rows[id], w.fetch(id), w.persist(id)) else rows[id]
  }

  /** The messages owed to the scanned repositories went out once each, and no other;
      those of a partial one at most once each. */
  ghost predicate SentUpTo(before: seq<Effect>, after: seq<Effect>, rows: map<nat, Repo>, t: Subscriptions.Table,
                           w: World, ids: set<nat>, partial: Option<nat>) {
    forall m: Message ::
      var owed := if m.repo in ids && Due(rows, t, w, m) then 1 else 0;
      && Count(before, m) <= Count(after, m) <= Count(before, m) + owed
      && (partial != Some(m.repo) ==> Count(after, m) == Count(before, m) + owed)
  }

  /** One repository's messages, if its list was read: to all its subscribers, or to some. */
  ghost predicate SentFor(before: seq<Effect>, after: seq<Effect>, snap: Snapshot, tag: string,
                          listed: bool, all: bool, t: Subscriptions.Table) {
    forall m: Message ::
      var owed := if listed && m.repo == snap.id && m.tag == tag && Subscribed(t, snap.repo, m.email) then 1 else 0;
      && Count(before, m) <= Count(after, m) <= Count(before, m) + owed
      && (all ==> Count(after, m) == Count(before, m) + owed)
  }

  lemma NewMessagesCount(before: seq<Effect>, after: seq<Effect>)
    requires before <= after
    ensures forall k :: |before| <= k < |after| && after[k].Sent? ==>
              Count(after, after[k].message) > Count(before, after[k].message)
  {
    var more := after[|before|..];
    assert after == before + more;
    forall k | |before| <= k < |after| && after[k].Sent?
      ensures Count(after, after[k].message) > Count(before, after[k].message) {
      assert more[k - |before|] == after[k];
    }
  }

  /** Messages go to rows of the repository with the status active and to no other, and
      only about a tag that is not the stored one. */
  lemma SentUpToMeans(before: seq<Effect>, after: seq<Effect>, rows: map<nat, Repo>, t: Subscriptions.Table, w: World,
                      ids: set<nat>, partial: Option<nat>)
    requires SentUpTo(before, after, rows, t, w, ids, partial)
    ensures forall m: Message :: Count(after, m) > Count(before, m) ==>
              && m.repo in rows && w.fetch(m.repo) == Latest(m.tag) && w.persist(m.repo).Ok?
              && rows[m.repo].lastSeen != Some(m.tag)
              && exists id :: id in t.rows && t.rows[id].email == m.email && t.rows[id].owner == rows[m.repo].owner &&
                              t.rows[id].name == rows[m.repo].name && t.rows[id].status == Subscriptions.Active
    ensures partial.None? && ids == rows.Keys ==>
              forall r, id :: r in rows && id in t.rows && w.fetch(r).Latest? &&
                              rows[r].lastSeen != Some(w.fetch(r).tag) && w.persist(r).Ok? && !w.listErr(r) &&
                              t.rows[id].owner == rows[r].owner && t.rows[id].name == rows[r].name &&
                              t.rows[id].status == Subscriptions.Active ==>
                var m := Message(r, w.fetch(r).tag, t.rows[id].email);
                Count(after, m) == Count(before, m) + 1
  {
    hide Count;
  }

  lemma ScannedMeans(rows: map<nat, Repo>, w: World, ids: set<nat>)
    ensures forall r :: r in rows && r in ids ==>
              ScannedUpTo(rows, w, ids)[r].lastSeen ==
              if w.fetch(r).Latest? && w.persist(r).TakesEffect() then Some(w.fetch(r).tag) else rows[r].lastSeen
  {
  }

  lemma OneMoreScanned(start: seq<Effect>, before: seq<Effect>, after: seq<Effect>, rows: map<nat, Repo>,
                       t: Subscriptions.Table, w: World, ids: set<nat>, snap: Snapshot, cancelled: bool)
    requires SentUpTo(start, before, rows, t, w, ids, None)
    requires snap.id !in ids && snap.id in rows && snap.repo == rows[snap.id]
    requires var answer := w.fetch(snap.id);
             if IsNews(snap.repo, answer)
             then SentFor(before, after, snap, answer.tag, w.persist(snap.id).Ok? && !w.listErr(snap.id), !cancelled, t)
             else after == before
    ensures SentUpTo(start, after, rows, t, w, ids + {snap.id}, if cancelled then Some(snap.id) else None)
  {
    hide Subscribed, Count;
  }

  lemma NothingScanned(rows: map<nat, Repo>, w: World, log: seq<Effect>, t: Subscriptions.Table)
    ensures ScannedUpTo(rows, w, {}) == rows && SentUpTo(log, log, rows, t, w, {}, None) && Ids([]) == {}
  {
  }

  lemma SnapshotSize(rows: map<nat, Repo>, snaps: seq<Snapshot>)
    requires IsSnapshot(rows, snaps)
    ensures |snaps| == |rows|
  {
    assert Ids(snaps) == rows.Keys;
    IdsAreCounted(snaps);
  }

  lemma {:induction false} IdsAreCounted(snaps: seq<Snapshot>)
    requires forall i, j :: 0 <= i < j < |snaps| ==> snaps[i].id < snaps[j].id
    ensures |Ids(snaps)| == |snaps|
  {
    if snaps != [] {
      var before, last := snaps[..|snaps| - 1], snaps[|snaps| - 1];
      IdsAreCounted(before);
      IdsOfOneMore(before, last);
      assert snaps == before + [last];
      assert last.id !in Ids(before);
    }
  }

  lemma NotYetScanned(rows: map<nat, Repo>, w: World, snaps: seq<Snapshot>, i: nat)
    requires IsSnapshot(rows, snaps) && i < |snaps|
    ensures snaps[i].id !in Ids(snaps[..i]) && snaps[i].id in rows && snaps[i].repo == rows[snaps[i].id]
    ensures var sofar := ScannedUpTo(rows, w, Ids(snaps[..i])); var id := snaps[i].id;
            && id in sofar && sofar[id] == rows[id]
            && sofar[id := Scanned(rows[id], w.fetch(id), w.persist(id))] ==
                ScannedUpTo(rows, w, Ids(snaps[..i]) + {id})
  {
  }

  lemma SnapshotHasAllIds(rows: map<nat, Repo>, snaps: seq<Snapshot>)
    requires IsSnapshot(rows, snaps)
    ensures Ids(snaps[..|snaps|]) == rows.Keys
  {
    assert snaps[..|snaps|] == snaps;
  }

  lemma ListedIffSubscribed(t: Subscriptions.Table, repo: Repo, ids: seq<nat>, emails: seq<string>)
    requires SubscriptionService.ListsSubscribers(t, repo.owner, repo.name, ids, emails)
    ensures forall email :: email in emails <==> Subscribed(t, repo, email)
  {
    forall email ensures email in emails <==> Subscribed(t, repo, email) {
      if email in emails {
        var i :| 0 <= i < |emails| && emails[i] == email;
        assert ids[i] in t.rows;
      }
      if Subscribed(t, repo, email) {
        var id :| id in t.rows && SubscriptionService.IsSubscriber(t.rows[id], repo.owner, repo.name) &&
            t.rows[id].email == email;
        var i :| 0 <= i < |ids| && ids[i] == id;
        assert emails[i] == email;
      }
    }
  }
}
