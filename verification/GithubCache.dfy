/** The Redis cache in front of the GitHub client: any number of calls interleaved
    operation by operation, with every Redis operation and every decode fallible. */
module GithubCache {
  import opened Base
  import opened RepositoryRef

  datatype Kind = Existence | Release

  datatype Query = Query(kind: Kind, repo: Ref)

  /** Releases are opaque here; `Latest(None)` is a repository without one. */
  datatype Answer = Exists(yes: bool) | Latest(release: Option<string>) | Failed

  /** What is stored: the text 1, or an encoded release. */
  datatype Value = One | Json(release: string)

  /** One answer of the base client, given to one call. */
  datatype BaseAnswer = BaseAnswer(query: Query, answer: Answer, at: int, caller: nat)

  /** `origin` says whose answer was stored; nothing in the source reads it. */
  datatype Entry = Entry(value: Value, storedAt: int, origin: BaseAnswer)

  const EXISTENCE_PREFIX: string := "github:repo_exists:"
  const RELEASE_PREFIX: string := "github:release:"

  function Prefix(kind: Kind): string {
    if kind == Existence then EXISTENCE_PREFIX else RELEASE_PREFIX
  }

  function Key(q: Query): string {
    Prefix(q.kind) + ToString(q.repo)
  }

  /** Only positive answers are stored. */
  function ToStore(a: Answer): Option<Value> {
    match a
    case Exists(yes) => if yes then Some(One) else None
    case Latest(Some(rel)) => Some(Json(rel))
    case Latest(None) => None
    case Failed => None
  }

  /** What a hit says, if it can be decoded. */
  function FromStore(kind: Kind, v: Value): Option<Answer> {
    match kind
    case Existence => Some(Exists(v == One))
    case Release => if v.Json? then Some(Latest(Some(v.release))) else None
  }

  predicate Fits(kind: Kind, a: Answer) {
    a.Failed? || (kind == Existence <==> a.Exists?)
  }

  /** A time to live of zero means none: the entry stays until it is evicted. */
  predicate Visible(ttl: nat, e: Entry, now: int) {
    ttl > 0 ==> now <= e.storedAt + ttl
  }

  // ---------------------------------------------------------------------------
  // Keys

  /** Distinct queries for valid repositories never share a key. */
  lemma KeysIdentify(a: Query, b: Query)
    requires Valid(a.repo) && Valid(b.repo)
    ensures Key(a) == Key(b) <==> a == b
  {
    assert Key(a)[10] == Prefix(a.kind)[10] && Key(b)[10] == Prefix(b.kind)[10];
    if Key(a) == Key(b) {
      assert EXISTENCE_PREFIX[9] != RELEASE_PREFIX[9];
      assert ToString(a.repo) == Key(a)[|Prefix(a.kind)|..];
      assert ToString(b.repo) == Key(b)[|Prefix(b.kind)|..];
      ToStringIsInjective(a.repo, b.repo);
    }
  }

  /** Without the validity of the names they can. */
  lemma InvalidNamesCanShareAKey() returns (a: Query, b: Query)
    ensures a != b && Key(a) == Key(b)
  {
    a, b := Query(Release, Ref("a/b", "c")), Query(Release, Ref("a", "b/c"));
    assert ToString(a.repo) == "a/b/c" == ToString(b.repo);
  }

  // ---------------------------------------------------------------------------
  // Calls

  datatype Pc =
    | Start
    | Missed
    | Answered(answer: BaseAnswer)
    | FromCache(reply: Answer, entry: Entry, returnedAt: int)
    | FromBase(answer: BaseAnswer)

  datatype Call = Call(query: Query, pc: Pc)

  /** `base` is the log of the base client; nothing in the source reads it. */
  datatype State = State(now: int, redis: map<string, Entry>, calls: map<nat, Call>, base: set<BaseAnswer>)

  datatype Event =
    | Begin(c: nat, query: Query)
    | Hit(c: nat)
    | Miss(c: nat)
    | AskBase(c: nat, answer: Answer)
    | Store(c: nat, out: Outcome)
    | Evict(key: string)
    | Tick(now: int)

  /** Miss covers an absent entry, a failed get and a failed decode. */
  predicate Enabled(ttl: nat, s: State, e: Event) {
    match e
    case Begin(c, query) => c !in s.calls && Valid(query.repo)
    case Hit(c) =>
      && c in s.calls && s.calls[c].pc.Start? && Key(s.calls[c].query) in s.redis
      && Visible(ttl, s.redis[Key(s.calls[c].query)], s.now)
      && FromStore(s.calls[c].query.kind, s.redis[Key(s.calls[c].query)].value).Some?
    case Miss(c) => c in s.calls && s.calls[c].pc.Start?
    case AskBase(c, answer) => c in s.calls && s.calls[c].pc.Missed? && Fits(s.calls[c].query.kind, answer)
    case Store(c, _) => c in s.calls && s.calls[c].pc.Answered?
    case Evict(_) => true
    case Tick(now) => s.now <= now
  }

  function Apply(ttl: nat, s: State, e: Event): State
    requires Enabled(ttl, s, e)
  {
    match e
    case Begin(c, query) => s.(calls := s.calls[c := Call(query, Start)])
    case Hit(c) =>
      var q := s.calls[c].query;
      var entry := s.redis[Key(q)];
      s.(calls := s.calls[c := Call(q, FromCache(FromStore(q.kind, entry.value).value, entry, s.now))])
    case Miss(c) => s.(calls := s.calls[c := s.calls[c].(pc := Missed)])
    case AskBase(c, answer) =>
      s.(calls := s.calls[c := s.calls[c].(pc := Answered(BaseAnswer(s.calls[c].query, answer, s.now, c)))],
         base := s.base + {BaseAnswer(s.calls[c].query, answer, s.now, c)})
    case Store(c, out) =>
      s.(redis := AfterStore(s.redis, s.calls[c].pc.answer, s.now, out),
         calls := s.calls[c := s.calls[c].(pc := FromBase(s.calls[c].pc.answer))])
    case Evict(key) => s.(redis := s.redis - {key})
    case Tick(now) => s.(now := now)
  }

  function AfterStore(redis: map<string, Entry>, b: BaseAnswer, now: int, out: Outcome): map<string, Entry> {
    if ToStore(b.answer).Some? && out.TakesEffect()
    then redis[Key(b.query) := Entry(ToStore(b.answer).value, now, b)] else redis
  }

  // ---------------------------------------------------------------------------
  // What every step keeps

  /** The entry holds an answer that the base client gave for this query. */
  ghost predicate Backed(base: set<BaseAnswer>, q: Query, e: Entry) {
    && e.origin in base && e.origin.query == q
    && ToStore(e.origin.answer) == Some(e.value) && e.origin.at <= e.storedAt
  }

  ghost predicate EntryOk(base: set<BaseAnswer>, key: string, e: Entry) {
    Valid(e.origin.query.repo) && Key(e.origin.query) == key && Backed(base, e.origin.query, e)
  }

  ghost predicate CallOk(ttl: nat, base: set<BaseAnswer>, c: nat, call: Call) {
    && Valid(call.query.repo)
    && match call.pc
       case Start => true
       case Missed => true
       case Answered(b) => b in base && b.query == call.query && b.caller == c
       case FromBase(b) => b in base && b.query == call.query && b.caller == c
       case FromCache(answer, entry, returnedAt) =>
         Backed(base, call.query, entry) && answer == entry.origin.answer && Visible(ttl, entry, returnedAt)
  }

  ghost predicate Inv(ttl: nat, s: State) {
    && (forall key :: key in s.redis ==> EntryOk(s.base, key, s.redis[key]))
    && (forall c :: c in s.calls ==> CallOk(ttl, s.base, c, s.calls[c]))
    && (forall b :: b in s.base ==> b.at <= s.now && Fits(b.query.kind, b.answer))
  }

  ghost predicate Init(s: State) {
    s.redis == map[] && s.calls == map[] && s.base == {}
  }

  /** What was stored comes back as the answer it was made from. */
  lemma StoredComesBack(kind: Kind, a: Answer)
    requires Fits(kind, a) && ToStore(a).Some?
    ensures FromStore(kind, ToStore(a).value) == Some(a)
  {
  }

  lemma HitKeepsInv(ttl: nat, s: State, c: nat)
    requires Inv(ttl, s) && Enabled(ttl, s, Hit(c))
    ensures Inv(ttl, Apply(ttl, s, Hit(c)))
  {
    hide Key, Valid, ToStore, FromStore;
    var q := s.calls[c].query;
    var entry := s.redis[Key(q)];
    assert EntryOk(s.base, Key(q), entry) && CallOk(ttl, s.base, c, s.calls[c]);
    KeysIdentify(q, entry.origin.query);
    StoredComesBack(q.kind, entry.origin.answer);
  }

  lemma OthersKeepInv(ttl: nat, s: State, e: Event)
    requires Inv(ttl, s) && Enabled(ttl, s, e) && !e.Hit?
    ensures Inv(ttl, Apply(ttl, s, e))
  {
    hide Key, Valid, ToStore, FromStore;
    match e
    case Begin(_, _) =>
    case Miss(_) =>
    case AskBase(_, _) =>
    case Store(c, _) => assert CallOk(ttl, s.base, c, s.calls[c]);
    case Evict(_) =>
    case Tick(_) =>
  }

  // ---------------------------------------------------------------------------
  // Whole runs

  ghost predicate IsRun(ttl: nat, states: seq<State>, events: seq<Event>) {
    && |states| == |events| + 1 && Init(states[0])
    && forall i :: 0 <= i < |events| ==>
         Enabled(ttl, states[i], events[i]) && states[i + 1] == Apply(ttl, states[i], events[i])
  }

  lemma {:induction false} RunInv(ttl: nat, states: seq<State>, events: seq<Event>, i: nat)
    requires IsRun(ttl, states, events) && i < |states|
    ensures Inv(ttl, states[i])
  {
    hide Enabled, Apply, CallOk, EntryOk;
    if i > 0 {
      RunInv(ttl, states, events, i - 1);
      var e := events[i - 1];
      if e.Hit? {
        HitKeepsInv(ttl, states[i - 1], e.c);
      } else {
        OthersKeepInv(ttl, states[i - 1], e);
      }
    }
  }

  /** A negative answer or an error is always the base client's answer to this very
      call; any other answer is one the base client gave for the same query, to this
      call or stored at most `ttl` ago. */
  lemma CachedAnswersAreHonest(ttl: nat, states: seq<State>, events: seq<Event>, i: nat, c: nat)
    requires IsRun(ttl, states, events) && i < |states| && c in states[i].calls
    ensures var call := states[i].calls[c];
            match call.pc
            case FromBase(b) => b in states[i].base && b.query == call.query && b.caller == c
            case FromCache(answer, entry, returnedAt) =>
              && answer != Failed && answer != Exists(false) && answer != Latest(None)
              && entry.origin in states[i].base && entry.origin.query == call.query && entry.origin.answer == answer
              && entry.origin.at <= entry.storedAt && (ttl > 0 ==> returnedAt <= entry.storedAt + ttl)
            case _ => true
  {
    hide IsRun, Key, Valid, EntryOk;
    RunInv(ttl, states, events, i);
    assert CallOk(ttl, states[i].base, c, states[i].calls[c]);
  }

  /** Every step but an eviction and a store leaves an entry alone; a store writes under
      its own key. */
  lemma StepKeepsEntry(ttl: nat, s: State, e: Event, key: string)
    requires Enabled(ttl, s, e) && key in s.redis
    requires e != Evict(key) && (e.Store? ==> Key(s.calls[e.c].query) != key)
    requires e.Store? ==> s.calls[e.c].pc.answer.query == s.calls[e.c].query
    ensures key in Apply(ttl, s, e).redis && Apply(ttl, s, e).redis[key] == s.redis[key]
  {
    hide Key, FromStore, ToStore;
  }

  /** The positive answers: an existing repository and a release. */
  predicate IsPositive(a: Answer) {
    a == Exists(true) || (a.Latest? && a.release.Some?)
  }

  ghost predicate LeftAlone(states: seq<State>, events: seq<Event>, i: nat, j: nat, q: Query)
    requires i <= j <= |events| < |states|
  {
    forall k :: i <= k < j ==>
      events[k] != Evict(Key(q)) && !(events[k].Store? && events[k].c in states[k].calls &&
                                      states[k].calls[events[k].c].query == q)
  }

  lemma {:induction false} EntryStays(ttl: nat, states: seq<State>, events: seq<Event>, i: nat, j: nat, q: Query)
    requires IsRun(ttl, states, events) && i <= j < |states| && Valid(q.repo) && Key(q) in states[i].redis
    requires LeftAlone(states, events, i, j, q)
    ensures Key(q) in states[j].redis && states[j].redis[Key(q)] == states[i].redis[Key(q)]
    decreases j
  {
    hide Apply, Key, EntryOk, Valid;
    if i < j {
      EntryStays(ttl, states, events, i, j - 1, q);
      RunInv(ttl, states, events, j - 1);
      StoresUnderItsKey(ttl, states[j - 1], events[j - 1], q);
      StepKeepsEntry(ttl, states[j - 1], events[j - 1], Key(q));
    }
  }

  lemma StoresUnderItsKey(ttl: nat, s: State, e: Event, q: Query)
    requires Inv(ttl, s) && Enabled(ttl, s, e) && Valid(q.repo)
    requires e.Store? ==> s.calls[e.c].query != q
    ensures e.Store? ==> s.calls[e.c].pc.answer.query == s.calls[e.c].query && Key(s.calls[e.c].query) != Key(q)
  {
    hide EntryOk, Key, Valid;
    if e.Store? {
      assert CallOk(ttl, s.base, e.c, s.calls[e.c]);
      KeysIdentify(s.calls[e.c].query, q);
    }
  }

  /** A positive answer that was stored answers the same query, without the base client,
      until it is evicted, overwritten or older than `ttl`; nothing else is stored. */
  lemma PositiveAnswersAreServed(ttl: nat, states: seq<State>, events: seq<Event>, i: nat, j: nat, c: nat, d: nat,
                                 out: Outcome)
    requires IsRun(ttl, states, events) && i < |events| && events[i] == Store(c, out) && i < j < |states|
    ensures c in states[i].calls && states[i].calls[c].pc.Answered?
    ensures var q, a := states[i].calls[c].query, states[i].calls[c].pc.answer.answer;
            if IsPositive(a) && out != ErrNoEffect
            then d in states[j].calls && states[j].calls[d] == Call(q, Start) &&
                 LeftAlone(states, events, i + 1, j, q) && (ttl > 0 ==> states[j].now <= states[i].now + ttl) ==>
                   && Enabled(ttl, states[j], Hit(d))
                   && Apply(ttl, states[j], Hit(d)).calls[d].pc.FromCache?
                   && Apply(ttl, states[j], Hit(d)).calls[d].pc.reply == a
            else states[i + 1].redis == states[i].redis
  {
    RunInv(ttl, states, events, i);
    assert Enabled(ttl, states[i], events[i]) && states[i + 1] == Apply(ttl, states[i], events[i]);
    var s, q := states[i], states[i].calls[c].query;
    assert CallOk(ttl, s.base, c, s.calls[c]);
    var b := s.calls[c].pc.answer;
    assert Fits(q.kind, b.answer);
    hide Key, Valid, EntryOk, LeftAlone, Inv, IsRun;
    if IsPositive(b.answer) && out != ErrNoEffect && LeftAlone(states, events, i + 1, j, q) {
      StoredComesBack(q.kind, b.answer);
      EntryStays(ttl, states, events, i + 1, j, q);
    }
  }

  /** Every answer is stored within `delay` of being given. */
  ghost predicate StoresWithin(delay: nat, states: seq<State>, events: seq<Event>) {
    |states| > |events| && forall i :: 0 <= i < |events| && events[i].Store? ==>
        StoredWithin(delay, states[i], events[i].c)
  }

  ghost predicate StoredWithin(delay: nat, s: State, c: nat) {
    c in s.calls && s.calls[c].pc.Answered? ==> s.now <= s.calls[c].pc.answer.at + delay
  }

  ghost predicate Prompt(delay: nat, s: State) {
    && (forall key :: key in s.redis ==> s.redis[key].storedAt <= s.redis[key].origin.at + delay)
    && (forall c :: c in s.calls && s.calls[c].pc.FromCache? ==>
          s.calls[c].pc.entry.storedAt <= s.calls[c].pc.entry.origin.at + delay)
  }

  lemma {:induction false} RunIsPrompt(ttl: nat, delay: nat, states: seq<State>, events: seq<Event>, i: nat)
    requires IsRun(ttl, states, events) && i < |states| && StoresWithin(delay, states, events)
    ensures Prompt(delay, states[i])
  {
    if i > 0 {
      RunIsPrompt(ttl, delay, states, events, i - 1);
      hide IsRun, Key, Valid, ToStore, FromStore;
      PromptKept(ttl, delay, states[i - 1], events[i - 1]);
    }
  }

  lemma PromptKept(ttl: nat, delay: nat, s: State, e: Event)
    requires Enabled(ttl, s, e) && Prompt(delay, s)
    requires e.Store? ==> s.now <= s.calls[e.c].pc.answer.at + delay
    ensures Prompt(delay, Apply(ttl, s, e))
  {
    hide Key, Valid, ToStore, FromStore;
    match e
    case Begin(_, _) =>
    case Hit(_) =>
    case Miss(_) =>
    case AskBase(_, _) =>
    case Store(c, _) =>
    case Evict(_) =>
    case Tick(_) =>
  }

  /** With a positive time to live a cached answer was given by the base client at
      most `ttl` before, plus the time it took to store it. */
  lemma CachedAnswersAreFresh(ttl: nat, delay: nat, states: seq<State>, events: seq<Event>, i: nat, c: nat)
    requires ttl > 0 && IsRun(ttl, states, events) && StoresWithin(delay, states, events)
    requires i < |states| && c in states[i].calls && states[i].calls[c].pc.FromCache?
    ensures var pc := states[i].calls[c].pc;
            pc.entry.origin in states[i].base && pc.returnedAt <= pc.entry.origin.at + ttl + delay
  {
    hide IsRun, Key, Valid, EntryOk;
    RunInv(ttl, states, events, i);
    assert CallOk(ttl, states[i].base, c, states[i].calls[c]);
    RunIsPrompt(ttl, delay, states, events, i);
  }

  /** Every age within that bound is reached, and without a time to live every age
      at all: "no older than ttl" counts from the moment of storing. */
  lemma AgesAreReached(ttl: nat, delay: nat, age: nat, repo: Ref) returns (states: seq<State>, events: seq<Event>)
    requires Valid(repo) && delay <= age && (ttl > 0 ==> age <= ttl + delay)
    ensures IsRun(ttl, states, events) && StoresWithin(delay, states, events) && |events| == 8
    ensures 1 in states[8].calls && states[8].calls[1].pc.FromCache?
    ensures states[8].calls[1].pc.returnedAt == states[8].calls[1].pc.entry.origin.at + age
  {
    hide Key, Valid, IsRun, StoresWithin;
    var q := Query(Existence, repo);
    var b := BaseAnswer(q, Exists(true), 0, 0);
    var entry := Entry(One, delay, b);
    states, events := AnswerIsStored(ttl, delay, q, b, entry);
    var redis, first := map[Key(q) := entry], Call(q, FromBase(b));
    states, events := Extend(ttl, delay, states, events, Begin(1, q),
                             State(delay, redis, map[0 := first, 1 := Call(q, Start)], {b}));
    states, events := Extend(ttl, delay, states, events, Tick(age),
                             State(age, redis, map[0 := first, 1 := Call(q, Start)], {b}));
    states, events := Extend(ttl, delay, states, events, Hit(1),
                             State(age, redis, map[0 := first, 1 := Call(q, FromCache(Exists(true), entry, age))],
                                   {b}));
  }

  lemma AnswerIsStored(ttl: nat, delay: nat, q: Query, b: BaseAnswer, entry: Entry)
    returns (states: seq<State>, events: seq<Event>)
    requires Valid(q.repo) && b == BaseAnswer(q, Exists(true), 0, 0) && q.kind == Existence &&
             entry == Entry(One, delay, b)
    ensures IsRun(ttl, states, events) && StoresWithin(delay, states, events) && |events| == 5 && |states| == 6
    ensures states[5] == State(delay, map[Key(q) := entry], map[0 := Call(q, FromBase(b))], {b})
  {
    hide Key, Valid, IsRun, StoresWithin;
    states, events := NoEventYet(ttl, delay);
    states, events := Extend(ttl, delay, states, events, Begin(0, q), State(0, map[], map[0 := Call(q, Start)], {}));
    states, events := Extend(ttl, delay, states, events, Miss(0), State(0, map[], map[0 := Call(q, Missed)], {}));
    states, events := Extend(ttl, delay, states, events, AskBase(0, Exists(true)),
                             State(0, map[], map[0 := Call(q, Answered(b))], {b}));
    states, events := Extend(ttl, delay, states, events, Tick(delay),
                             State(delay, map[], map[0 := Call(q, Answered(b))], {b}));
    states, events := Extend(ttl, delay, states, events, Store(0, Ok),
                             State(delay, map[Key(q) := entry], map[0 := Call(q, FromBase(b))], {b}));
  }

  lemma NoEventYet(ttl: nat, delay: nat) returns (states: seq<State>, events: seq<Event>)
    ensures IsRun(ttl, states, events) && StoresWithin(delay, states, events)
    ensures events == [] && states == [State(0, map[], map[], {})]
  {
    states, events := [State(0, map[], map[], {})], [];
  }

  /** One more step of a run. */
  lemma Extend(ttl: nat, delay: nat, states: seq<State>, events: seq<Event>, e: Event, s: State)
    returns (states': seq<State>, events': seq<Event>)
    requires IsRun(ttl, states, events) && StoresWithin(delay, states, events)
    requires |states| == |events| + 1 && Enabled(ttl, states[|events|], e) && s == Apply(ttl, states[|events|], e)
    requires e.Store? ==> StoredWithin(delay, states[|events|], e.c)
    ensures IsRun(ttl, states', events') && StoresWithin(delay, states', events')
    ensures |events'| == |events| + 1 && |states'| == |states| + 1 && states'[|events'|] == s
  {
    hide Enabled, Apply, StoredWithin;
    states', events' := states + [s], events + [e];
  }

  // ---------------------------------------------------------------------------
  // The object

  class CachedClient {
    const ttl: nat
    var redis: map<string, Entry>

    constructor (ttl: nat)
      ensures this.ttl == ttl && redis == map[]
    {
      this.ttl, redis := ttl, map[];
    }

    /** A visible entry answers unless the get fails; otherwise the base client's
        answer `b` is returned, and stored when it is positive. */
    method RepoExists(getFails: bool, now: int, b: BaseAnswer, later: int, out: Outcome)
      returns (a: Answer, asked: bool)
      requires b.query.kind == Existence && Fits(Existence, b.answer)
      modifies this
      ensures asked <==> getFails || Key(b.query) !in old(redis) || !Visible(ttl, old(redis)[Key(b.query)], now)
      ensures asked ==> a == b.answer && redis == AfterStore(old(redis), b, later, out)
      ensures !asked ==> Some(a) == FromStore(Existence, old(redis)[Key(b.query)].value) && redis == old(redis)
    {
      var key := Key(b.query);
      if !getFails && key in redis && Visible(ttl, redis[key], now) {
        return Exists(redis[key].value == One), false;
      }
      a, asked := b.answer, true;
      if a.Failed? {
        return;
      }
      if a.yes && out.TakesEffect() {
        redis := redis[key := Entry(One, later, b)];
      }
    }

    /** As RepoExists, but an entry that cannot be decoded counts as a miss. */
    method GetLatestRelease(getFails: bool, decodeFails: bool, now: int, b: BaseAnswer, encodeFails: bool, later: int,
                            out: Outcome)
      returns (a: Answer, asked: bool)
      requires b.query.kind == Release && Fits(Release, b.answer)
      modifies this
      ensures asked <==>
                || getFails || Key(b.query) !in old(redis) || !Visible(ttl, old(redis)[Key(b.query)], now)
                || decodeFails || FromStore(Release, old(redis)[Key(b.query)].value).None?
      ensures asked ==> a == b.answer &&
                        redis == AfterStore(old(redis), b, later, if encodeFails then ErrNoEffect else out)
      ensures !asked ==> Some(a) == FromStore(Release, old(redis)[Key(b.query)].value) && redis == old(redis)
    {
      var key := Key(b.query);
      if !getFails && key in redis && Visible(ttl, redis[key], now) {
        var decoded := if decodeFails then None else FromStore(Release, redis[key].value);
        if decoded.Some? {
          return decoded.value, false;
        }
      }
      a, asked := b.answer, true;
      if a.Failed? || a.release.None? {
        return;
      }
      if !encodeFails && out.TakesEffect() {
        redis := redis[key := Entry(Json(a.release.value), later, b)];
      }
    }
  }
}
