/** notifySubscribers: a feeder hands addresses over an unbuffered channel to a
    pool of workers, closes it, and waits for them. Any interleaving. */
module FanOut {
  import opened Base

  const NOTIFY_WORKERS: nat := 8

  /** `busy` maps a worker to the address it is sending to. `started` and
      `finished` count the calls of sendOne that were begun and that returned. */
  datatype State = State(
    emails: seq<string>,
    workers: set<nat>,
    next: nat,
    busy: map<nat, string>,
    exited: set<nat>,
    started: multiset<string>,
    finished: multiset<string>,
    closed: bool,
    cancelled: bool,
    returned: bool)

  function PoolSize(emails: seq<string>): nat {
    if |emails| < NOTIFY_WORKERS then |emails| else NOTIFY_WORKERS
  }

  function FirstNats(n: nat): (r: set<nat>)
    ensures |r| == n && forall w: nat :: w in r <==> w < n
  {
    if n == 0 then {} else FirstNats(n - 1) + {n - 1}
  }

  function Init(emails: seq<string>): State {
    State(emails, FirstNats(PoolSize(emails)), 0, map[], {}, multiset{}, multiset{}, false, false, false)
  }

  datatype Event =
    | HandOff(w: nat)
    | FinishSend(w: nat)
    | ObserveCancel
    | CloseJobs
    | Exit(w: nat)
    | Return

  /** With one address or none there is no pool: the sends run in a plain loop that
      does not look at the context, so it is not cancelled. */
  predicate Enabled(s: State, e: Event) {
    match e
    case HandOff(w) => !s.closed && s.next < |s.emails| && w in s.workers && w !in s.busy && w !in s.exited
    case FinishSend(w) => w in s.busy
    case ObserveCancel => !s.closed && s.next < |s.emails| && |s.emails| > 1
    case CloseJobs => !s.closed && s.next == |s.emails|
    case Exit(w) => s.closed && w in s.workers && w !in s.busy && w !in s.exited
    case Return => s.closed && s.exited == s.workers && !s.returned
  }

  function Apply(s: State, e: Event): State
    requires Enabled(s, e)
  {
    match e
    case HandOff(w) => s.(next := s.next + 1, busy := s.busy[w := s.emails[s.next]],
                          started := s.started + multiset{s.emails[s.next]})
    case FinishSend(w) => s.(busy := s.busy - {w}, finished := s.finished + multiset{s.busy[w]})
    case ObserveCancel => s.(closed := true, cancelled := true)
    case CloseJobs => s.(closed := true)
    case Exit(w) => s.(exited := s.exited + {w})
    case Return => s.(returned := true)
  }

  // ---------------------------------------------------------------------------
  // What every step keeps

  function Sending(busy: map<nat, string>, email: string): set<nat> {
    set w | w in busy && busy[w] == email
  }

  /** Every send that was begun has returned or is in the hands of a worker. */
  ghost predicate Counted(s: State, email: string) {
    s.started[email] == s.finished[email] + |Sending(s.busy, email)|
  }

  ghost predicate Shape(s: State) {
    && s.next <= |s.emails|
    && s.busy.Keys <= s.workers && s.exited <= s.workers && s.busy.Keys !! s.exited
    && |s.workers| == PoolSize(s.emails)
    && (s.closed && !s.cancelled ==> s.next == |s.emails|)
    && (s.cancelled ==> s.closed && |s.emails| > 1)
    && (s.exited != {} ==> s.closed)
    && (s.returned ==> s.closed && s.exited == s.workers)
  }

  ghost predicate Inv(s: State) {
    && Shape(s)
    && s.started == multiset(s.emails[..s.next])
    && forall email :: Counted(s, email)
  }

  lemma InitInv(emails: seq<string>)
    ensures Inv(Init(emails))
  {
    var s := Init(emails);
    assert forall email :: Sending(s.busy, email) == {};
  }

  lemma SendingGrows(busy: map<nat, string>, w: nat, address: string, email: string)
    requires w !in busy
    ensures |Sending(busy[w := address], email)| == |Sending(busy, email)| + if address == email then 1 else 0
  {
    assert Sending(busy[w := address], email) ==
           if address == email then Sending(busy, email) + {w} else Sending(busy, email);
  }

  lemma SendingShrinks(busy: map<nat, string>, w: nat, email: string)
    requires w in busy
    ensures |Sending(busy - {w}, email)| == |Sending(busy, email)| - if busy[w] == email then 1 else 0
  {
    assert Sending(busy - {w}, email) == Sending(busy, email) - {w};
  }

  lemma CountedMoves(s: State, e: Event, email: string)
    requires Enabled(s, e) && Counted(s, email)
    ensures Counted(Apply(s, e), email)
  {
    hide Sending;
    match e
    case HandOff(w) => SendingGrows(s.busy, w, s.emails[s.next], email);
    case FinishSend(w) => SendingShrinks(s.busy, w, email);
    case ObserveCancel =>
    case CloseJobs =>
    case Exit(_) =>
    case Return =>
  }

  lemma ShapeKept(s: State, e: Event)
    requires Enabled(s, e) && Shape(s)
    ensures Shape(Apply(s, e))
  {
    match e
    case HandOff(w) =>
    case FinishSend(w) =>
    case ObserveCancel =>
    case CloseJobs =>
    case Exit(_) =>
    case Return =>
  }

  lemma StartedKept(s: State, e: Event)
    requires Enabled(s, e) && s.next <= |s.emails| && s.started == multiset(s.emails[..s.next])
    ensures var s' := Apply(s, e);
            s'.emails == s.emails && s'.next <= |s.emails| && s'.started == multiset(s.emails[..s'.next])
  {
    if e.HandOff? {
      assert s.emails[..s.next + 1] == s.emails[..s.next] + [s.emails[s.next]];
    }
  }

  lemma StepKeepsInv(s: State, e: Event)
    requires Inv(s) && Enabled(s, e)
    ensures Inv(Apply(s, e)) && Apply(s, e).emails == s.emails
  {
    assert s.next <= |s.emails|;
    ShapeKept(s, e);
    StartedKept(s, e);
    hide Apply, Shape, Counted, Enabled;
    var s' := Apply(s, e);
    forall email ensures Counted(s', email) {
      CountedMoves(s, e, email);
    }
  }

  // ---------------------------------------------------------------------------
  // Whole runs

  ghost predicate IsRun(emails: seq<string>, states: seq<State>, events: seq<Event>) {
    && |states| == |events| + 1 && states[0] == Init(emails)
    && forall i :: 0 <= i < |events| ==>
         Enabled(states[i], events[i]) && states[i + 1] == Apply(states[i], events[i])
  }

  lemma {:induction false} RunInv(emails: seq<string>, states: seq<State>, events: seq<Event>, i: nat)
    requires IsRun(emails, states, events) && i < |states|
    ensures Inv(states[i]) && states[i].emails == emails
  {
    hide Enabled, Inv;
    if i == 0 {
      InitInv(emails);
    } else {
      RunInv(emails, states, events, i - 1);
      StepKeepsInv(states[i - 1], events[i - 1]);
    }
  }

  /** At any time the addresses handed to sendOne are, with multiplicity, a prefix
      of the subscriber list, and at most eight sends are in progress. When the call
      returns none is, and unless it was cancelled the prefix is the whole list. */
  lemma FanOutConservesWork(emails: seq<string>, states: seq<State>, events: seq<Event>, i: nat)
    requires IsRun(emails, states, events) && i < |states|
    ensures var s := states[i];
            && s.next <= |emails| && s.started == multiset(emails[..s.next])
            && s.finished <= s.started
            && (s.returned ==> s.busy == map[] && s.finished == s.started)
            && (s.returned && !s.cancelled ==> s.finished == multiset(emails))
            && (s.cancelled ==> |emails| > 1)
            && |s.workers| == (if |emails| < 8 then |emails| else 8) && |s.busy| <= |s.workers|
  {
    hide Enabled, Apply;
    RunInv(emails, states, events, i);
    var s := states[i];
    SubsetSize(s.busy.Keys, s.workers);
    forall email ensures s.finished[email] <= s.started[email] {
      assert Counted(s, email);
    }
    if s.returned {
      assert s.busy.Keys == {};
      forall email ensures s.finished[email] == s.started[email] {
        assert Counted(s, email) && Sending(s.busy, email) == {};
      }
      assert s.finished == s.started;
      assert emails[..|emails|] == emails;
    }
  }

  // ---------------------------------------------------------------------------
  // The call returns: no deadlock, and no run goes on for ever

  function Measure(s: State): int {
    3 * (|s.emails| - s.next) + |s.busy| + (if s.closed then 0 else 1) + (|s.workers| - |s.exited|) +
        (if s.returned then 0 else 1)
  }

  lemma MeasureIsNatural(s: State)
    requires Shape(s)
    ensures 0 <= Measure(s)
  {
    SubsetSize(s.exited, s.workers);
  }

  lemma StepsDecreaseMeasure(s: State, e: Event)
    requires Shape(s) && Enabled(s, e)
    ensures 0 <= Measure(Apply(s, e)) < Measure(s)
  {
    ShapeKept(s, e);
    MeasureIsNatural(Apply(s, e));
    hide Shape;
    match e
    case HandOff(w) => BusyOneMore(s.busy, w, s.emails[s.next]);
    case FinishSend(w) => BusyOneLess(s.busy, w);
    case ObserveCancel =>
    case CloseJobs =>
    case Exit(_) =>
    case Return =>
  }

  lemma BusyOneMore(busy: map<nat, string>, w: nat, address: string)
    requires w !in busy
    ensures |busy[w := address]| == |busy| + 1
  {
  }

  lemma BusyOneLess(busy: map<nat, string>, w: nat)
    requires w in busy
    ensures |busy - {w}| == |busy| - 1
  {
    assert busy.Keys == (busy - {w}).Keys + {w};
  }

  /** Until it has returned, some worker or the feeder can take a step. */
  lemma NeverStuck(s: State) returns (e: Event)
    requires Shape(s) && !s.returned
    ensures Enabled(s, e)
  {
    if w :| w in s.busy {
      return FinishSend(w);
    }
    if s.closed {
      if w :| w in s.workers && w !in s.exited {
        return Exit(w);
      }
      assert s.exited == s.workers;
      return Return;
    }
    if s.next == |s.emails| {
      return CloseJobs;
    }
    assert s.workers != {};
    var w :| w in s.workers;
    return HandOff(w);
  }

  /** No schedule has more steps than the first measure allows. */
  lemma {:induction false} RunsAreBounded(emails: seq<string>, states: seq<State>, events: seq<Event>, i: nat)
    requires IsRun(emails, states, events) && i < |states|
    ensures i + Measure(states[i]) <= Measure(states[0]) && 0 <= Measure(states[i])
  {
    hide Enabled, Measure, Counted;
    if i > 0 {
      RunsAreBounded(emails, states, events, i - 1);
      RunInv(emails, states, events, i - 1);
      StepsDecreaseMeasure(states[i - 1], events[i - 1]);
    } else {
      MeasureOfInit(emails);
    }
  }

  lemma MeasureOfInit(emails: seq<string>)
    ensures 0 <= Measure(Init(emails))
  {
  }
}
