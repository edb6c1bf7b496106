/** The fixed-window rate limiter: the visitors map, the background cleanup, and a
    specification that knows only which requests were admitted and when.
    Times are nanoseconds on the clock that is read under the lock. */
module RateLimiter {
  import opened Base

  const SECOND: int := 1_000_000_000

  /** Any limit and any window, also the useless ones. */
  datatype Config = Config(limit: int, window: int)

  datatype Visitor = Visitor(count: int, resetAt: int)

  type Visitors = map<string, Visitor>

  datatype Decision = Admit | Reject(resetAt: int)

  datatype Event = Request(ip: string, now: int) | Cleanup(now: int)

  function Decide(cfg: Config, visitors: Visitors, ip: string, now: int): Decision {
    if ip !in visitors || now > visitors[ip].resetAt then Admit
    else if visitors[ip].count >= cfg.limit then Reject(visitors[ip].resetAt)
    else Admit
  }

  function AfterRequest(cfg: Config, visitors: Visitors, ip: string, now: int): Visitors {
    if ip !in visitors || now > visitors[ip].resetAt then visitors[ip := Visitor(1, now + cfg.window)]
    else if visitors[ip].count >= cfg.limit then visitors
    else visitors[ip := visitors[ip].(count := visitors[ip].count + 1)]
  }

  function AfterCleanup(visitors: Visitors, now: int): Visitors {
    map ip | ip in visitors && now <= visitors[ip].resetAt :: visitors[ip]
  }

  function Step(cfg: Config, visitors: Visitors, e: Event): Visitors {
    match e
    case Request(ip, now) => AfterRequest(cfg, visitors, ip, now)
    case Cleanup(now) => AfterCleanup(visitors, now)
  }

  function After(cfg: Config, events: seq<Event>): Visitors {
    if events == [] then map[] else Step(cfg, After(cfg, events[..|events| - 1]), events[|events| - 1])
  }

  /** The times at which the limiter admitted this address, oldest first. */
  function Admitted(cfg: Config, events: seq<Event>, ip: string): seq<int> {
    if events == [] then []
    else
      var before, e := events[..|events| - 1], events[|events| - 1];
      if e.Request? && e.ip == ip && Decide(cfg, After(cfg, before), ip, e.now).Admit?
      then Admitted(cfg, before, ip) + [e.now]
      else Admitted(cfg, before, ip)
  }

  ghost predicate ClockRuns(events: seq<Event>) {
    forall i, j :: 0 <= i < j < |events| ==> events[i].now <= events[j].now
  }

  // ---------------------------------------------------------------------------
  // The specification: a function of past admissions only

  /** Which admission opened the newest window: the last one that the window before
      it did not cover. */
  function Opener(cfg: Config, times: seq<int>): (k: nat)
    requires times != []
    ensures k < |times|
  {
    var last := |times| - 1;
    if last == 0 then 0
    else
      var k := Opener(cfg, times[..last]);
      if times[last] > times[k] + cfg.window then last else k
  }

  function WindowEnd(cfg: Config, times: seq<int>): int
    requires times != []
  {
    times[Opener(cfg, times)] + cfg.window
  }

  function InWindow(cfg: Config, times: seq<int>): nat
    requires times != []
  {
    |times| - Opener(cfg, times)
  }

  /** At most `limit` admissions in a window, except that its opener is free. */
  function Verdict(cfg: Config, times: seq<int>, now: int): Decision {
    if times == [] || now > WindowEnd(cfg, times) then Admit
    else if InWindow(cfg, times) >= cfg.limit then Reject(WindowEnd(cfg, times))
    else Admit
  }

  /** The verdicts applied to the requests alone; cleanups are not looked at. */
  function Granted(cfg: Config, events: seq<Event>, ip: string): seq<int> {
    if events == [] then []
    else
      var before, e := Granted(cfg, events[..|events| - 1], ip), events[|events| - 1];
      if e.Request? && e.ip == ip && Verdict(cfg, before, e.now).Admit? then before + [e.now] else before
  }

  // ---------------------------------------------------------------------------
  // The map agrees with the log

  /** A missing entry is one that was never there or whose window is over. */
  ghost predicate Agrees(cfg: Config, visitors: Visitors, ip: string, times: seq<int>, now: int) {
    if ip in visitors
    then times != [] && visitors[ip] == Visitor(InWindow(cfg, times), WindowEnd(cfg, times))
    else times == [] || now > WindowEnd(cfg, times)
  }

  lemma AgreementDecides(cfg: Config, visitors: Visitors, ip: string, times: seq<int>, now: int)
    requires Agrees(cfg, visitors, ip, times, now)
    ensures Decide(cfg, visitors, ip, now) == Verdict(cfg, times, now)
  {
  }

  lemma OneMore(cfg: Config, times: seq<int>, now: int)
    ensures var more := times + [now];
            && (times == [] || now > WindowEnd(cfg, times) ==> Opener(cfg, more) == |times|)
            && (times != [] && now <= WindowEnd(cfg, times) ==> Opener(cfg, more) == Opener(cfg, times))
  {
    assert (times + [now])[..|times|] == times;
  }

  lemma StepKeepsAgreement(cfg: Config, visitors: Visitors, ip: string, times: seq<int>, now: int, e: Event)
    requires Agrees(cfg, visitors, ip, times, now) && now <= e.now
    ensures var admits := e.Request? && e.ip == ip && Verdict(cfg, times, e.now).Admit?;
            var more := if admits then times + [e.now] else times;
            Agrees(cfg, Step(cfg, visitors, e), ip, more, e.now)
  {
    hide Opener;
    OneMore(cfg, times, e.now);
  }

  lemma {:induction false} RunAgrees(cfg: Config, events: seq<Event>, ip: string, now: int)
    requires ClockRuns(events) && forall i :: 0 <= i < |events| ==> events[i].now <= now
    ensures Admitted(cfg, events, ip) == Granted(cfg, events, ip)
    ensures Agrees(cfg, After(cfg, events), ip, Granted(cfg, events, ip), now)
  {
    hide Agrees, Verdict, Decide, Step;
    if events == [] {
      EmptyAgrees(cfg, ip, now);
    } else {
      var before, e := events[..|events| - 1], events[|events| - 1];
      RunAgrees(cfg, before, ip, e.now);
      AgreementDecides(cfg, After(cfg, before), ip, Granted(cfg, before, ip), e.now);
      StepKeepsAgreement(cfg, After(cfg, before), ip, Granted(cfg, before, ip), e.now, e);
      LaterAgrees(cfg, After(cfg, events), ip, Granted(cfg, events, ip), e.now, now);
    }
  }

  lemma EmptyAgrees(cfg: Config, ip: string, now: int)
    ensures Agrees(cfg, map[], ip, [], now)
  {
  }

  lemma LaterAgrees(cfg: Config, visitors: Visitors, ip: string, times: seq<int>, now: int, later: int)
    requires Agrees(cfg, visitors, ip, times, now) && now <= later
    ensures Agrees(cfg, visitors, ip, times, later)
  {
  }

  /** Every decision, with cleanups at arbitrary moments, is the one the log of past
      admissions gives, and so are the admissions themselves. */
  lemma DecisionsFollowTheLog(cfg: Config, events: seq<Event>, ip: string, now: int)
    requires ClockRuns(events + [Request(ip, now)])
    ensures Decide(cfg, After(cfg, events), ip, now) == Verdict(cfg, Granted(cfg, events, ip), now)
    ensures Admitted(cfg, events, ip) == Granted(cfg, events, ip)
  {
    ClockOfPrefix(events, ip, now);
    RunAgrees(cfg, events, ip, now);
    AgreementDecides(cfg, After(cfg, events), ip, Granted(cfg, events, ip), now);
  }

  lemma ClockOfPrefix(events: seq<Event>, ip: string, now: int)
    requires ClockRuns(events + [Request(ip, now)])
    ensures ClockRuns(events) && forall i :: 0 <= i < |events| ==> events[i].now <= now
  {
    var all := events + [Request(ip, now)];
    assert all[|events|].now == now;
    assert forall i :: 0 <= i < |events| ==> all[i] == events[i];
  }

  // ---------------------------------------------------------------------------
  // Cleanup is unobservable

  function WithoutCleanups(events: seq<Event>): seq<Event> {
    if events == [] then []
    else
      var before, e := WithoutCleanups(events[..|events| - 1]), events[|events| - 1];
      if e.Cleanup? then before else before + [e]
  }

  lemma {:induction false} GrantedIgnoresCleanups(cfg: Config, events: seq<Event>, ip: string)
    ensures Granted(cfg, WithoutCleanups(events), ip) == Granted(cfg, events, ip)
  {
    if events != [] {
      var e, before := events[|events| - 1], WithoutCleanups(events[..|events| - 1]);
      GrantedIgnoresCleanups(cfg, events[..|events| - 1], ip);
      assert (before + [e])[..|before|] == before;
    }
  }

  lemma {:induction false} WithoutCleanupsKeepsClock(events: seq<Event>, now: int)
    requires ClockRuns(events) && forall i :: 0 <= i < |events| ==> events[i].now <= now
    ensures ClockRuns(WithoutCleanups(events))
    ensures forall i :: 0 <= i < |WithoutCleanups(events)| ==> WithoutCleanups(events)[i].now <= now
  {
    if events != [] {
      WithoutCleanupsKeepsClock(events[..|events| - 1], events[|events| - 1].now);
    }
  }

  /** The limiter that never cleans up answers every request the same way, down to
      the end of the window it reports. */
  lemma CleanupIsUnobservable(cfg: Config, events: seq<Event>, ip: string, now: int)
    requires ClockRuns(events + [Request(ip, now)])
    ensures Decide(cfg, After(cfg, events), ip, now) == Decide(cfg, After(cfg, WithoutCleanups(events)), ip, now)
    ensures Admitted(cfg, events, ip) == Admitted(cfg, WithoutCleanups(events), ip)
  {
    ClockOfPrefix(events, ip, now);
    DecisionsFollowTheLog(cfg, events, ip, now);
    GrantedIgnoresCleanups(cfg, events, ip);
    WithoutCleanupsKeepsClock(events, now);
    RunAgrees(cfg, WithoutCleanups(events), ip, now);
    AgreementDecides(cfg, After(cfg, WithoutCleanups(events)), ip, Granted(cfg, events, ip), now);
  }

  // ---------------------------------------------------------------------------
  // The bound

  function Effective(cfg: Config): nat {
    if cfg.limit < 1 then 1 else cfg.limit
  }

  lemma EffectiveIsPositive(cfg: Config)
    ensures Effective(cfg) >= 1
  {
  }

  function CountFrom(times: seq<int>, from: int): nat {
    if times == [] then 0
    else CountFrom(times[..|times| - 1], from) + if times[|times| - 1] >= from then 1 else 0
  }

  /** Admissions between the two times, both included. */
  function CountIn(times: seq<int>, from: int, to: int): nat {
    if times == [] then 0
    else CountIn(times[..|times| - 1], from, to) + if from <= times[|times| - 1] <= to then 1 else 0
  }

  ghost predicate Ascending(times: seq<int>) {
    forall i, j :: 0 <= i < j < |times| ==> times[i] <= times[j]
  }

  /** A list of admissions the verdicts produce: each one was granted on those before. */
  ghost predicate Lawful(cfg: Config, times: seq<int>) {
    Ascending(times) && forall i :: 0 <= i < |times| ==> Verdict(cfg, times[..i], times[i]).Admit?
  }

  lemma LawfulPrefix(cfg: Config, times: seq<int>)
    requires Lawful(cfg, times) && times != []
    ensures Lawful(cfg, times[..|times| - 1])
    ensures Verdict(cfg, times[..|times| - 1], times[|times| - 1]).Admit?
  {
    hide Verdict;
    var before := times[..|times| - 1];
    forall i | 0 <= i < |before| ensures Verdict(cfg, before[..i], before[i]).Admit? {
      assert before[..i] == times[..i];
    }
  }

  lemma LawfulOneMore(cfg: Config, times: seq<int>, now: int)
    requires Lawful(cfg, times) && Verdict(cfg, times, now).Admit? && (times == [] || times[|times| - 1] <= now)
    ensures Lawful(cfg, times + [now])
  {
    hide Verdict;
    var more := times + [now];
    forall i | 0 <= i < |more| ensures Verdict(cfg, more[..i], more[i]).Admit? {
      assert more[..i] == times[..i];
      assert times[..|times|] == times;
    }
  }

  lemma {:induction false} GrantsAreLawful(cfg: Config, events: seq<Event>, ip: string, now: int)
    requires ClockRuns(events) && forall i :: 0 <= i < |events| ==> events[i].now <= now
    ensures Lawful(cfg, Granted(cfg, events, ip))
    ensures var times := Granted(cfg, events, ip); times == [] || times[|times| - 1] <= now
  {
    hide Verdict, Lawful;
    if events == [] {
      assert Lawful(cfg, []) by { EmptyIsLawful(cfg); }
    } else {
      var before, e := events[..|events| - 1], events[|events| - 1];
      GrantsAreLawful(cfg, before, ip, e.now);
      if Verdict(cfg, Granted(cfg, before, ip), e.now).Admit? {
        LawfulOneMore(cfg, Granted(cfg, before, ip), e.now);
      }
    }
  }

  lemma EmptyIsLawful(cfg: Config)
    ensures Lawful(cfg, [])
  {
  }

  /** No window holds more than its share. */
  lemma {:induction false} WindowIsBounded(cfg: Config, times: seq<int>)
    requires Lawful(cfg, times) && times != []
    ensures InWindow(cfg, times) <= Effective(cfg)
  {
    if |times| > 1 {
      LawfulPrefix(cfg, times);
      WindowIsBounded(cfg, times[..|times| - 1]);
    }
  }

  /** Everything later than the k-th admission comes after it in the list. */
  lemma {:induction false} LaterThan(times: seq<int>, k: nat, from: int)
    requires Ascending(times) && k < |times| && times[k] < from
    ensures CountFrom(times, from) <= |times| - k - 1
  {
    if k < |times| - 1 {
      LaterThan(times[..|times| - 1], k, from);
    } else {
      NothingAtOrAfter(times, from);
    }
  }

  lemma {:induction false} NothingAtOrAfter(times: seq<int>, from: int)
    requires forall k :: 0 <= k < |times| ==> times[k] < from
    ensures CountFrom(times, from) == 0
  {
    if times != [] {
      NothingAtOrAfter(times[..|times| - 1], from);
    }
  }

  /** Looking back at most one window length before the newest opener reaches into
      one older window at most, and not to its opener. */
  lemma {:induction false} OneOlderWindow(cfg: Config, times: seq<int>, from: int)
    requires Lawful(cfg, times) && times != [] && from + cfg.window >= times[Opener(cfg, times)]
    ensures CountFrom(times, from) <= Effective(cfg) - 1 + InWindow(cfg, times)
  {
    if |times| > 1 {
      var before := times[..|times| - 1];
      LawfulPrefix(cfg, times);
      if Opener(cfg, times) == |times| - 1 {
        LaterThan(before, Opener(cfg, before), from);
        WindowIsBounded(cfg, before);
      } else {
        OneOlderWindow(cfg, before, from);
      }
    }
  }

  lemma {:induction false} LawfulIsBounded(cfg: Config, times: seq<int>, from: int)
    requires Lawful(cfg, times)
    ensures CountIn(times, from, from + cfg.window) <= 2 * Effective(cfg) - 1
  {
    hide Verdict, Opener, CountFrom, Effective, InWindow;
    assert Effective(cfg) >= 1 by { EffectiveIsPositive(cfg); }
    if times != [] {
      LawfulPrefix(cfg, times);
      if times[|times| - 1] > from + cfg.window {
        LawfulIsBounded(cfg, times[..|times| - 1], from);
      } else {
        CountInUpTo(times, from, from + cfg.window);
        OpenerIsBeforeLast(cfg, times);
        OneOlderWindow(cfg, times, from);
        WindowIsBounded(cfg, times);
      }
    }
  }

  lemma OpenerIsBeforeLast(cfg: Config, times: seq<int>)
    requires Ascending(times) && times != []
    ensures times[Opener(cfg, times)] <= times[|times| - 1]
  {
    assert Opener(cfg, times) < |times|;
  }

  lemma {:induction false} CountInUpTo(times: seq<int>, from: int, to: int)
    requires forall k :: 0 <= k < |times| ==> times[k] <= to
    ensures CountIn(times, from, to) == CountFrom(times, from)
  {
    if times != [] {
      CountInUpTo(times[..|times| - 1], from, to);
    }
  }

  /** Over any history, with cleanups anywhere, one address is admitted fewer than
      2 * max(limit, 1) times in any closed interval of one window length. */
  lemma AdmissionsAreBounded(cfg: Config, events: seq<Event>, ip: string, from: int)
    requires ClockRuns(events)
    ensures CountIn(Admitted(cfg, events, ip), from, from + cfg.window) <= 2 * Effective(cfg) - 1
  {
    var now := if events == [] then 0 else events[|events| - 1].now;
    RunAgrees(cfg, events, ip, now);
    GrantsAreLawful(cfg, events, ip, now);
    LawfulIsBounded(cfg, Granted(cfg, events, ip), from);
  }

  /** The bound is met: for every useful limit and window some history reaches it. */
  lemma BoundIsReached(cfg: Config, ip: string) returns (events: seq<Event>, from: int)
    requires cfg.limit >= 1 && cfg.window >= 1
    ensures ClockRuns(events)
    ensures CountIn(Admitted(cfg, events, ip), from, from + cfg.window) == 2 * cfg.limit - 1
  {
    hide Lawful, ClockRuns, CountIn, Admitted;
    var w, n := cfg.window, cfg.limit - 1;
    FirstIsLawful(cfg);
    BurstIsLawful(cfg, [0], w, n);
    var early := [0] + Repeat(w, n);
    OpenerOfBurst(cfg, early, w + 1);
    LawfulOneMore(cfg, early, w + 1);
    BurstIsLawful(cfg, early + [w + 1], w + 1, n);
    var times := early + [w + 1] + Repeat(w + 1, n);
    RequestsAreGranted(cfg, ip, times);
    BurstsCount(w, n);
    events, from := Requests(ip, times), w;
  }

  lemma FirstIsLawful(cfg: Config)
    ensures Lawful(cfg, [0]) && Opener(cfg, [0]) == 0
  {
    EmptyIsLawful(cfg);
    LawfulOneMore(cfg, [], 0);
    assert [] + [0] == [0];
  }

  lemma BurstsCount(w: int, n: nat)
    requires w >= 1
    ensures CountIn([0] + Repeat(w, n) + [w + 1] + Repeat(w + 1, n), w, w + w) == 2 * n + 1
  {
    CountOfBurst([0], w, n, w, w + w);
    var early := [0] + Repeat(w, n);
    assert (early + [w + 1])[..|early|] == early;
    CountOfBurst(early + [w + 1], w + 1, n, w, w + w);
  }

  function Repeat(t: int, n: nat): (r: seq<int>)
    ensures |r| == n && forall i :: 0 <= i < n ==> r[i] == t
  {
    if n == 0 then [] else Repeat(t, n - 1) + [t]
  }

  /** A window that has room takes a burst of that size at its end. */
  lemma {:induction false} BurstIsLawful(cfg: Config, times: seq<int>, t: int, n: nat)
    requires Lawful(cfg, times) && times != [] && times[|times| - 1] <= t <= WindowEnd(cfg, times)
    requires InWindow(cfg, times) + n <= cfg.limit
    ensures var all := times + Repeat(t, n);
            Lawful(cfg, all) && Opener(cfg, all) == Opener(cfg, times)
  {
    hide Lawful;
    if n == 0 {
      assert times + [] == times;
    } else {
      var before := times + Repeat(t, n - 1);
      BurstIsLawful(cfg, times, t, n - 1);
      LawfulOneMore(cfg, before, t);
      OneMore(cfg, before, t);
      assert times + Repeat(t, n) == before + [t];
    }
  }

  lemma OpenerOfBurst(cfg: Config, times: seq<int>, t: int)
    requires times != [] && t > WindowEnd(cfg, times)
    ensures Verdict(cfg, times, t).Admit? && Opener(cfg, times + [t]) == |times|
  {
    OneMore(cfg, times, t);
  }

  lemma {:induction false} CountOfBurst(times: seq<int>, t: int, n: nat, from: int, to: int)
    requires from <= t <= to
    ensures CountIn(times + Repeat(t, n), from, to) == CountIn(times, from, to) + n
  {
    if n == 0 {
      assert times + [] == times;
    } else {
      CountOfBurst(times, t, n - 1, from, to);
      var before := times + Repeat(t, n - 1);
      assert times + Repeat(t, n) == before + [t];
      assert (before + [t])[..|before|] == before;
    }
  }

  function Requests(ip: string, times: seq<int>): (r: seq<Event>)
    ensures |r| == |times| && forall i :: 0 <= i < |r| ==> r[i] == Request(ip, times[i])
  {
    if times == [] then [] else Requests(ip, times[..|times| - 1]) + [Request(ip, times[|times| - 1])]
  }

  /** Requests made exactly at the times of a lawful list are all admitted. */
  lemma {:induction false} RequestsAreGranted(cfg: Config, ip: string, times: seq<int>)
    requires Lawful(cfg, times)
    ensures ClockRuns(Requests(ip, times)) && Admitted(cfg, Requests(ip, times), ip) == times
  {
    hide Verdict, After, Decide, Granted, Lawful, Requests, Admitted, ClockRuns;
    if times == [] {
      NothingRequested(cfg, ip);
    } else {
      var before, now := times[..|times| - 1], times[|times| - 1];
      LawfulPrefix(cfg, times);
      RequestsAreGranted(cfg, ip, before);
      RequestsOneMore(ip, before, now, times);
      LawfulAscends(cfg, times);
      RequestsKeepClock(ip, times);
      assert times == before + [now];
      DecisionsFollowTheLog(cfg, Requests(ip, before), ip, now);
      AdmittedOneMore(cfg, Requests(ip, before), ip, now);
    }
  }

  lemma NothingRequested(cfg: Config, ip: string)
    ensures ClockRuns(Requests(ip, [])) && Admitted(cfg, Requests(ip, []), ip) == []
  {
  }

  lemma LawfulAscends(cfg: Config, times: seq<int>)
    requires Lawful(cfg, times)
    ensures Ascending(times)
  {
  }

  lemma RequestsKeepClock(ip: string, times: seq<int>)
    requires Ascending(times)
    ensures ClockRuns(Requests(ip, times))
  {
  }

  lemma RequestsOneMore(ip: string, before: seq<int>, now: int, times: seq<int>)
    requires times == before + [now]
    ensures Requests(ip, times) == Requests(ip, before) + [Request(ip, now)]
  {
  }

  lemma AdmittedOneMore(cfg: Config, events: seq<Event>, ip: string, now: int)
    ensures Admitted(cfg, events + [Request(ip, now)], ip) ==
            Admitted(cfg, events, ip) + if Decide(cfg, After(cfg, events), ip, now).Admit? then [now] else []
  {
    hide Decide, After;
    assert (events + [Request(ip, now)])[..|events|] == events;
  }

  // ---------------------------------------------------------------------------
  // Retry-After

  /** Go's conversion of a duration's seconds to int drops the fraction. */
  function TruncatedSeconds(d: int): int {
    if d >= 0 then d / SECOND else -((-d) / SECOND)
  }

  /** The clock is read again when the header is made. */
  function RetryAfter(resetAt: int, now: int): int {
    TruncatedSeconds(resetAt - now) + 1
  }

  lemma RetryAfterReachesTheEnd(resetAt: int, now: int)
    ensures now + RetryAfter(resetAt, now) * SECOND > resetAt
  {
  }

  /** It is the least number of whole seconds after which the window is over. */
  lemma RetryAfterIsLeast(resetAt: int, now: int)
    requires now <= resetAt
    ensures var r := RetryAfter(resetAt, now); (r - 1) * SECOND <= resetAt - now < r * SECOND
  {
  }

  /** The window of an address that stays silent moves no further. */
  lemma {:induction false} SilentAddress(cfg: Config, before: seq<Event>, events: seq<Event>, ip: string)
    requires forall i :: 0 <= i < |events| ==> !(events[i].Request? && events[i].ip == ip)
    ensures Granted(cfg, before + events, ip) == Granted(cfg, before, ip)
  {
    if events == [] {
      assert before + events == before;
    } else {
      var all := before + events;
      assert all[..|all| - 1] == before + events[..|events| - 1];
      SilentAddress(cfg, before, events[..|events| - 1], ip);
    }
  }

  /** A client rejected at `now`, told to retry at `told`, is admitted if nobody
      used its address meanwhile and it waited as long as it was told. */
  lemma RetryAfterSuffices(cfg: Config, before: seq<Event>, ip: string, now: int, told: int, meanwhile: seq<Event>,
                           again: int)
    requires ClockRuns(before + [Request(ip, now)] + meanwhile + [Request(ip, again)])
    requires Decide(cfg, After(cfg, before), ip, now).Reject?
    requires forall i :: 0 <= i < |meanwhile| ==> !(meanwhile[i].Request? && meanwhile[i].ip == ip)
    requires again >= told + RetryAfter(Decide(cfg, After(cfg, before), ip, now).resetAt, told) * SECOND
    ensures Decide(cfg, After(cfg, before + [Request(ip, now)] + meanwhile), ip, again).Admit?
  {
    var first := before + [Request(ip, now)];
    var all := first + meanwhile;
    ClockOfPrefix(all, ip, again);
    assert all[..|before|] == before;
    assert ClockRuns(first) by {
      assert forall i :: 0 <= i < |first| ==> first[i] == all[i];
    }
    DecisionsFollowTheLog(cfg, before, ip, now);
    DecisionsFollowTheLog(cfg, all, ip, again);
    assert first[..|before|] == before;
    SilentAddress(cfg, first, meanwhile, ip);
    RetryAfterReachesTheEnd(WindowEnd(cfg, Granted(cfg, before, ip)), told);
  }

  // ---------------------------------------------------------------------------
  // The object

  class Limiter {
    const cfg: Config
    var visitors: Visitors

    constructor (cfg: Config)
      ensures this.cfg == cfg && visitors == After(cfg, [])
    {
      this.cfg := cfg;
      visitors := map[];
    }

    /** One request under the lock; `later` is the second reading of the clock. */
    method Limit(ip: string, now: int, later: int) returns (admitted: bool, retryAfter: Option<int>)
      modifies this
      ensures visitors == Step(cfg, old(visitors), Request(ip, now))
      ensures admitted <==> Decide(cfg, old(visitors), ip, now).Admit?
      ensures retryAfter == if admitted then None
                            else Some(RetryAfter(Decide(cfg, old(visitors), ip, now).resetAt, later))
      ensures !admitted ==>
                && ip in old(visitors) && now <= old(visitors)[ip].resetAt && visitors == old(visitors)
                && (later <= old(visitors)[ip].resetAt ==>
                      (retryAfter.value - 1) * SECOND <= old(visitors)[ip].resetAt - later < retryAfter.value * SECOND)
    {
      if ip !in visitors || now > visitors[ip].resetAt {
        visitors := visitors[ip := Visitor(1, now + cfg.window)];
        return true, None;
      }
      if visitors[ip].count >= cfg.limit {
        return false, Some(RetryAfter(visitors[ip].resetAt, later));
      }
      visitors := visitors[ip := visitors[ip].(count := visitors[ip].count + 1)];
      return true, None;
    }

    /** One tick of the cleanup: entries are deleted one at a time, in any order. */
    method Clean(now: int)
      modifies this
      ensures visitors == Step(cfg, old(visitors), Cleanup(now))
      ensures forall ip :: ip in visitors <==> ip in old(visitors) && now <= old(visitors)[ip].resetAt
      ensures forall ip :: ip in visitors ==> visitors[ip] == old(visitors)[ip]
    {
      var rest := visitors.Keys;
      while rest != {}
        invariant rest <= visitors.Keys <= old(visitors).Keys
        invariant forall ip :: ip in visitors ==> visitors[ip] == old(visitors)[ip]
        invariant forall ip :: ip in old(visitors) && ip !in rest ==>
            (ip in visitors <==> now <= old(visitors)[ip].resetAt)
        decreases rest
      {
        var ip :| ip in rest;
        rest := rest - {ip};
        if now > visitors[ip].resetAt {
          visitors := visitors - {ip};
        }
      }
    }
  }
}
