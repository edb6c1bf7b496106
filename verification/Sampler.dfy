/** Log sampling: per level and message the first lines of a window pass, then
    every `thereafter`-th. */
module Sampler {
  import opened Strings

  const DEFAULT_FIRST: int := 20
  const DEFAULT_THEREAFTER: int := 50
  const DEFAULT_INTERVAL: int := 10_000_000_000

  datatype Config = Config(first: int, thereafter: int, interval: int) {
    predicate Valid() {
      first > 0 && thereafter > 0 && interval > 0
    }
  }

  datatype Window = Window(resetAt: int, count: int)

  type Windows = map<string, Window>

  /** `now` is read before the lock is taken, so calls need not come in its order. */
  datatype Call = Call(level: string, msg: string, now: int)

  /** The level's name, a zero character, the message. */
  function Key(level: string, msg: string): string {
    Join(level, '\0', msg)
  }

  function Touch(cfg: Config, windows: Windows, key: string, now: int): Window {
    if key !in windows || now > windows[key].resetAt then Window(now + cfg.interval, 1)
    else windows[key].(count := windows[key].count + 1)
  }

  function Step(cfg: Config, windows: Windows, c: Call): Windows {
    windows[Key(c.level, c.msg) := Touch(cfg, windows, Key(c.level, c.msg), c.now)]
  }

  predicate Allows(cfg: Config, windows: Windows, c: Call)
    requires cfg.Valid()
  {
    var count := Touch(cfg, windows, Key(c.level, c.msg), c.now).count;
    count <= cfg.first || (count - cfg.first) % cfg.thereafter == 0
  }

  function After(cfg: Config, windows: Windows, calls: seq<Call>): Windows {
    if calls == [] then windows
    else Step(cfg, After(cfg, windows, calls[..|calls| - 1]), calls[|calls| - 1])
  }

  function Calls(calls: seq<Call>, level: string, msg: string): nat {
    if calls == [] then 0
    else
      var c := calls[|calls| - 1];
      Calls(calls[..|calls| - 1], level, msg) + if c.level == level && c.msg == msg then 1 else 0
  }

  /** How many calls with this level and message were let through. */
  function Passed(cfg: Config, windows: Windows, calls: seq<Call>, level: string, msg: string): nat
    requires cfg.Valid()
  {
    if calls == [] then 0
    else
      var before, c := calls[..|calls| - 1], calls[|calls| - 1];
      Passed(cfg, windows, before, level, msg) +
      if c.level == level && c.msg == msg && Allows(cfg, After(cfg, windows, before), c) then 1 else 0
  }

  function Quota(cfg: Config, n: nat): int
    requires cfg.Valid()
  {
    if n <= cfg.first then n else cfg.first + (n - cfg.first) / cfg.thereafter
  }

  // ---------------------------------------------------------------------------
  // One window

  predicate Same(c: Call, level: string, msg: string) {
    c.level == level && c.msg == msg
  }

  /** Level names hold no zero character. */
  ghost predicate NamesAreClean(calls: seq<Call>) {
    forall i :: 0 <= i < |calls| ==> '\0' !in calls[i].level
  }

  /** The f-th call is the first of its level and message and opens a window that
      covers all the others of these calls. */
  ghost predicate OneWindow(cfg: Config, windows: Windows, calls: seq<Call>, f: nat)
    requires f < |calls|
  {
    var c := calls[f];
    var key := Key(c.level, c.msg);
    && (key !in windows || c.now > windows[key].resetAt)
    && (forall i :: 0 <= i < f ==> !Same(calls[i], c.level, c.msg))
    && (forall i :: 0 <= i < |calls| && Same(calls[i], c.level, c.msg) ==> calls[i].now <= c.now + cfg.interval)
  }

  lemma OtherKeysDoNotMatter(cfg: Config, windows: Windows, c: Call, level: string, msg: string)
    requires '\0' !in c.level && '\0' !in level && !Same(c, level, msg)
    ensures var key := Key(level, msg);
            && (key in Step(cfg, windows, c) <==> key in windows)
            && (key in windows ==> Step(cfg, windows, c)[key] == windows[key])
  {
    JoinIsInjective(c.level, c.msg, level, msg, '\0');
  }

  lemma {:induction false} NoCallYet(cfg: Config, windows: Windows, calls: seq<Call>, level: string, msg: string)
    requires cfg.Valid() && NamesAreClean(calls) && '\0' !in level
    requires forall i :: 0 <= i < |calls| ==> !Same(calls[i], level, msg)
    ensures Calls(calls, level, msg) == 0 && Passed(cfg, windows, calls, level, msg) == 0
    ensures var key := Key(level, msg); var after := After(cfg, windows, calls);
            (key in after <==> key in windows) && (key in windows ==> after[key] == windows[key])
  {
    hide Step, Key;
    if calls != [] {
      var before := calls[..|calls| - 1];
      NoCallYet(cfg, windows, before, level, msg);
      OtherKeysDoNotMatter(cfg, After(cfg, windows, before), calls[|calls| - 1], level, msg);
    }
  }

  lemma QuotaOneMore(cfg: Config, n: nat)
    requires cfg.Valid()
    ensures Quota(cfg, n + 1) ==
            Quota(cfg, n) + if n + 1 <= cfg.first || (n + 1 - cfg.first) % cfg.thereafter == 0 then 1 else 0
  {
    if n >= cfg.first {
      QuotientOneMore(n - cfg.first, cfg.thereafter);
    }
  }

  lemma QuotientOneMore(a: nat, b: nat)
    requires b > 0
    ensures (a + 1) / b == a / b + if (a + 1) % b == 0 then 1 else 0
  {
    var q, r := a / b, a % b;
    assert a == q * b + r;
    if r == b - 1 {
      assert a + 1 == (q + 1) * b;
      DivisionIs(a + 1, b, q + 1, 0);
    } else {
      DivisionIs(a + 1, b, q, r + 1);
    }
  }

  lemma DivisionIs(a: nat, b: nat, q: nat, r: nat)
    requires b > 0 && a == q * b + r && r < b
    ensures a / b == q && a % b == r
  {
    var d := a / b - q;
    assert d * b == r - a % b;
    if d != 0 {
      NonZeroMultiple(d, b);
    }
  }

  lemma {:induction false} NonZeroMultiple(d: int, b: nat)
    requires d != 0
    ensures d * b >= b || d * b + b <= 0
    decreases if d > 0 then d else -d
  {
    if d > 1 {
      NonZeroMultiple(d - 1, b);
    } else if d < -1 {
      NonZeroMultiple(d + 1, b);
    }
  }

  lemma {:induction false} WindowCounts(cfg: Config, windows: Windows, calls: seq<Call>, f: nat)
    requires cfg.Valid() && NamesAreClean(calls) && f < |calls| && OneWindow(cfg, windows, calls, f)
    ensures var c := calls[f]; var key := Key(c.level, c.msg); var after := After(cfg, windows, calls);
            && key in after && after[key] == Window(c.now + cfg.interval, Calls(calls, c.level, c.msg))
            && Passed(cfg, windows, calls, c.level, c.msg) == Quota(cfg, Calls(calls, c.level, c.msg))
  {
    hide Key, Quota, NamesAreClean;
    NamesOfPrefix(calls, f);
    var before, last, c := calls[..|calls| - 1], calls[|calls| - 1], calls[f];
    if f == |calls| - 1 {
      NoCallYet(cfg, windows, before, c.level, c.msg);
      QuotaOneMore(cfg, 0);
      QuotaOfNone(cfg);
    } else {
      assert before[f] == c;
      WindowCounts(cfg, windows, before, f);
      if Same(last, c.level, c.msg) {
        QuotaOneMore(cfg, Calls(before, c.level, c.msg));
      } else {
        OtherKeysDoNotMatter(cfg, After(cfg, windows, before), last, c.level, c.msg);
      }
    }
  }

  lemma NamesOfPrefix(calls: seq<Call>, f: nat)
    requires NamesAreClean(calls) && f < |calls|
    ensures NamesAreClean(calls[..|calls| - 1]) && '\0' !in calls[f].level && '\0' !in calls[|calls| - 1].level
  {
  }

  lemma QuotaOfNone(cfg: Config)
    requires cfg.Valid()
    ensures Quota(cfg, 0) == 0
  {
  }

  /** However calls for other levels and messages are interleaved, and in whatever
      order their clock readings come, n calls in one window let through n if
      n <= first, else first + (n - first) / thereafter. */
  lemma WindowLetsThroughItsQuota(cfg: Config, windows: Windows, calls: seq<Call>, f: nat)
    requires cfg.Valid() && NamesAreClean(calls) && f < |calls| && OneWindow(cfg, windows, calls, f)
    ensures var n := Calls(calls, calls[f].level, calls[f].msg);
            Passed(cfg, windows, calls, calls[f].level, calls[f].msg) ==
            if n <= cfg.first then n else cfg.first + (n - cfg.first) / cfg.thereafter
  {
    WindowCounts(cfg, windows, calls, f);
  }

  // ---------------------------------------------------------------------------
  // The object

  class LogSampler {
    const cfg: Config
    var windows: Windows

    /** Settings that are not positive are replaced by the defaults. */
    constructor (first: int, thereafter: int, interval: int)
      ensures cfg.Valid() && windows == map[]
      ensures first > 0 ==> cfg.first == first
      ensures first <= 0 ==> cfg.first == 20
      ensures thereafter > 0 ==> cfg.thereafter == thereafter
      ensures thereafter <= 0 ==> cfg.thereafter == 50
      ensures interval > 0 ==> cfg.interval == interval
      ensures interval <= 0 ==> cfg.interval == 10_000_000_000
    {
      cfg := Config(if first <= 0 then DEFAULT_FIRST else first,
                    if thereafter <= 0 then DEFAULT_THEREAFTER else thereafter,
                    if interval <= 0 then DEFAULT_INTERVAL else interval);
      windows := map[];
    }

    method Allow(level: string, msg: string, now: int) returns (pass: bool)
      requires cfg.Valid()
      modifies this
      ensures windows == Step(cfg, old(windows), Call(level, msg, now))
      ensures pass <==> Allows(cfg, old(windows), Call(level, msg, now))
    {
      var key := Key(level, msg);
      if key !in windows || now > windows[key].resetAt {
        windows := windows[key := Window(now + cfg.interval, 0)];
      }
      windows := windows[key := windows[key].(count := windows[key].count + 1)];
      var count := windows[key].count;
      if count <= cfg.first {
        return true;
      }
      return (count - cfg.first) % cfg.thereafter == 0;
    }
  }
}
