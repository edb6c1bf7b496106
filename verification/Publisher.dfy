/** The reconnecting publisher: a cached connection and channel replaced under a
    lock, and any number of goroutines that use the channel outside it. */
module Publisher {
  import opened Base

  /** Connections and channels get fresh numbers, as pointers would be. `dead` are
      the channels that report IsClosed. */
  datatype Net = Net(
    next: nat,
    made: set<nat>,
    closed: set<nat>,
    owner: map<nat, nat>,
    dead: set<nat>,
    confirming: set<nat>,
    declared: set<nat>)

  /** The publisher's two fields and the network they point into. */
  datatype Link = Link(conn: Option<nat>, ch: Option<nat>, net: Net)

  /** How far a redial gets. An abandoned dial is one whose context ended first. */
  datatype Redial = DialFails | DialAbandoned | ChannelFails | ConfirmFails | TopologyFails | Up

  function Dialed(net: Net): Net {
    net.(next := net.next + 1, made := net.made + {net.next})
  }

  function WithChannel(net: Net, conn: nat): Net {
    net.(next := net.next + 1, owner := net.owner[net.next := conn])
  }

  function ClosedConn(net: Net, conn: nat): Net {
    net.(closed := net.closed + {conn}, dead := net.dead + ChannelsOf(net, conn))
  }

  function ChannelsOf(net: Net, conn: nat): set<nat> {
    set ch | ch in net.owner && net.owner[ch] == conn
  }

  predicate Live(l: Link) {
    l.ch.Some? && l.ch.value !in l.net.dead
  }

  function Reset(l: Link): Link {
    var net := if l.ch.Some? then l.net.(dead := l.net.dead + {l.ch.value}) else l.net;
    Link(None, None, if l.conn.Some? then ClosedConn(net, l.conn.value) else net)
  }

  /** The locked part of getChannel, given how far the redial gets. */
  function Redialed(l: Link, r: Redial): Link {
    var l := Reset(l);
    var conn, ch := l.net.next, l.net.next + 1;
    var dialed := Dialed(l.net);
    var bare := WithChannel(dialed, conn);
    var confirmed := bare.(confirming := bare.confirming + {ch});
    match r
    case DialFails => l
    case DialAbandoned => l
    case ChannelFails => l.(net := ClosedConn(dialed, conn))
    case ConfirmFails => l.(net := ClosedConn(bare, conn))
    case TopologyFails => l.(net := ClosedConn(confirmed, conn))
    case Up => Link(Some(conn), Some(ch), confirmed.(declared := confirmed.declared + {ch}))
  }

  function GetChannel(l: Link, r: Redial): Link {
    if Live(l) then l else Redialed(l, r)
  }

  function ResetIfCurrent(l: Link, failed: nat): Link {
    if l.ch != Some(failed) then l else Reset(l)
  }

  // ---------------------------------------------------------------------------
  // Goroutines

  datatype Pc = Idle | Holding(ch: nat) | Failing(ch: nat)

  datatype Cause = Failed(ch: nat) | Stale | Shutdown

  /** A channel that a reset closed, whether it was dead already, and why. */
  datatype Closing = Closing(ch: nat, wasDead: bool, cause: Cause)

  /** `abandoned` dials are still running in the background; `late` are the
      connections they set up that are not closed yet. */
  datatype System = System(link: Link, pcs: map<nat, Pc>, abandoned: nat, late: set<nat>, closings: seq<Closing>)

  /** A locked section is one step: the fields are not seen in between, and what the
      broker does meanwhile can as well come right after it. */
  datatype Event =
    | FastPath(t: nat)
    | SlowPath(t: nat, redial: Redial)
    | PublishFails(t: nat)
    | PublishReturns(t: nat)
    | ResetAfterFailure(t: nat)
    | Close
    | ChannelDies(ch: nat)
    | LateDial(succeeds: bool)
    | LateClose(conn: nat)

  predicate Enabled(s: System, e: Event) {
    match e
    case FastPath(t) => t in s.pcs && s.pcs[t].Idle? && Live(s.link)
    case SlowPath(t, _) => t in s.pcs && s.pcs[t].Idle?
    case PublishFails(t) => t in s.pcs && s.pcs[t].Holding?
    case PublishReturns(t) => t in s.pcs && s.pcs[t].Holding?
    case ResetAfterFailure(t) => t in s.pcs && s.pcs[t].Failing?
    case Close => true
    case ChannelDies(ch) => ch in s.link.net.owner
    case LateDial(_) => s.abandoned > 0
    case LateClose(conn) => conn in s.late
  }

  function Closings(l: Link, cause: Cause): seq<Closing> {
    if l.ch.Some? then [Closing(l.ch.value, l.ch.value in l.net.dead, cause)] else []
  }

  function Apply(s: System, e: Event): System
    requires Enabled(s, e)
  {
    match e
    case FastPath(t) => s.(pcs := s.pcs[t := Holding(s.link.ch.value)])
    case SlowPath(t, r) =>
      var l := GetChannel(s.link, r);
      s.(link := l, pcs := if l.ch.Some? then s.pcs[t := Holding(l.ch.value)] else s.pcs,
         abandoned := if !Live(s.link) && r.DialAbandoned? then s.abandoned + 1 else s.abandoned,
         closings := if Live(s.link) then s.closings else s.closings + Closings(s.link, Stale))
    case PublishFails(t) => s.(pcs := s.pcs[t := Failing(s.pcs[t].ch)])
    case PublishReturns(t) => s.(pcs := s.pcs[t := Idle])
    case ResetAfterFailure(t) =>
      var failed := s.pcs[t].ch;
      s.(link := ResetIfCurrent(s.link, failed), pcs := s.pcs[t := Idle],
         closings := if s.link.ch == Some(failed) then s.closings + Closings(s.link, Failed(failed)) else s.closings)
    case Close => s.(link := Reset(s.link), closings := s.closings + Closings(s.link, Shutdown))
    case ChannelDies(ch) => s.(link := s.link.(net := s.link.net.(dead := s.link.net.dead + {ch})))
    case LateDial(succeeds) =>
      if succeeds
      then s.(link := s.link.(net := Dialed(s.link.net)), abandoned := s.abandoned - 1,
              late := s.late + {s.link.net.next})
      else s.(abandoned := s.abandoned - 1)
    case LateClose(conn) => s.(link := s.link.(net := ClosedConn(s.link.net, conn)), late := s.late - {conn})
  }

  // ---------------------------------------------------------------------------
  // What every step keeps

  function Cached(l: Link): set<nat> {
    if l.conn.Some? then {l.conn.value} else {}
  }

  function Established(net: Net): set<nat> {
    net.made - net.closed
  }

  ghost predicate Usable(net: Net, ch: nat) {
    ch in net.confirming && ch in net.declared && ch < net.next
  }

  /** The fields are set and cleared together, and the cached channel is ready. */
  ghost predicate LinkOk(l: Link) {
    && (l.conn.Some? <==> l.ch.Some?)
    && (l.ch.Some? ==> Usable(l.net, l.ch.value) && l.ch.value in l.net.owner)
    && (l.ch.Some? ==> l.net.owner[l.ch.value] == l.conn.value)
    && NetOk(l.net)
  }

  /** Numbers are given in order, and only channels that were opened are dead. */
  ghost predicate NetOk(net: Net) {
    && (forall c :: c in net.made ==> c < net.next)
    && (forall ch :: ch in net.owner ==> ch < net.next)
    && net.closed <= net.made && net.dead <= net.owner.Keys
  }

  /** The connections that are open are the cached one and the late ones. */
  ghost predicate Accounted(l: Link, late: set<nat>) {
    Established(l.net) == Cached(l) + late && Cached(l) !! late
  }

  /** Only a failure on this very channel, or a shutdown, closes a live one. */
  ghost predicate Justified(c: Closing) {
    match c.cause
    case Failed(ch) => ch == c.ch
    case Stale => c.wasDead
    case Shutdown => true
  }

  ghost predicate Inv(s: System) {
    && LinkOk(s.link) && Accounted(s.link, s.late)
    && (forall t :: t in s.pcs && !s.pcs[t].Idle? ==> Usable(s.link.net, s.pcs[t].ch))
    && (forall i :: 0 <= i < |s.closings| ==> Justified(s.closings[i]))
    && (forall ch :: ch in s.link.net.declared ==> s.link.ch == Some(ch) || WasClosed(s.closings, ch))
  }

  ghost predicate WasClosed(closings: seq<Closing>, ch: nat) {
    exists i :: 0 <= i < |closings| && closings[i].ch == ch
  }

  ghost predicate Init(s: System) {
    && s.link == Link(None, None, Net(0, {}, {}, map[], {}, {}, {}))
    && (forall t :: t in s.pcs ==> s.pcs[t].Idle?) && s.abandoned == 0 && s.late == {} && s.closings == []
  }

  ghost predicate Grows(net: Net, net': Net) {
    net.next <= net'.next && net.confirming <= net'.confirming && net.declared <= net'.declared
  }

  lemma ResetKeeps(l: Link, late: set<nat>)
    requires LinkOk(l) && Accounted(l, late)
    ensures LinkOk(Reset(l)) && Accounted(Reset(l), late) && Grows(l.net, Reset(l).net)
    ensures Reset(l).conn.None?
  {
  }

  lemma RedialKeeps(l: Link, r: Redial, late: set<nat>)
    requires LinkOk(l) && Accounted(l, late)
    ensures LinkOk(Redialed(l, r)) && Accounted(Redialed(l, r), late) && Grows(l.net, Redialed(l, r).net)
  {
    hide Reset;
    ResetKeeps(l, late);
    match r
    case DialFails =>
    case DialAbandoned =>
    case ChannelFails =>
    case ConfirmFails =>
    case TopologyFails =>
    case Up =>
  }

  lemma InitInv(s: System)
    requires Init(s)
    ensures Inv(s)
  {
  }

  /** A reset moves the cached channel to the closings. */
  lemma ResetRecords(l: Link, declared: set<nat>, closings: seq<Closing>, cause: Cause)
    requires forall ch :: ch in declared ==> l.ch == Some(ch) || WasClosed(closings, ch)
    ensures forall ch :: ch in declared ==> WasClosed(closings + Closings(l, cause), ch)
  {
    var all := closings + Closings(l, cause);
    forall ch | ch in declared ensures WasClosed(all, ch) {
      if l.ch == Some(ch) {
        assert all[|closings|].ch == ch;
      } else {
        var i :| 0 <= i < |closings| && closings[i].ch == ch;
        assert all[i].ch == ch;
      }
    }
  }

  lemma ResetsKeepInv(s: System, e: Event)
    requires Inv(s) && Enabled(s, e) && (e.ResetAfterFailure? || e.Close?)
    ensures Inv(Apply(s, e))
  {
    hide WasClosed, LinkOk, Accounted, Usable;
    ResetKeeps(s.link, s.late);
    UsableStays(s.link.net, Reset(s.link).net);
    ResetRecords(s.link, s.link.net.declared, s.closings, if e.Close? then Shutdown else Failed(s.pcs[e.t].ch));
  }

  lemma UsableStays(net: Net, net': Net)
    requires Grows(net, net')
    ensures forall ch :: Usable(net, ch) ==> Usable(net', ch)
  {
  }

  lemma SlowPathKeepsInv(s: System, e: Event)
    requires Inv(s) && Enabled(s, e) && e.SlowPath?
    ensures Inv(Apply(s, e))
  {
    hide WasClosed, Accounted;
    if !Live(s.link) {
      RedialKeeps(s.link, e.redial, s.late);
      ResetRecords(s.link, s.link.net.declared, s.closings, Stale);
    }
  }

  lemma OthersKeepInv(s: System, e: Event)
    requires Inv(s) && Enabled(s, e) && !e.ResetAfterFailure? && !e.Close? && !e.SlowPath?
    ensures Inv(Apply(s, e))
  {
    hide WasClosed;
    match e
    case FastPath(t) =>
    case PublishFails(t) =>
    case PublishReturns(t) =>
    case ChannelDies(ch) =>
    case LateDial(_) =>
    case LateClose(conn) =>
  }

  lemma StepKeepsInv(s: System, e: Event)
    requires Inv(s) && Enabled(s, e)
    ensures Inv(Apply(s, e))
  {
    hide Inv, Enabled, Apply;
    if e.ResetAfterFailure? || e.Close? {
      ResetsKeepInv(s, e);
    } else if e.SlowPath? {
      SlowPathKeepsInv(s, e);
    } else {
      OthersKeepInv(s, e);
    }
  }

  // ---------------------------------------------------------------------------
  // Whole runs

  ghost predicate IsRun(states: seq<System>, events: seq<Event>) {
    && |states| == |events| + 1 && Init(states[0])
    && forall i :: 0 <= i < |events| ==>
         Enabled(states[i], events[i]) && states[i + 1] == Apply(states[i], events[i])
  }

  lemma {:induction false} RunInv(states: seq<System>, events: seq<Event>, i: nat)
    requires IsRun(states, events) && i < |states|
    ensures Inv(states[i])
  {
    hide Inv, Init, Enabled, Apply;
    if i == 0 {
      InitInv(states[0]);
    } else {
      RunInv(states, events, i - 1);
      StepKeepsInv(states[i - 1], events[i - 1]);
    }
  }

  predicate Abandons(e: Event) {
    e.SlowPath? && e.redial.DialAbandoned?
  }

  lemma {:induction false} NothingIsLate(states: seq<System>, events: seq<Event>, i: nat)
    requires IsRun(states, events) && i < |states| && forall j :: 0 <= j < i ==> !Abandons(events[j])
    ensures states[i].abandoned == 0 && states[i].late == {}
  {
    if i > 0 {
      NothingIsLate(states, events, i - 1);
      assert !Abandons(events[i - 1]);
      var e := events[i - 1];
      match e
      case FastPath(_) =>
      case SlowPath(_, _) =>
      case PublishFails(_) =>
      case PublishReturns(_) =>
      case ResetAfterFailure(_) =>
      case Close =>
      case ChannelDies(_) =>
      case LateDial(_) =>
      case LateClose(_) =>
    }
  }

  /** Between locked sections the open connections are the cached one, if any, and
      those of abandoned dials that still await their close; so, if no dial was
      abandoned, exactly the cached one. */
  lemma NoConnectionLeaks(states: seq<System>, events: seq<Event>, i: nat)
    requires IsRun(states, events) && i < |states|
    ensures var s := states[i];
            && Established(s.link.net) == Cached(s.link) + s.late && Cached(s.link) !! s.late
            && (Established(s.link.net) == Cached(s.link) <==> s.late == {})
            && ((forall j :: 0 <= j < i ==> !Abandons(events[j])) ==> Established(s.link.net) == Cached(s.link))
  {
    hide Apply, LinkOk, WasClosed;
    RunInv(states, events, i);
    if forall j :: 0 <= j < i ==> !Abandons(events[j]) {
      NothingIsLate(states, events, i);
    }
  }

  /** The steps of the goroutines that clean up after abandoned dials. */
  predicate Background(e: Event) {
    e.LateDial? || e.LateClose?
  }

  /** What they still have to do, two steps for a dial and one for a connection. */
  function Outstanding(s: System): nat {
    2 * s.abandoned + |s.late|
  }

  lemma BackgroundStep(s: System, e: Event)
    requires Inv(s) && Enabled(s, e) && Background(e)
    ensures Outstanding(Apply(s, e)) < Outstanding(s) && Cached(Apply(s, e).link) == Cached(s.link)
  {
    if e.LateDial? && e.succeeds {
      assert s.link.net.next !in Established(s.link.net);
      assert |s.late + {s.link.net.next}| == |s.late| + 1;
    }
  }

  /** As long as something is outstanding a background step can be taken, and then
      nothing but the cached connection is open. */
  lemma BackgroundGoesOn(s: System)
    requires Inv(s)
    ensures Outstanding(s) > 0 <==> exists e :: Background(e) && Enabled(s, e)
    ensures Outstanding(s) == 0 ==> Established(s.link.net) == Cached(s.link)
  {
    if s.abandoned > 0 {
      assert Background(LateDial(true)) && Enabled(s, LateDial(true));
    } else if conn :| conn in s.late {
      assert Background(LateClose(conn)) && Enabled(s, LateClose(conn));
    } else {
      assert s.late == {};
    }
  }

  /** From every reachable state the background steps alone end after a bounded number,
      and where they end exactly the connection cached at the start is open. */
  lemma {:induction false} BackgroundDrains(states: seq<System>, events: seq<Event>, i: nat, j: nat)
    requires IsRun(states, events) && i <= j < |states| && forall k :: i <= k < j ==> Background(events[k])
    ensures j - i + Outstanding(states[j]) <= Outstanding(states[i]) && Cached(states[j].link) == Cached(states[i].link)
    ensures (forall e :: Background(e) ==> !Enabled(states[j], e)) ==>
              Established(states[j].link.net) == Cached(states[i].link)
    decreases j
  {
    hide Enabled, Apply, Inv, Init, Outstanding, Cached, Established;
    RunInv(states, events, j);
    BackgroundGoesOn(states[j]);
    if i < j {
      BackgroundDrains(states, events, i, j - 1);
      RunInv(states, events, j - 1);
      BackgroundStep(states[j - 1], events[j - 1]);
    }
  }

  /** An abandoned dial that succeeds late is open for a while without being cached. */
  lemma AbandonedDialIsOpenForAWhile(t: nat) returns (states: seq<System>, events: seq<Event>)
    ensures IsRun(states, events) && |events| == 2
    ensures Established(states[2].link.net) != Cached(states[2].link)
  {
    var s0 := System(Link(None, None, Net(0, {}, {}, map[], {}, {}, {})), map[t := Idle], 0, {}, []);
    events := [SlowPath(t, DialAbandoned), LateDial(true)];
    var s1 := Apply(s0, events[0]);
    var s2 := Apply(s1, events[1]);
    states := [s0, s1, s2];
    assert 0 in Established(s2.link.net);
  }

  /** A cached channel, and every channel a goroutine got, is in confirm mode and
      has the topology declared. */
  lemma ChannelsAreReady(states: seq<System>, events: seq<Event>, i: nat, t: nat)
    requires IsRun(states, events) && i < |states|
    ensures var s := states[i];
            && (s.link.ch.Some? ==> s.link.ch.value in s.link.net.confirming && s.link.ch.value in s.link.net.declared)
            && (t in s.pcs && !s.pcs[t].Idle? ==> s.pcs[t].ch in s.link.net.confirming)
            && (t in s.pcs && !s.pcs[t].Idle? ==> s.pcs[t].ch in s.link.net.declared)
  {
    hide IsRun, Accounted, WasClosed;
    RunInv(states, events, i);
  }

  /** A channel that getChannel handed out is alive and on an open connection. A cached
      channel that is alive is handed out as it is. */
  lemma HandedOutIsAlive(states: seq<System>, events: seq<Event>, i: nat, t: nat)
    requires IsRun(states, events) && i < |events|
    requires events[i] == FastPath(t) || (events[i].SlowPath? && events[i].t == t)
    ensures t in states[i].pcs && t in states[i + 1].pcs
    ensures var net, pc := states[i + 1].link.net, states[i + 1].pcs[t];
            pc.Holding? ==> pc.ch in net.owner && pc.ch !in net.dead && net.owner[pc.ch] in net.made - net.closed
    ensures var l := states[i].link;
            l.ch.Some? && l.ch.value !in l.net.dead ==>
              states[i + 1].link == l && states[i + 1].pcs[t] == Holding(l.ch.value)
  {
    hide WasClosed;
    RunInv(states, events, i);
    RunInv(states, events, i + 1);
    assert Enabled(states[i], events[i]);
  }

  /** Without one, a redial that gets through hands out a channel newer than any before,
      and any other redial hands out none and leaves nothing cached. */
  lemma DeadChannelIsReplaced(states: seq<System>, events: seq<Event>, i: nat, t: nat, r: Redial)
    requires IsRun(states, events) && i < |events| && events[i] == SlowPath(t, r)
    requires states[i].link.ch.None? || states[i].link.ch.value in states[i].link.net.dead
    ensures t in states[i + 1].pcs
    ensures var net, l', pc := states[i].link.net, states[i + 1].link, states[i + 1].pcs[t];
            if r.Up?
            then pc.Holding? && l'.ch == Some(pc.ch) && net.next < pc.ch && forall ch :: ch in net.owner ==> ch < pc.ch
            else pc == Idle && l'.ch.None? && l'.conn.None?
  {
    hide WasClosed;
    RunInv(states, events, i);
    assert Enabled(states[i], events[i]);
  }

  /** A channel that was set up is still the cached one unless it died, a publish on
      this very channel failed, or the publisher was shut down: a failure on an older
      channel closes nothing newer. */
  lemma ReplacedForCause(states: seq<System>, events: seq<Event>, i: nat, ch: nat) returns (k: nat)
    requires IsRun(states, events) && i < |states|
    requires ch in states[i].link.net.declared && states[i].link.ch != Some(ch)
    ensures k < |states[i].closings|
    ensures var c := states[i].closings[k];
            c.ch == ch && (c.cause == Failed(ch) || (c.cause.Stale? && c.wasDead) || c.cause.Shutdown?)
  {
    hide IsRun, Accounted, LinkOk;
    RunInv(states, events, i);
    k :| 0 <= k < |states[i].closings| && states[i].closings[k].ch == ch;
    assert Justified(states[i].closings[k]);
  }

  /** Whatever channel a failing publish closes is the one it failed on. */
  lemma FailureClosesOnlyItsOwn(states: seq<System>, events: seq<Event>, i: nat, t: nat)
    requires IsRun(states, events) && i < |events| && events[i] == ResetAfterFailure(t)
    ensures states[i].link.ch != Some(states[i].pcs[t].ch) ==> states[i + 1].link == states[i].link
    ensures states[i].link.ch == Some(states[i].pcs[t].ch) ==>
              states[i + 1].link.ch.None? && Established(states[i + 1].link.net) == states[i].late
  {
    hide WasClosed;
    RunInv(states, events, i);
    RunInv(states, events, i + 1);
    assert Enabled(states[i], events[i]);
  }

  // ---------------------------------------------------------------------------
  // The object

  datatype Topology = Topology(exchange: string, queue: string, routingKeys: seq<string>)

  datatype Declarations = Declarations(exchanges: set<string>, queues: set<string>,
                                       bindings: set<(string, string, string)>)

  ghost predicate Declares(d: Declarations, t: Topology) {
    && t.exchange in d.exchanges
    && (t.queue != "" ==> t.queue in d.queues)
    && (t.queue != "" ==> forall key :: key in t.routingKeys ==> (t.queue, key, t.exchange) in d.bindings)
  }

  /** The fields are set together and point at what was opened and not closed. */
  ghost predicate IsOpen(l: Link) {
    LinkOk(l) && (l.conn.Some? ==> l.conn.value in l.net.made && l.conn.value !in l.net.closed)
  }

  lemma ResetIsClosed(l: Link)
    requires IsOpen(l)
    ensures var l' := Reset(l);
            && IsOpen(l') && l'.conn.None? && l'.ch.None? && l'.net.next == l.net.next
            && (l.ch.Some? ==> l.ch.value in l'.net.dead) && (l.conn.Some? ==> l.conn.value in l'.net.closed)
  {
  }

  lemma RedialedIsOpen(l: Link, r: Redial)
    requires IsOpen(l)
    ensures IsOpen(Redialed(l, r)) && (Redialed(l, r).ch.Some? <==> r.Up?)
    ensures r.Up? ==> l.net.next < Redialed(l, r).ch.value && Redialed(l, r).ch.value !in Redialed(l, r).net.dead
  {
    hide Reset;
    ResetIsClosed(l);
    match r
    case DialFails =>
    case DialAbandoned =>
    case ChannelFails =>
    case ConfirmFails =>
    case TopologyFails =>
    case Up =>
  }

  /** What getChannel gives: an alive channel on an open connection, the cached one if
      that is alive, else a newer one exactly if the redial gets through. */
  lemma GotIsAlive(l: Link, r: Redial)
    requires IsOpen(l)
    ensures var l' := GetChannel(l, r);
            && IsOpen(l')
            && (l'.ch.Some? ==> l'.ch.value in l'.net.owner && l'.ch.value !in l'.net.dead &&
                                l'.net.owner[l'.ch.value] in l'.net.made - l'.net.closed)
            && (l.ch.Some? && l.ch.value !in l.net.dead ==> l' == l)
            && (l.ch.None? || l.ch.value in l.net.dead ==>
                  if r.Up? then l'.ch.Some? && l.net.next < l'.ch.value else l'.ch.None?)
  {
    hide Redialed;
    RedialedIsOpen(l, r);
  }

  class Connection {
    const topology: Topology
    var conn: Option<nat>
    var ch: Option<nat>
    var net: Net
    var broker: Declarations

    constructor (topology: Topology)
      ensures Valid() && this.topology == topology
      ensures LinkOf() == Link(None, None, Net(0, {}, {}, map[], {}, {}, {}))
    {
      this.topology := topology;
      conn, ch, net := None, None, Net(0, {}, {}, map[], {}, {}, {});
      broker := Declarations({}, {}, {});
    }

    function LinkOf(): Link
      reads this
    {
      Link(conn, ch, net)
    }

    ghost predicate Valid()
      reads this
    {
      IsOpen(LinkOf())
    }

    method ResetLocked()
      requires Valid()
      modifies `conn, `ch, `net
      ensures Valid() && LinkOf() == Reset(old(LinkOf()))
      ensures conn.None? && ch.None?
      ensures old(ch).Some? ==> old(ch).value in net.dead
      ensures old(conn).Some? ==> old(conn).value in net.closed
    {
      ResetIsClosed(LinkOf());
      if ch.Some? {
        net := net.(dead := net.dead + {ch.value});
        ch := None;
      }
      if conn.Some? {
        net := ClosedConn(net, conn.value);
        conn := None;
      }
    }

    method ResetFailed(failed: nat)
      requires Valid()
      modifies `conn, `ch, `net
      ensures Valid() && LinkOf() == ResetIfCurrent(old(LinkOf()), failed)
      ensures if old(ch) == Some(failed) then ch.None? && conn.None? && failed in net.dead
              else LinkOf() == old(LinkOf())
    {
      if ch != Some(failed) {
        return;
      }
      ResetLocked();
    }

    /** The declarations run one by one and stop at the first that fails; `fails`
        says whether the k-th does. */
    method DeclareTopology(fails: nat -> bool) returns (err: bool)
      modifies `broker
      ensures !err ==> Declares(broker, topology)
      ensures err <==> exists k: nat :: k < Steps(topology) && fails(k)
    {
      if fails(0) {
        return true;
      }
      broker := broker.(exchanges := broker.exchanges + {topology.exchange});
      if topology.queue == "" {
        return false;
      }
      if fails(1) {
        return true;
      }
      broker := broker.(queues := broker.queues + {topology.queue});
      var i := 0;
      while i < |topology.routingKeys|
        invariant 0 <= i <= |topology.routingKeys|
        invariant topology.exchange in broker.exchanges && topology.queue in broker.queues
        invariant forall k :: 0 <= k < i ==>
            (topology.queue, topology.routingKeys[k], topology.exchange) in broker.bindings
        invariant forall k: nat :: k < i + 2 ==> !fails(k)
      {
        if fails(i + 2) {
          return true;
        }
        broker := broker.(bindings := broker.bindings + {(topology.queue, topology.routingKeys[i], topology.exchange)});
        i := i + 1;
      }
      return false;
    }

    /** A live cached channel is returned as it is; otherwise the stale state is
        closed first, and a redial that fails on the way closes what it opened. */
    method Channel(r: Redial, fails: nat -> bool) returns (got: Option<nat>)
      requires Valid()
      requires r.TopologyFails? || r.Up? ==> (r.TopologyFails? <==> exists k: nat :: k < Steps(topology) && fails(k))
      modifies this
      ensures Valid() && LinkOf() == GetChannel(old(LinkOf()), r)
      ensures got == ch
      ensures got.Some? ==> got.value in net.owner && got.value !in net.dead &&
                            net.owner[got.value] in net.made - net.closed
      ensures old(ch).Some? && old(ch).value !in old(net.dead) ==> got == old(ch) && LinkOf() == old(LinkOf())
      ensures old(ch).None? || old(ch).value in old(net.dead) ==>
                if r.Up? then got.Some? && old(net.next) < got.value && Declares(broker, topology) else got.None?
    {
      hide IsOpen;
      GotIsAlive(LinkOf(), r);
      if ch.Some? && ch.value !in net.dead {
        return ch;
      }
      ResetLocked();
      if r.DialFails? || r.DialAbandoned? {
        return None;
      }
      var c := net.next;
      net := Dialed(net);
      if r.ChannelFails? {
        net := ClosedConn(net, c);
        return None;
      }
      var made := net.next;
      net := WithChannel(net, c);
      if r.ConfirmFails? {
        net := ClosedConn(net, c);
        return None;
      }
      net := net.(confirming := net.confirming + {made});
      var err := DeclareTopology(fails);
      if err {
        net := ClosedConn(net, c);
        return None;
      }
      net := net.(declared := net.declared + {made});
      conn, ch := Some(c), Some(made);
      return ch;
    }
  }

  function Steps(t: Topology): nat {
    if t.queue == "" then 1 else 2 + |t.routingKeys|
  }
}
