/** The subscriptions table and the saga as one system: a saga is begun by a call that
    reserved a row, with the link made from that row's token, and its Cancel writes to
    that table. */
module SubscribeEndToEnd {
  import opened Base
  import opened SagaRows
  import SagaProtocol
  import SagaInvariant
  import SagaSteps
  import SagaTheorems
  import SagaMails
  import SagaReturns
  import Subscriptions
  import RefreshRaces
  import Ledger
  import RepositoryRef

  function ConfirmUrl(base: string, token: string): string {
    base + "/api/confirm/" + token
  }

  lemma ConfirmUrlIsInjective(base: string, a: string, b: string)
    ensures ConfirmUrl(base, a) == ConfirmUrl(base, b) <==> a == b
  {
    var n := |base + "/api/confirm/"|;
    assert ConfirmUrl(base, a)[n..] == a && ConfirmUrl(base, b)[n..] == b;
  }

  /** The two routes of the REST interface that take a token as their last segment. */
  datatype Route = ConfirmRoute(token: string) | UnsubscribeRoute(token: string) | OtherRoute

  function RouteOf(path: string): Route {
    if IsUnder(path, "/api/confirm/") then ConfirmRoute(path[13..])
    else if IsUnder(path, "/api/unsubscribe/") then UnsubscribeRoute(path[17..])
    else OtherRoute
  }

  /** One more segment follows the prefix. */
  predicate IsUnder(path: string, prefix: string) {
    prefix < path && '/' !in path[|prefix|..]
  }

  /** The link of a token that is one path segment leads to Confirm with that very token,
      and no link leads to Unsubscribe. */
  lemma LinkLeadsToConfirm(base: string, token: string)
    ensures var path := ConfirmUrl(base, token)[|base|..];
            && base <= ConfirmUrl(base, token) && path == "/api/confirm/" + token
            && (RouteOf(path) == ConfirmRoute(token) <==> token != "" && '/' !in token)
            && !RouteOf(path).UnsubscribeRoute?
  {
    var path := ConfirmUrl(base, token)[|base|..];
    assert path == "/api/confirm/" + token && path[13..] == token;
    assert path[5] == 'c' && "/api/unsubscribe/"[5] == 'u';
  }

  /** What Subscribe hands to the saga for a call that reserved a row. */
  function DataOf(call: Subscriptions.Call, base: string): SubscriptionData
    requires call.pc.Started?
  {
    var ref := RepositoryRef.Ref(call.owner, call.name);
    SubscriptionData(call.email, RepositoryRef.ToString(ref), call.owner, call.name, call.pc.token,
                     ConfirmUrl(base, call.pc.token), call.pc.id)
  }

  // ---------------------------------------------------------------------------
  // The two machines in one run

  /** `caller` is the call of Subscribe that began each saga. */
  datatype State = State(
    base: string,
    table: Subscriptions.State,
    saga: SagaProtocol.System,
    caller: map<SagaId, nat>)

  /** A step of a call or of Confirm and Unsubscribe, the begin of a saga by a call, or
      any other step of the saga. */
  datatype Step =
    | Serve(request: Subscriptions.Event)
    | BeginSaga(x: SagaId, c: nat, deadline: int)
    | Advance(event: SagaProtocol.Event)

  predicate HasReserved(s: State, c: nat) {
    c in s.table.calls && s.table.calls[c].pc.Started?
  }

  predicate Begins(e: SagaProtocol.Event) {
    e.OfStarter? && e.start.Begin?
  }

  /** The step as the saga sees it. */
  function SagaEvent(s: State, step: Step): Option<SagaProtocol.Event> {
    match step
    case Serve(_) => None
    case BeginSaga(x, c, deadline) =>
      if HasReserved(s, c)
      then Some(SagaProtocol.OfStarter(x, SagaProtocol.Begin(DataOf(s.table.calls[c], s.base), deadline)))
      else None
    case Advance(e) => Some(e)
  }

  /** A Cancel of the saga is an update of the table, with the same outcome. */
  function CancelOf(s: SagaProtocol.System, e: SagaProtocol.Event): Option<Subscriptions.Event> {
    match e
    case OfStarter(x, CancelReserved(out)) => if x in s.issued then CancelRow(s.issued[x].subscriptionId, out) else None
    case OfCompensation(a, Cancel(out)) =>
      if SagaProtocol.TaskAt(s, a) && SagaProtocol.CurrentTask(s, a).c.ToCancel?
      then CancelRow(SagaProtocol.CurrentTask(s, a).c.subscriptionId, out)
      else None
    case _ => None
  }

  function CancelRow(id: int, out: Outcome): Option<Subscriptions.Event> {
    if id >= 0 then Some(Subscriptions.CancelRow(id, out)) else None
  }

  /** The step as the table sees it. */
  function TableEvent(s: State, step: Step): Option<Subscriptions.Event> {
    match step
    case Serve(e) => Some(e)
    case BeginSaga(_, _, _) => None
    case Advance(e) => CancelOf(s.saga, e)
  }

  ghost predicate Enabled(s: State, step: Step) {
    && (match step
        case Serve(e) => !e.CancelRow?
        case BeginSaga(_, c, _) => HasReserved(s, c) && c !in s.caller.Values
        case Advance(e) => !Begins(e))
    && (SagaEvent(s, step).Some? ==> SagaProtocol.Enabled(s.saga, SagaEvent(s, step).value))
    && (TableEvent(s, step).Some? ==> Subscriptions.Enabled(s.table, TableEvent(s, step).value))
  }

  ghost function Apply(s: State, step: Step): State
    requires Enabled(s, step)
  {
    State(s.base,
          if TableEvent(s, step).Some? then Subscriptions.Apply(s.table, TableEvent(s, step).value) else s.table,
          if SagaEvent(s, step).Some? then SagaProtocol.Apply(s.saga, SagaEvent(s, step).value) else s.saga,
          if step.BeginSaga? then s.caller[step.x := step.c] else s.caller)
  }

  ghost predicate IsStart(s: State) {
    s.table == Subscriptions.INITIAL && s.caller == map[] && exists workers :: s.saga == SagaProtocol.Init(workers)
  }

  ghost predicate IsRun(states: seq<State>, steps: seq<Step>) {
    && |states| == |steps| + 1 && IsStart(states[0])
    && forall i :: 0 <= i < |steps| ==> Enabled(states[i], steps[i]) && states[i + 1] == Apply(states[i], steps[i])
  }

  // ---------------------------------------------------------------------------
  // Each machine has a run of its own in it

  /** The run of the saga; step `k` of it is step `at[k]` of the whole. */
  lemma {:induction false} SagaRun(states: seq<State>, steps: seq<Step>, i: nat)
    returns (systems: seq<SagaProtocol.System>, events: seq<SagaProtocol.Event>, at: seq<nat>)
    requires IsRun(states, steps) && i < |states|
    ensures SagaProtocol.IsRun(systems, events) && |systems| == |events| + 1 && systems[|events|] == states[i].saga
    ensures |at| == |events|
    ensures forall k :: 0 <= k < |at| ==>
              at[k] < i && systems[k] == states[at[k]].saga && SagaEvent(states[at[k]], steps[at[k]]) == Some(events[k])
  {
    hide SagaProtocol.Enabled, SagaProtocol.Apply, Subscriptions.Enabled, Subscriptions.Apply, SagaEvent, TableEvent;
    if i == 0 {
      systems, events, at := [states[0].saga], [], [];
    } else {
      systems, events, at := SagaRun(states, steps, i - 1);
      if SagaEvent(states[i - 1], steps[i - 1]).Some? {
        systems := systems + [states[i].saga];
        events := events + [SagaEvent(states[i - 1], steps[i - 1]).value];
        at := at + [i - 1];
      }
    }
  }

  lemma {:induction false} TableRun(states: seq<State>, steps: seq<Step>, i: nat)
    returns (tables: seq<Subscriptions.State>, events: seq<Subscriptions.Event>)
    requires IsRun(states, steps) && i < |states|
    ensures Subscriptions.IsRun(tables, events) && |tables| == |events| + 1 && tables[|events|] == states[i].table
  {
    hide SagaProtocol.Enabled, SagaProtocol.Apply, Subscriptions.Enabled, Subscriptions.Apply, SagaEvent, TableEvent;
    if i == 0 {
      tables, events := [states[0].table], [];
    } else {
      tables, events := TableRun(states, steps, i - 1);
      if TableEvent(states[i - 1], steps[i - 1]).Some? {
        tables := tables + [states[i].table];
        events := events + [TableEvent(states[i - 1], steps[i - 1]).value];
      }
    }
  }

  lemma SagaInv(states: seq<State>, steps: seq<Step>, i: nat)
    requires IsRun(states, steps) && i < |states|
    ensures SagaInvariant.Inv(states[i].saga)
  {
    hide IsRun, SagaInvariant.Inv;
    var systems, events, _ := SagaRun(states, steps, i);
    SagaSteps.RunInv(systems, events, |events|);
  }

  lemma TableInv(states: seq<State>, steps: seq<Step>, i: nat)
    requires IsRun(states, steps) && i < |states|
    ensures Subscriptions.Inv(states[i].table) && RefreshRaces.TargetsAreFinal(states[i].table)
  {
    hide IsRun, Subscriptions.Inv, RefreshRaces.TargetsAreFinal;
    var tables, events := TableRun(states, steps, i);
    Subscriptions.RunInv(tables, events, |events|);
    RefreshRaces.RunTargetsAreFinal(tables, events, |events|);
  }

  // ---------------------------------------------------------------------------
  // Every saga belongs to a call of its own

  ghost predicate Linked(s: State) {
    && (forall x :: x in s.saga.issued ==> IsCallers(s, x))
    && (forall x, y :: x in s.caller && y in s.caller && x != y ==> s.caller[x] != s.caller[y])
  }

  predicate IsCallers(s: State, x: SagaId) {
    && x in s.caller && HasReserved(s, s.caller[x]) && x in s.saga.issued
    && s.saga.issued[x] == DataOf(s.table.calls[s.caller[x]], s.base)
  }

  /** A call that has reserved its row is over. */
  lemma ReservedStays(s: Subscriptions.State, e: Subscriptions.Event, c: nat)
    requires Subscriptions.Enabled(s, e) && c in s.calls && s.calls[c].pc.Started?
    ensures var calls := Subscriptions.Apply(s, e).calls; c in calls && calls[c] == s.calls[c]
  {
  }

  lemma OnlyBeginIssues(s: SagaProtocol.System, e: SagaProtocol.Event)
    requires SagaProtocol.Enabled(s, e) && !Begins(e)
    ensures SagaProtocol.Apply(s, e).issued == s.issued
  {
    hide SagaProtocol.ApplyCompensation, SagaProtocol.ApplyReply, SagaProtocol.ApplyReap, SagaProtocol.ApplyWork,
         SagaProtocol.ApplyStart, SagaProtocol.CanCompensate, SagaProtocol.CanReply, SagaProtocol.CanReap,
         SagaProtocol.CanWork, SagaProtocol.CanStart, Ledger.Apply;
    if e.OfWorker? {
      SagaTheorems.WorkFrame(s, e.w, e.part);
    } else if !e.OfLedger? {
      SagaMails.OnlyLedgerStepsMail(s, e);
    }
  }

  lemma LinkStays(s: State, step: Step, x: SagaId)
    requires Enabled(s, step) && IsCallers(s, x) && Apply(s, step).saga.issued == s.saga.issued && !step.BeginSaga?
    ensures IsCallers(Apply(s, step), x)
  {
    hide Subscriptions.Enabled, Subscriptions.Apply, SagaProtocol.Enabled, SagaProtocol.Apply, DataOf, CancelOf;
    if TableEvent(s, step).Some? {
      ReservedStays(s.table, TableEvent(s, step).value, s.caller[x]);
    }
  }

  lemma BeginLinks(s: State, x: SagaId, c: nat, deadline: int)
    requires Linked(s) && Enabled(s, BeginSaga(x, c, deadline))
    ensures Linked(Apply(s, BeginSaga(x, c, deadline)))
  {
    hide DataOf;
    var s' := Apply(s, BeginSaga(x, c, deadline));
    forall y | y in s'.saga.issued ensures IsCallers(s', y) {
      assert y != x ==> IsCallers(s, y);
    }
    forall y | y in s.caller ensures s.caller[y] in s.caller.Values {
    }
  }

  lemma StepKeepsLinked(s: State, step: Step)
    requires Linked(s) && Enabled(s, step)
    ensures Linked(Apply(s, step))
  {
    hide SagaProtocol.Enabled, SagaProtocol.Apply, Subscriptions.Enabled, Subscriptions.Apply, IsCallers, CancelOf;
    if step.BeginSaga? {
      BeginLinks(s, step.x, step.c, step.deadline);
    } else {
      if step.Advance? {
        OnlyBeginIssues(s.saga, step.event);
      }
      forall x | x in s.saga.issued ensures IsCallers(Apply(s, step), x) {
        LinkStays(s, step, x);
      }
    }
  }

  lemma {:induction false} RunLinked(states: seq<State>, steps: seq<Step>, i: nat)
    requires IsRun(states, steps) && i < |states|
    ensures Linked(states[i])
  {
    hide Enabled, Apply, IsCallers;
    if i > 0 {
      RunLinked(states, steps, i - 1);
      StepKeepsLinked(states[i - 1], steps[i - 1]);
    }
  }

  // ---------------------------------------------------------------------------
  // A completed saga

  /** Tokens are written once, so no two sagas share a confirm URL. */
  lemma UrlsAreOwn(states: seq<State>, steps: seq<Step>, i: nat, x: SagaId)
    requires IsRun(states, steps) && i < |states| && x in states[i].saga.issued
    ensures SagaMails.OwnUrl(states[i].saga.issued, x)
  {
    hide IsRun, Subscriptions.TableOk, Subscriptions.CallsOk, Subscriptions.WrittenOk, ConfirmUrl;
    TableInv(states, steps, i);
    RunLinked(states, steps, i);
    var s := states[i];
    assert IsCallers(s, x);
    forall y | y in s.saga.issued && y != x ensures s.saga.issued[y].confirmUrl != s.saga.issued[x].confirmUrl {
      assert IsCallers(s, y);
      ConfirmUrlIsInjective(s.base, s.saga.issued[x].token, s.saga.issued[y].token);
    }
  }

  /** Someone outside the saga starts to send another confirmation under the saga's URL. */
  predicate Shadows(s: State, step: Step, data: SubscriptionData) {
    && step.Advance? && SagaMails.OutsideMail(s.saga, step.event)
    && !SagaMails.NoOther(SagaMails.ConfirmationOf(data), step.event.ledger.mail)
  }

  /** A completed saga was begun by a call of its own; the mailer accepted a confirmation
      to the caller's address with the link of the token that was written to the
      caller's own row, unless someone outside shadows it. */
  lemma SubscriberIsMailedOwnLink(states: seq<State>, steps: seq<Step>, i: nat, x: SagaId)
    requires IsRun(states, steps) && i < |states| && InState(states[i].saga.rows, x, Completed)
    ensures IsCallers(states[i], x)
    ensures var s := states[i];
            var call := s.table.calls[s.caller[x]];
            && (call.pc.id, call.pc.token) in s.table.written
            && Subscriptions.RowFor(s.table.table.rows, call.pc.id, call)
            && ((forall k :: 0 <= k < i ==> !Shadows(states[k], steps[k], s.saga.issued[x])) ==>
                  Ledger.ConfirmationMail(call.email, ConfirmUrl(s.base, call.pc.token),
                                          RepositoryRef.ToString(RepositoryRef.Ref(call.owner, call.name)))
                    in s.saga.ledger.mails)
  {
    hide Enabled, Apply, Subscriptions.TableOk, Subscriptions.WrittenOk, Subscriptions.StartsOk, SagaMails.OutsideMail,
         SagaMails.NoOther, ConfirmUrl, SagaInvariant.Inv;
    var s := states[i];
    SagaInv(states, steps, i);
    assert x in s.saga.issued by { HasBegun(s.saga, x); }
    RunLinked(states, steps, i);
    TableInv(states, steps, i);
    assert Subscriptions.CallOk(s.table.table.rows, s.table.tokens, s.table.written, s.table.calls[s.caller[x]]);
    if forall k :: 0 <= k < i ==> !Shadows(states[k], steps[k], s.saga.issued[x]) {
      OwnMailIsAccepted(states, steps, i, x);
    }
  }

  lemma HasBegun(s: SagaProtocol.System, x: SagaId)
    requires SagaInvariant.Inv(s) && x in s.rows
    ensures x in s.issued && s.rows[x].data == s.issued[x]
  {
    SagaSteps.OneRowOk(SagaInvariant.K(s), s.history, x);
  }

  lemma OwnMailIsAccepted(states: seq<State>, steps: seq<Step>, i: nat, x: SagaId)
    requires IsRun(states, steps) && i < |states| && InState(states[i].saga.rows, x, Completed)
    requires x in states[i].saga.issued
    requires forall k :: 0 <= k < i ==> !Shadows(states[k], steps[k], states[i].saga.issued[x])
    ensures SagaMails.ConfirmationOf(states[i].saga.issued[x]) in states[i].saga.ledger.mails
  {
    hide Enabled, Apply, SagaMails.NoOther;
    var own := SagaMails.ConfirmationOf(states[i].saga.issued[x]);
    UrlsAreOwn(states, steps, i, x);
    var systems, events, at := SagaRun(states, steps, i);
    forall k | 0 <= k < |events| && SagaMails.OutsideMail(systems[k], events[k])
      ensures SagaMails.NoOther(own, events[k].ledger.mail) {
      assert !Shadows(states[at[k]], steps[at[k]], states[i].saga.issued[x]);
    }
    hide SagaProtocol.IsRun;
    SagaMails.ConfirmationReachesSubscriber(systems, events, |events|, x);
  }

  // ---------------------------------------------------------------------------
  // A failed saga

  /** A Cancel that succeeded is an update of the saga's own row that took effect. */
  lemma NewlyCancelled(s: SagaProtocol.System, e: SagaProtocol.Event, x: SagaId)
    requires SagaInvariant.Inv(s) && SagaProtocol.Enabled(s, e)
    requires x !in s.cancelled && x in SagaProtocol.Apply(s, e).cancelled
    ensures x in s.issued && CancelOf(s, e) == CancelRow(s.issued[x].subscriptionId, Ok)
  {
    if e.OfStarter? {
      RequestCancels(s, e.saga, e.start, x);
    } else if e.OfCompensation? {
      CompensationCancels(s, e.actor, e.comp, x);
    } else {
      hide SagaProtocol.Apply, SagaProtocol.Enabled;
      SagaReturns.OthersCancelNothing(s, e);
    }
  }

  lemma RequestCancels(s: SagaProtocol.System, y: SagaId, e: SagaProtocol.StartStep, x: SagaId)
    requires SagaProtocol.CanStart(s, y, e)
    requires x !in s.cancelled && x in SagaProtocol.ApplyStart(s, y, e).cancelled
    ensures y == x && x in s.issued && e == SagaProtocol.CancelReserved(Ok)
  {
    hide InsertRow, SagaProtocol.WithRows, SagaProtocol.CommandFor;
    match e
    case Begin(_, _) =>
    case CreateRow(_) =>
    case CancelReserved(_) =>
    case Register =>
    case PublishCommand(_) =>
    case Receive =>
    case GiveUp(_) =>
    case ReturnAfterCompensation =>
  }

  lemma CompensationCancels(s: SagaProtocol.System, a: SagaProtocol.Actor, e: SagaProtocol.CompensationStep, x: SagaId)
    requires SagaInvariant.Inv(s) && SagaProtocol.CanCompensate(s, a, e)
    requires x !in s.cancelled && x in SagaProtocol.ApplyCompensation(s, a, e).cancelled
    ensures e == SagaProtocol.Cancel(Ok) && x in s.issued
    ensures SagaProtocol.CurrentTask(s, a).c.ToCancel?
    ensures SagaProtocol.CurrentTask(s, a).c.subscriptionId == s.issued[x].subscriptionId
  {
    hide SagaProtocol.TaskOf, SagaProtocol.Resume, SagaProtocol.AfterClaim, SagaProtocol.AfterFetch,
         SagaProtocol.WithRows, ClaimRow, MarkRow;
    hide SagaInvariant.ProcsInv, SagaInvariant.PartsInv, SagaInvariant.CommandsInv, SagaInvariant.RepliesInv,
         SagaInvariant.RowsInv, SagaInvariant.TransitInv, SagaInvariant.CancelsInv, SagaInvariant.WaitersInv,
         Ledger.Inv;
    assert x == SagaProtocol.CurrentTask(s, a).saga by {
      match e
      case Claim(_) =>
      case Fetch(_) =>
      case Cancel(_) =>
      case Mark(_) =>
    }
    SagaSteps.TaskOk(s, a);
    SagaSteps.OneRowOk(SagaInvariant.K(s), s.history, x);
  }

  lemma CancelWritesRow(s: Subscriptions.State, id: nat)
    requires id in s.table.rows
    ensures RefreshRaces.Gone(Subscriptions.Apply(s, Subscriptions.CancelRow(id, Ok)), id)
  {
  }

  /** The call that began the saga names a row that is there. */
  lemma OwnRowIsThere(states: seq<State>, steps: seq<Step>, i: nat, x: SagaId)
    requires IsRun(states, steps) && i < |states| && x in states[i].saga.issued
    ensures IsCallers(states[i], x) && states[i].saga.issued[x].subscriptionId >= 0
    ensures states[i].saga.issued[x].subscriptionId in states[i].table.table.rows
  {
    hide IsRun, Subscriptions.TableOk, Subscriptions.WrittenOk, Subscriptions.StartsOk, ConfirmUrl;
    var s := states[i];
    RunLinked(states, steps, i);
    TableInv(states, steps, i);
    assert Subscriptions.CallOk(s.table.table.rows, s.table.tokens, s.table.written, s.table.calls[s.caller[x]]);
  }

  lemma IssuedStays(s: State, step: Step, x: SagaId)
    requires Enabled(s, step) && x in s.saga.issued
    ensures var issued := Apply(s, step).saga.issued; x in issued && issued[x] == s.saga.issued[x]
  {
    hide Subscriptions.Enabled, Subscriptions.Apply, CancelOf;
    if SagaEvent(s, step).Some? {
      SagaMails.StepKeepsIssued(s.saga, SagaEvent(s, step).value, x);
    }
  }

  /** When Cancel succeeded for a saga, its caller's row was unsubscribed. */
  lemma {:induction false} CancelUnsubscribes(states: seq<State>, steps: seq<Step>, i: nat, x: SagaId) returns (k: nat)
    requires IsRun(states, steps) && i < |states| && x in states[i].saga.cancelled
    ensures k <= i && x in states[i].saga.issued && states[i].saga.issued[x].subscriptionId >= 0
    ensures RefreshRaces.Gone(states[k].table, states[i].saga.issued[x].subscriptionId)
  {
    hide SagaInvariant.Inv, SagaProtocol.Apply, SagaProtocol.Enabled, Subscriptions.Apply, RefreshRaces.Gone, IsCallers;
    var s, step := states[i - 1], steps[i - 1];
    if x in s.saga.cancelled {
      k := CancelUnsubscribes(states, steps, i - 1, x);
      IssuedStays(s, step, x);
    } else {
      k := i;
      SagaInv(states, steps, i - 1);
      NewlyCancelled(s.saga, SagaEvent(s, step).value, x);
      IssuedStays(s, step, x);
      OwnRowIsThere(states, steps, i - 1, x);
      CancelWritesRow(s.table, s.saga.issued[x].subscriptionId);
    }
  }

  lemma {:induction false} UnsubscribedStays(states: seq<State>, steps: seq<Step>, k: nat, i: nat, id: nat)
    requires IsRun(states, steps) && k <= i < |states|
    requires RefreshRaces.Gone(states[k].table, id) && !RefreshRaces.ConfirmUnderway(states[k].table, id)
    ensures RefreshRaces.Gone(states[i].table, id) && !RefreshRaces.ConfirmUnderway(states[i].table, id)
    decreases i
  {
    hide SagaProtocol.Enabled, SagaProtocol.Apply, Subscriptions.Enabled, Subscriptions.Apply, RefreshRaces.Gone,
         RefreshRaces.ConfirmUnderway, RefreshRaces.TargetsAreFinal, TableEvent, SagaEvent;
    if k < i {
      UnsubscribedStays(states, steps, k, i - 1, id);
      TableInv(states, steps, i - 1);
      if TableEvent(states[i - 1], steps[i - 1]).Some? {
        RefreshRaces.GoneStays(states[i - 1].table, TableEvent(states[i - 1], steps[i - 1]).value, id);
      }
    }
  }

  /** A failed saga: at some time its caller's own row was unsubscribed, and it still is
      unless a Confirm had that row in hand at the time. */
  lemma FailedSagaIsUnsubscribed(states: seq<State>, steps: seq<Step>, i: nat, x: SagaId) returns (k: nat)
    requires IsRun(states, steps) && i < |states| && InState(states[i].saga.rows, x, Failed)
    ensures k <= i && IsCallers(states[i], x)
    ensures var id := states[i].table.calls[states[i].caller[x]].pc.id;
            && RefreshRaces.Gone(states[k].table, id)
            && (RefreshRaces.ConfirmUnderway(states[k].table, id) || RefreshRaces.Gone(states[i].table, id))
  {
    hide IsRun, RefreshRaces.Gone, RefreshRaces.ConfirmUnderway, ConfirmUrl;
    var systems, events, _ := SagaRun(states, steps, i);
    SagaTheorems.FailedOnlyAfterCancel(systems, events, |events|, x);
    hide SagaProtocol.IsRun;
    k := CancelUnsubscribes(states, steps, i, x);
    OwnRowIsThere(states, steps, i, x);
    var id := states[i].table.calls[states[i].caller[x]].pc.id;
    if !RefreshRaces.ConfirmUnderway(states[k].table, id) {
      UnsubscribedStays(states, steps, k, i, id);
    }
  }
}
