/** The poller and the subscriptions table as one system: who is told about a release
    has confirmed the subscription. */
module NotifyEndToEnd {
  import opened Base
  import Poller
  import Subscriptions
  import RefreshRaces

  /** The poller reads the table that the requests write. */
  datatype State = State(poller: Poller.State, subs: Subscriptions.State)

  datatype Step =
    | Poll(event: Poller.Event)
    | Serve(request: Subscriptions.Event)

  ghost predicate Enabled(s: State, step: Step) {
    match step
    case Poll(e) => !e.ChangeSubscriptions? && Poller.Enabled(s.poller, e)
    case Serve(e) => Subscriptions.Enabled(s.subs, e)
  }

  ghost function Apply(s: State, step: Step): State
    requires Enabled(s, step)
  {
    match step
    case Poll(e) => s.(poller := Poller.Apply(s.poller, e))
    case Serve(e) =>
      var subs := Subscriptions.Apply(s.subs, e);
      State(s.poller.(subscriptions := subs.table), subs)
  }

  ghost predicate IsStart(s: State) {
    s.subs == Subscriptions.INITIAL && Poller.Init(s.poller) && s.poller.subscriptions == s.subs.table
  }

  ghost predicate IsRun(states: seq<State>, steps: seq<Step>) {
    && |states| == |steps| + 1 && IsStart(states[0])
    && forall i :: 0 <= i < |steps| ==> Enabled(states[i], steps[i]) && states[i + 1] == Apply(states[i], steps[i])
  }

  // ---------------------------------------------------------------------------
  // What every step keeps

  /** A Confirm or Unsubscribe that found a row was given a token of that row. */
  ghost predicate FoundByToken(s: Subscriptions.State) {
    forall c :: c in s.statusCalls && s.statusCalls[c].found.Some? ==>
      (s.statusCalls[c].found.value, s.statusCalls[c].token) in s.written
  }

  ghost predicate Inv(s: State) {
    && Subscriptions.Inv(s.subs) && RefreshRaces.TargetsAreFinal(s.subs) && FoundByToken(s.subs)
    && s.poller.subscriptions == s.subs.table
  }

  lemma FoundStays(s: Subscriptions.State, e: Subscriptions.Event)
    requires Subscriptions.Inv(s) && Subscriptions.Enabled(s, e) && FoundByToken(s)
    ensures FoundByToken(Subscriptions.Apply(s, e))
  {
    hide Subscriptions.TableOk, Subscriptions.CallsOk, Subscriptions.StartsOk, Subscriptions.TokenTaken,
         Subscriptions.HasLiveTwin;
    match e
    case Begin(_, _, _, _) =>
    case Read(_, _, _) =>
    case Refresh(_, _) =>
    case Upsert(_, _) =>
    case InsertRow(_, _) =>
    case Fail(_) =>
    case BeginStatus(_, _, _) =>
    case Lookup(_, _) =>
    case SetStatus(_, _) =>
    case CancelRow(_, _) =>
  }

  lemma PollLeavesTable(s: Poller.State, e: Poller.Event)
    requires Poller.Enabled(s, e) && !e.ChangeSubscriptions?
    ensures Poller.Apply(s, e).subscriptions == s.subscriptions
  {
    hide Poller.Commit, Poller.AfterFetch, Poller.IsSnapshot;
  }

  lemma StepKeepsInv(s: State, step: Step)
    requires Inv(s) && Enabled(s, step)
    ensures Inv(Apply(s, step))
  {
    hide Subscriptions.Inv, RefreshRaces.TargetsAreFinal, FoundByToken, Subscriptions.Enabled, Subscriptions.Apply,
         Poller.Enabled, Poller.Apply;
    match step
    case Poll(e) => PollLeavesTable(s.poller, e);
    case Serve(e) =>
      Subscriptions.StepKeepsInv(s.subs, e);
      RefreshRaces.TargetsStayFinal(s.subs, e);
      FoundStays(s.subs, e);
  }

  lemma {:induction false} RunInv(states: seq<State>, steps: seq<Step>, i: nat)
    requires IsRun(states, steps) && i < |states|
    ensures Inv(states[i])
  {
    if i > 0 {
      hide Inv, Enabled, Apply;
      RunInv(states, steps, i - 1);
      StepKeepsInv(states[i - 1], steps[i - 1]);
    }
  }

  /** The step as the poller sees it. */
  function PollEvent(step: Step, after: State): Poller.Event {
    match step
    case Poll(e) => e
    case Serve(_) => Poller.ChangeSubscriptions(after.subs.table)
  }

  /** The poller has a run of its own in it, step by step. */
  lemma PollerRun(states: seq<State>, steps: seq<Step>, i: nat)
    returns (pollers: seq<Poller.State>, events: seq<Poller.Event>)
    requires IsRun(states, steps) && i < |states|
    ensures Poller.IsRun(pollers, events) && |events| == i && |pollers| == i + 1
    ensures forall k :: 0 <= k <= i ==> pollers[k] == states[k].poller
    ensures forall k :: 0 <= k < i && events[k].List? ==> steps[k] == Poll(events[k])
  {
    hide Inv, Subscriptions.Enabled, Subscriptions.Apply, Poller.Init, Poller.Enabled, Poller.Apply;
    pollers := seq(i + 1, k requires 0 <= k <= i => states[k].poller);
    events := seq(i, k requires 0 <= k < i => PollEvent(steps[k], states[k + 1]));
    forall k | 0 <= k < i
      ensures Poller.Enabled(pollers[k], events[k]) && pollers[k + 1] == Poller.Apply(pollers[k], events[k]) {
      RunInv(states, steps, k + 1);
      PollerSteps(states[k], steps[k]);
    }
  }

  lemma PollerSteps(s: State, step: Step)
    requires Enabled(s, step) && Inv(Apply(s, step))
    ensures var e := PollEvent(step, Apply(s, step));
            Poller.Enabled(s.poller, e) && Apply(s, step).poller == Poller.Apply(s.poller, e)
  {
    hide Subscriptions.CallsOk, Subscriptions.WrittenOk, Subscriptions.StartsOk, Subscriptions.Apply;
  }

  // ---------------------------------------------------------------------------
  // Only a Confirm makes a row active

  /** The step writes the status active to row `id`, for the token `token`. */
  predicate ConfirmsRow(s: State, step: Step, id: nat, token: string) {
    && step.Serve? && step.request.SetStatus? && step.request.out.TakesEffect()
    && step.request.c in s.subs.statusCalls
    && s.subs.statusCalls[step.request.c] == Subscriptions.StatusCall(token, Subscriptions.Active, Some(id))
  }

  lemma NewRowsArePending(s: Subscriptions.State, e: Subscriptions.Event, id: nat)
    requires Subscriptions.Enabled(s, e) && id !in s.table.rows && id in Subscriptions.Apply(s, e).table.rows
    ensures Subscriptions.Apply(s, e).table.rows[id].status == Subscriptions.Pending
  {
    hide Subscriptions.TokenTaken, Subscriptions.HasLiveTwin;
  }

  lemma StepActivates(s: State, step: Step, id: nat) returns (token: string)
    requires Inv(s) && Enabled(s, step)
    requires var rows := Apply(s, step).subs.table.rows; id in rows && rows[id].status == Subscriptions.Active
    ensures (id in s.subs.table.rows && s.subs.table.rows[id].status == Subscriptions.Active) ||
            (ConfirmsRow(s, step, id, token) && (id, token) in s.subs.written)
  {
    hide Subscriptions.CallsOk, Subscriptions.WrittenOk, Subscriptions.StartsOk, Subscriptions.TableOk,
         Subscriptions.Enabled, Subscriptions.Apply, Poller.Apply, Poller.Enabled;
    token := "";
    if step.Serve? {
      if id in s.subs.table.rows {
        RefreshRaces.StepMovesStatus(s.subs, step.request, id);
        if step.request.SetStatus? && step.request.c in s.subs.statusCalls {
          token := s.subs.statusCalls[step.request.c].token;
        }
      } else {
        NewRowsArePending(s.subs, step.request, id);
      }
    }
  }

  /** A row that is active was made so by a Confirm that was given a token of the row. */
  lemma {:induction false} ActiveWasConfirmed(states: seq<State>, steps: seq<Step>, i: nat, id: nat)
    returns (k: nat, token: string)
    requires IsRun(states, steps) && i < |states|
    requires id in states[i].subs.table.rows && states[i].subs.table.rows[id].status == Subscriptions.Active
    ensures k < i && ConfirmsRow(states[k], steps[k], id, token) && (id, token) in states[k].subs.written
  {
    hide Inv, Enabled, Apply, ConfirmsRow;
    RunInv(states, steps, i - 1);
    token := StepActivates(states[i - 1], steps[i - 1], id);
    k := i - 1;
    var s := states[i - 1].subs.table.rows;
    if id in s && s[id].status == Subscriptions.Active {
      k, token := ActiveWasConfirmed(states, steps, i - 1, id);
    }
  }

  /** A notice about a release goes only to an address with a row of that repository for
      which a Confirm has taken effect, with a token that was written to that row. */
  lemma NotifiedHaveConfirmed(states: seq<State>, steps: seq<Step>, i: nat, n: Poller.Notice)
    returns (k: nat, l: nat, id: nat, token: string)
    requires IsRun(states, steps) && i < |states| && n in states[i].poller.book.notices
    ensures k < l < i && ConfirmsRow(states[k], steps[k], id, token) && (id, token) in states[k].subs.written
    ensures steps[l].Poll? && steps[l].event.List? && n.repo in states[i].poller.repos
    ensures var rows, repo := states[l].subs.table.rows, states[i].poller.repos[n.repo];
            && id in rows && rows[id].email == n.email && rows[id].status == Subscriptions.Active
            && rows[id].owner == repo.owner && rows[id].name == repo.name
  {
    hide Enabled, Apply, ConfirmsRow, Poller.Enabled, Poller.Apply, Poller.Init;
    var pollers, events := PollerRun(states, steps, i);
    l, id := Poller.NoticeNeedsActiveRow(pollers, events, i, n);
    RunInv(states, steps, l);
    k, token := ActiveWasConfirmed(states, steps, l, id);
  }
}
