/** What can happen to a row between the read and the write of a call: the token
    refresh does not look at the status, and Confirm does not look again. */
module RefreshRaces {
  import opened Base
  import opened Subscriptions

  // ---------------------------------------------------------------------------
  // How a row's status moves

  /** The status that a step writes to row `id`, if it writes one. */
  ghost function StatusWritten(s: State, e: Event, id: nat): Option<Status> {
    match e
    case SetStatus(c, out) =>
      if c in s.statusCalls && s.statusCalls[c].found == Some(id) && out.TakesEffect() &&
         UpdateStatusResult(s.table, id, s.statusCalls[c].target).Written?
      then Some(s.statusCalls[c].target) else None
    case CancelRow(i, out) =>
      if i == id && id in s.table.rows && out.TakesEffect() then Some(Unsubscribed) else None
    case _ => None
  }

  lemma StepMovesStatus(s: State, e: Event, id: nat)
    requires TableOk(s.table) && Enabled(s, e) && id in s.table.rows
    ensures var rows := Apply(s, e).table.rows;
            && id in rows
            && rows[id].status ==
                 match StatusWritten(s, e, id) case Some(status) => status case None => s.table.rows[id].status
  {
    hide TableOk, TokenTaken, SamePair, HasLiveTwin;
    match e
    case Begin(_, _, _, _) =>
    case Read(_, _, _) =>
    case Refresh(_, _) =>
    case Upsert(_, _) =>
    case InsertRow(_, _) => IdsAreBelow(s.table);
    case Fail(_) =>
    case BeginStatus(_, _, _) =>
    case Lookup(_, _) =>
    case SetStatus(_, _) =>
    case CancelRow(_, _) =>
  }

  /** The last status written to row `id` by the steps from `from` up to `till`. */
  ghost function LastWritten(states: seq<State>, events: seq<Event>, from: nat, till: nat, id: nat): Option<Status>
    requires from <= till <= |events| && |events| < |states|
    decreases till
  {
    if till == from then None
    else
      match StatusWritten(states[till - 1], events[till - 1], id)
      case Some(status) => Some(status)
      case None => LastWritten(states, events, from, till - 1, id)
  }

  ghost predicate NoStatusWritten(states: seq<State>, events: seq<Event>, from: nat, till: nat, id: nat)
    requires from <= till <= |events| && |events| < |states|
  {
    forall k :: from <= k < till ==> StatusWritten(states[k], events[k], id).None?
  }

  lemma {:induction false} RunMovesStatus(states: seq<State>, events: seq<Event>, from: nat, till: nat, id: nat)
    requires IsRun(states, events) && from <= till < |states| && id in states[from].table.rows
    ensures id in states[till].table.rows
    ensures states[till].table.rows[id].status ==
            match LastWritten(states, events, from, till, id)
            case Some(status) => status
            case None => states[from].table.rows[id].status
    decreases till
  {
    hide Enabled, Apply, StatusWritten, TableOk, CallsOk, WrittenOk, StartsOk;
    if from < till {
      RunMovesStatus(states, events, from, till - 1, id);
      RunInv(states, events, till - 1);
      StepMovesStatus(states[till - 1], events[till - 1], id);
    }
  }

  lemma {:induction false} NoneWrittenLast(states: seq<State>, events: seq<Event>, from: nat, till: nat, id: nat)
    requires from <= till <= |events| && |events| < |states|
    ensures LastWritten(states, events, from, till, id).None? <==> NoStatusWritten(states, events, from, till, id)
    decreases till
  {
    hide StatusWritten;
    if from < till {
      NoneWrittenLast(states, events, from, till - 1, id);
    }
  }

  /** Confirm and Unsubscribe never ask for pending. */
  ghost predicate TargetsAreFinal(s: State) {
    forall c :: c in s.statusCalls ==> s.statusCalls[c].target != Pending
  }

  lemma {:induction false} RunTargetsAreFinal(states: seq<State>, events: seq<Event>, i: nat)
    requires IsRun(states, events) && i < |states|
    ensures TargetsAreFinal(states[i])
  {
    if i > 0 {
      RunTargetsAreFinal(states, events, i - 1);
      TargetsStayFinal(states[i - 1], events[i - 1]);
    }
  }

  lemma TargetsStayFinal(s: State, e: Event)
    requires TargetsAreFinal(s) && Enabled(s, e)
    ensures TargetsAreFinal(Apply(s, e))
  {
  }

  lemma {:induction false} PendingIsNotWritten(states: seq<State>, events: seq<Event>, from: nat, till: nat, id: nat)
    requires IsRun(states, events) && from <= till <= |events|
    ensures LastWritten(states, events, from, till, id) != Some(Pending)
    decreases till
  {
    hide Enabled, Apply;
    if from < till {
      PendingIsNotWritten(states, events, from, till - 1, id);
      RunTargetsAreFinal(states, events, till - 1);
    }
  }

  // ---------------------------------------------------------------------------
  // From the read to the refresh

  /** After its read a call stays where it is until its own next step. */
  lemma CallWaits(s: State, e: Event, c: nat)
    requires Enabled(s, e) && c in s.calls && !s.calls[c].pc.ToRead?
    ensures var calls := Apply(s, e).calls;
            c in calls && !calls[c].pc.ToRead? && (calls[c].pc.ToRefresh? ==> calls[c] == s.calls[c])
  {
    match e
    case Begin(_, _, _, _) =>
    case Read(_, _, _) =>
    case Refresh(_, _) =>
    case Upsert(_, _) =>
    case InsertRow(_, _) =>
    case Fail(_) =>
    case BeginStatus(_, _, _) =>
    case Lookup(_, _) =>
    case SetStatus(_, _) =>
    case CancelRow(_, _) =>
  }

  lemma {:induction false} WaitsSinceRead(states: seq<State>, events: seq<Event>, r: nat, i: nat, c: nat)
    requires IsRun(states, events) && r < i < |states| && events[r].Read? && events[r].c == c
    ensures c in states[i].calls && !states[i].calls[c].pc.ToRead? && c in states[r + 1].calls
    ensures states[i].calls[c].pc.ToRefresh? ==> states[i].calls[c] == states[r + 1].calls[c]
    decreases i
  {
    if i == r + 1 {
      assert Enabled(states[r], events[r]);
    } else {
      hide Enabled, Apply;
      WaitsSinceRead(states, events, r, i - 1, c);
      CallWaits(states[i - 1], events[i - 1], c);
    }
  }

  /** A call that gets as far as its refresh read a pending row. */
  lemma RefresherReadPending(states: seq<State>, events: seq<Event>, r: nat, i: nat, c: nat, id: nat)
    requires IsRun(states, events) && r < i < |events|
    requires events[r].Read? && events[r].c == c && events[r].found == Some(id)
    requires events[i].Refresh? && events[i].c == c
    ensures id in states[r].table.rows && states[r].table.rows[id].status == Pending
    ensures c in states[i].calls
    ensures states[i].calls[c].pc == ToRefresh(id, states[r].table.rows[id].token, events[r].token)
    ensures states[r + 1].table == states[r].table
  {
    hide TableOk, StartsOk, CallsOk, WrittenOk;
    WaitsSinceRead(states, events, r, i, c);
    assert Enabled(states[r], events[r]) && Enabled(states[i], events[i]);
    assert states[r + 1].calls[c].pc.ToRefresh?;
  }

  /** A refresh that takes effect finds the row pending exactly when no status was
      written to it since it was read; otherwise it finds the last status written,
      active or unsubscribed. */
  lemma RefreshFindsPendingIffStatusUntouched(states: seq<State>, events: seq<Event>, r: nat, i: nat, c: nat, id: nat)
    requires IsRun(states, events) && r < i < |events|
    requires events[r].Read? && events[r].c == c && events[r].found == Some(id)
    requires events[i].Refresh? && events[i].c == c
    ensures id in states[i].table.rows
    ensures var status := states[i].table.rows[id].status;
            && (status == Pending <==> NoStatusWritten(states, events, r + 1, i, id))
            && (status != Pending ==> LastWritten(states, events, r + 1, i, id) == Some(status))
    ensures c in states[i + 1].calls && id in states[i + 1].table.rows
    ensures states[i + 1].table.rows[id].status == states[i].table.rows[id].status
  {
    hide Enabled, Apply, TableOk, CallsOk, WrittenOk, StartsOk;
    RefresherReadPending(states, events, r, i, c, id);
    RunMovesStatus(states, events, r + 1, i, id);
    NoneWrittenLast(states, events, r + 1, i, id);
    PendingIsNotWritten(states, events, r + 1, i, id);
    RunInv(states, events, i);
    StepMovesStatus(states[i], events[i], id);
    WaitsSinceRead(states, events, r, i + 1, c);
  }

  // ---------------------------------------------------------------------------
  // Who wins

  /** A refresh of row `id` takes effect. */
  predicate TokenWritten(s: State, e: Event, id: nat) {
    && e.Refresh? && e.c in s.calls && s.calls[e.c].pc.ToRefresh? && s.calls[e.c].pc.id == id && e.out.TakesEffect()
    && UpdateTokenResult(s.table, id, s.calls[e.c].pc.oldToken, s.calls[e.c].pc.newToken).Written?
  }

  /** A row's token changes when it is written and only to one that was never written. */
  lemma StepMovesToken(s: State, e: Event, id: nat)
    requires Inv(s) && Enabled(s, e) && id in s.table.rows
    ensures var s' := Apply(s, e);
            && id in s'.table.rows && s.written <= s'.written
            && (!TokenWritten(s, e, id) ==> s'.table.rows[id].token == s.table.rows[id].token)
            && (TokenWritten(s, e, id) ==> Unwritten(s.written, s'.table.rows[id].token))
  {
    hide TableOk, StartsOk, WrittenOk;
    match e
    case Begin(_, _, _, _) =>
    case Read(_, _, _) =>
    case Refresh(c, _) => assert CallOk(s.table.rows, s.tokens, s.written, s.calls[c]);
    case Upsert(_, _) =>
    case InsertRow(_, _) => IdsAreBelow(s.table);
    case Fail(_) =>
    case BeginStatus(_, _, _) =>
    case Lookup(_, _) =>
    case SetStatus(_, _) =>
    case CancelRow(_, _) =>
  }

  /** A token that was replaced never comes back. */
  lemma {:induction false} TokenStaysIffNotWritten(states: seq<State>, events: seq<Event>, from: nat, till: nat,
                                                   id: nat)
    requires IsRun(states, events) && from <= till < |states| && id in states[from].table.rows
    ensures id in states[till].table.rows && (id, states[from].table.rows[id].token) in states[till].written
    ensures states[till].table.rows[id].token == states[from].table.rows[id].token <==>
            forall k :: from <= k < till ==> !TokenWritten(states[k], events[k], id)
    decreases till
  {
    hide Enabled, Apply, TokenWritten, TableOk, CallsOk, StartsOk;
    RunInv(states, events, from);
    if from < till {
      TokenStaysIffNotWritten(states, events, from, till - 1, id);
      RunInv(states, events, till - 1);
      hide Inv;
      StepMovesToken(states[till - 1], events[till - 1], id);
    }
  }

  /** A refresh wins exactly when it works and no other refresh of the row took effect
      since the read. */
  lemma RefreshWinsIffNoOtherSinceRead(states: seq<State>, events: seq<Event>, r: nat, i: nat, c: nat, id: nat)
    requires IsRun(states, events) && r < i < |events|
    requires events[r].Read? && events[r].c == c && events[r].found == Some(id)
    requires events[i].Refresh? && events[i].c == c
    ensures c in states[i + 1].calls
    ensures states[i + 1].calls[c].pc.Started? <==>
            events[i].out.Ok? && forall k :: r < k < i ==> !TokenWritten(states[k], events[k], id)
  {
    hide Enabled, Apply, TokenWritten, TableOk, CallsOk, WrittenOk, StartsOk;
    RefresherReadPending(states, events, r, i, c, id);
    TokenStaysIffNotWritten(states, events, r + 1, i, id);
    WaitsSinceRead(states, events, r, i + 1, c);
    RefreshWinsIffTokenUnchanged(states, events, i, c, events[i].out);
  }

  // ---------------------------------------------------------------------------
  // What Confirm and Unsubscribe do

  /** The lookup ends a Confirm exactly if no row has the token or the row is not pending,
      and an Unsubscribe exactly if no row has it or the row is unsubscribed already;
      otherwise the row that has the token is the one to be written. */
  lemma LookupEndsOnlyWhatIsDone(states: seq<State>, events: seq<Event>, i: nat, c: nat, found: Option<nat>)
    requires IsRun(states, events) && i < |events| && events[i] == Lookup(c, found)
    ensures c in states[i].statusCalls
    ensures var call, rows, calls' := states[i].statusCalls[c], states[i].table.rows, states[i + 1].statusCalls;
            && (call.target == Unsubscribed ==>
                  (c !in calls' <==>
                     forall id :: id in rows && rows[id].token == call.token ==> rows[id].status == Unsubscribed))
            && (call.target == Active ==>
                  (c !in calls' <==>
                     forall id :: id in rows && rows[id].token == call.token ==> rows[id].status != Pending))
            && (c in calls' ==> exists id :: calls'[c] == call.(found := Some(id)) && id in rows &&
                                             rows[id].token == call.token)
  {
    hide CallsOk, WrittenOk, StartsOk;
    RunInv(states, events, i);
    assert Enabled(states[i], events[i]);
    var call, rows := states[i].statusCalls[c], states[i].table.rows;
    if found.Some? {
      forall id | id in rows && rows[id].token == call.token ensures id == found.value {
      }
    }
  }

  /** The write that follows gives the row its new status, except that a row does not
      become active while another live one of its address and repository is there. */
  lemma StatusIsWritten(states: seq<State>, events: seq<Event>, i: nat, c: nat, out: Outcome, id: nat)
    requires IsRun(states, events) && i < |events| && events[i] == SetStatus(c, out) && out != ErrNoEffect
    requires c in states[i].statusCalls && states[i].statusCalls[c].found == Some(id) && id in states[i].table.rows
    ensures var rows, target := states[i].table.rows, states[i].statusCalls[c].target;
            && id in states[i + 1].table.rows
            && (target == Unsubscribed ==> states[i + 1].table.rows[id].status == Unsubscribed)
            && (target == Active &&
                (forall j :: j in rows && j != id && SamePair(rows[j], rows[id]) ==> rows[j].status == Unsubscribed) ==>
                  states[i + 1].table.rows[id].status == Active)
  {
    assert Enabled(states[i], events[i]);
  }

  // ---------------------------------------------------------------------------
  // Is unsubscribed final?

  /** A Confirm has found row `id` pending and has not written yet. */
  ghost predicate ConfirmUnderway(s: State, id: nat) {
    exists c :: c in s.statusCalls && Confirms(s.statusCalls[c], id)
  }

  predicate Confirms(call: StatusCall, id: nat) {
    call.target == Active && call.found == Some(id)
  }

  ghost predicate Gone(s: State, id: nat) {
    id in s.table.rows && s.table.rows[id].status == Unsubscribed
  }

  lemma GoneStays(s: State, e: Event, id: nat)
    requires TableOk(s.table) && TargetsAreFinal(s) && Enabled(s, e) && Gone(s, id) && !ConfirmUnderway(s, id)
    ensures Gone(Apply(s, e), id) && !ConfirmUnderway(Apply(s, e), id)
  {
    hide TableOk;
    StepMovesStatus(s, e, id);
    match e
    case Begin(_, _, _, _) =>
    case Read(_, _, _) =>
    case Refresh(_, _) =>
    case Upsert(_, _) =>
    case InsertRow(_, _) =>
    case Fail(_) =>
    case BeginStatus(_, _, _) =>
    case Lookup(_, _) =>
    case SetStatus(c, _) => assert !Confirms(s.statusCalls[c], id);
    case CancelRow(_, _) =>
  }

  /** An unsubscribed row that no Confirm has in hand stays unsubscribed for ever. */
  lemma {:induction false} UnsubscribedIsFinal(states: seq<State>, events: seq<Event>, i: nat, j: nat, id: nat)
    requires IsRun(states, events) && i <= j < |states| && Gone(states[i], id) && !ConfirmUnderway(states[i], id)
    ensures Gone(states[j], id) && !ConfirmUnderway(states[j], id)
    decreases j
  {
    hide Enabled, Apply, TableOk, CallsOk, WrittenOk, StartsOk, Gone, ConfirmUnderway, TargetsAreFinal;
    if i < j {
      UnsubscribedIsFinal(states, events, i, j - 1, id);
      RunInv(states, events, j - 1);
      RunTargetsAreFinal(states, events, j - 1);
      GoneStays(states[j - 1], events[j - 1], id);
    }
  }

  /** One that a Confirm has in hand can come back: two steps suffice. */
  lemma ConfirmUnderwayRevives(states: seq<State>, events: seq<Event>, id: nat)
    returns (states': seq<State>, events': seq<Event>)
    requires IsRun(states, events) && Gone(states[|events|], id) && ConfirmUnderway(states[|events|], id)
    ensures IsRun(states', events') && states <= states' && events <= events'
    ensures id in states'[|events'|].table.rows && states'[|events'|].table.rows[id].status == Active
  {
    hide IsRun;
    states', events' := states, events;
    RunHasStates(states, events);
    var s := states[|events|];
    var c :| c in s.statusCalls && Confirms(s.statusCalls[c], id);
    if twin :| twin in s.table.rows && IsTwin(s.table.rows, id, twin) {
      OnlyTwin(states, events, id, twin);
      states', events' := Extend(states', events', CancelRow(twin, Ok));
      s := states'[|events'|];
    }
    assert !HasLiveTwin(s.table.rows, id, s.table.rows[id]);
    states', events' := Extend(states', events', SetStatus(c, Ok));
  }

  lemma RunHasStates(states: seq<State>, events: seq<Event>)
    requires IsRun(states, events)
    ensures |states| == |events| + 1
  {
  }

  /** Another live row of the same address and repository. */
  predicate IsTwin(rows: map<nat, Sub>, id: nat, twin: nat) {
    id in rows && twin in rows && twin != id && Live(rows[twin]) && SamePair(rows[twin], rows[id])
  }

  /** A live twin is the only one, and cancelling it leaves none. */
  lemma OnlyTwin(states: seq<State>, events: seq<Event>, id: nat, twin: nat)
    requires IsRun(states, events) && Gone(states[|events|], id)
    requires IsTwin(states[|events|].table.rows, id, twin)
    ensures var rows := Apply(states[|events|], CancelRow(twin, Ok)).table.rows;
            id in rows && rows[id] == states[|events|].table.rows[id] && !HasLiveTwin(rows, id, rows[id])
  {
    hide Enabled, CallsOk, WrittenOk, StartsOk, IsRun;
    RunHasStates(states, events);
    RunInv(states, events, |events|);
  }

  lemma Extend(states: seq<State>, events: seq<Event>, e: Event) returns (states': seq<State>, events': seq<Event>)
    requires IsRun(states, events) && |states| == |events| + 1 && Enabled(states[|events|], e)
    ensures IsRun(states', events') && states' == states + [Apply(states[|events|], e)] && events' == events + [e]
  {
    hide Enabled, Apply;
    states', events' := states + [Apply(states[|events|], e)], events + [e];
  }

  // ---------------------------------------------------------------------------
  // Runs that lead astray

  const STORY_ROW := Sub("e", "o", "n", "t0", Pending)
  const STORY_CALL := Call("e", "o", "n", None, ToRead)

  function StoryTable(status: Status, token: string): Table {
    Table(1, map[0 := STORY_ROW.(status := status, token := token)], {("o", "n")})
  }

  /** The first subscriber has created row 0 and started a saga. */
  function StoryCreated(): State {
    State(StoryTable(Pending, "t0"), map[0 := STORY_CALL.(pc := Started(0, "t0"))], map[], {"t0"}, {(0, "t0")})
  }

  /** The second subscriber has read the pending row. */
  function StoryRead(): State {
    StoryCreated().(tokens := {"t0", "t1"},
      calls := map[0 := STORY_CALL.(pc := Started(0, "t0")),
                   1 := STORY_CALL.(seen := Some((0, "t0")), pc := ToRefresh(0, "t0", "t1"))])
  }

  lemma StoryCreates() returns (states: seq<State>, events: seq<Event>)
    ensures IsRun(states, events) && |events| == 4 && |states| == 5 && states[4] == StoryCreated()
  {
    states, events := [INITIAL], [];
    states, events := Extend(states, events, Begin(0, "e", "o", "n"));
    states, events := Extend(states, events, Read(0, None, "t0"));
    states, events := Extend(states, events, Upsert(0, Ok));
    states, events := Extend(states, events, InsertRow(0, Ok));
    assert states[4] == StoryCreated();
  }

  lemma StoryReads() returns (states: seq<State>, events: seq<Event>)
    ensures IsRun(states, events) && |events| == 6 && |states| == 7 && states[6] == StoryRead()
    ensures events[5] == Read(1, Some(0), "t1")
  {
    hide IsRun;
    states, events := StoryCreates();
    states, events := Extend(states, events, Begin(1, "e", "o", "n"));
    states, events := Extend(states, events, Read(1, Some(0), "t1"));
    assert states[6] == StoryRead();
  }

  /** A Confirm has read row 0 in state `s`; the rest is as before. */
  lemma StoryLooksUp(states: seq<State>, events: seq<Event>) returns (states': seq<State>, events': seq<Event>)
    requires IsRun(states, events) && |states| == |events| + 1
    requires states[|events|].table == StoryTable(Pending, "t0") && 0 !in states[|events|].statusCalls
    ensures IsRun(states', events') && states <= states' && events <= events'
    ensures |events'| == |events| + 2 && |states'| == |events'| + 1
    ensures var s := states[|events|];
            states'[|events'|] == s.(statusCalls := s.statusCalls[0 := StatusCall("t0", Active, Some(0))])
  {
    hide IsRun;
    states', events' := Extend(states, events, BeginStatus(0, "t0", Active));
    states', events' := Extend(states', events', Lookup(0, Some(0)));
  }

  /** The second subscriber refreshes a row that has the given status by now. */
  lemma StoryRefreshes(states: seq<State>, events: seq<Event>, status: Status)
    returns (states': seq<State>, events': seq<Event>)
    requires IsRun(states, events) && |states| == |events| + 1
    requires states[|events|].table == StoryTable(status, "t0") && states[|events|].calls == StoryRead().calls
    ensures IsRun(states', events') && |events'| == |events| + 1 && |states'| == |events'| + 1 && events <= events'
    ensures var s := states'[|events'|];
            s.table == StoryTable(status, "t1") && 1 in s.calls && s.calls[1].pc == Started(0, "t1")
  {
    hide IsRun;
    states', events' := Extend(states, events, Refresh(1, Ok));
  }

  /** A re-subscribe that read a pending row can, after the row was confirmed, still
      win the refresh: it replaces the token of an active subscription and starts a
      saga whose compensation would cancel it. */
  lemma RefreshCanWinOnActiveRow() returns (states: seq<State>, events: seq<Event>)
    ensures IsRun(states, events) && |events| == 10 && events[5] == Read(1, Some(0), "t1")
    ensures var s := states[10];
            && 0 in s.table.rows && s.table.rows[0].status == Active && s.table.rows[0].token == "t1"
            && 1 in s.calls && s.calls[1].pc == Started(0, "t1")
  {
    hide IsRun;
    states, events := StoryReads();
    states, events := StoryLooksUp(states, events);
    states, events := Extend(states, events, SetStatus(0, Ok));
    assert states[9].table == StoryTable(Active, "t0");
    states, events := StoryRefreshes(states, events, Active);
    RunHasStates(states, events);
  }

  /** After a compensation or an unsubscribe it wins as well: the saga mails a link
      that Confirm will refuse. */
  lemma RefreshCanWinOnUnsubscribedRow() returns (states: seq<State>, events: seq<Event>)
    ensures IsRun(states, events) && |events| == 8 && events[5] == Read(1, Some(0), "t1")
    ensures var s := states[8];
            && 0 in s.table.rows && s.table.rows[0].status == Unsubscribed && s.table.rows[0].token == "t1"
            && 1 in s.calls && s.calls[1].pc == Started(0, "t1")
  {
    hide IsRun;
    states, events := StoryReads();
    states, events := Extend(states, events, CancelRow(0, Ok));
    assert states[7].table == StoryTable(Unsubscribed, "t0");
    states, events := StoryRefreshes(states, events, Unsubscribed);
    RunHasStates(states, events);
  }

  /** A row that was unsubscribed between the two steps of a Confirm is active again. */
  lemma UnsubscribedCanComeBack() returns (states: seq<State>, events: seq<Event>, i: nat)
    ensures IsRun(states, events) && i < |events| && Gone(states[i], 0)
    ensures 0 in states[|events|].table.rows && states[|events|].table.rows[0].status == Active
  {
    hide IsRun;
    states, events := StoryCreates();
    states, events := StoryLooksUp(states, events);
    states, events := Extend(states, events, CancelRow(0, Ok));
    var s := states[7];
    assert Gone(s, 0) && Confirms(s.statusCalls[0], 0);
    i := 7;
    states, events := ConfirmUnderwayRevives(states, events, 0);
    RunHasStates(states, events);
  }
}
