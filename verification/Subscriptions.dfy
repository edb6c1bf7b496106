/** The subscriptions table, the statements over it, and any number of Subscribe,
    Confirm, Unsubscribe and compensation calls interleaved statement by statement. */
module Subscriptions {
  import opened Base

  datatype Status = Pending | Active | Unsubscribed

  datatype Sub = Sub(email: string, owner: string, name: string, token: string, status: Status)

  /** `next` is the id the next insert gets; `repos` are the tracked repositories. */
  datatype Table = Table(next: nat, rows: map<nat, Sub>, repos: set<(string, string)>)

  predicate Live(sub: Sub) {
    sub.status != Unsubscribed
  }

  predicate SamePair(a: Sub, b: Sub) {
    a.email == b.email && a.owner == b.owner && a.name == b.name
  }

  // ---------------------------------------------------------------------------
  // Statements

  datatype WriteResult = Written(id: nat) | NoRow | LiveConflict | OtherConflict

  /** The partial unique index: another live row for the same address and repository. */
  predicate HasLiveTwin(rows: map<nat, Sub>, id: nat, sub: Sub) {
    exists i :: i in rows && i != id && Live(rows[i]) && SamePair(rows[i], sub)
  }

  predicate TokenTaken(rows: map<nat, Sub>, id: nat, token: string) {
    exists i :: i in rows && i != id && rows[i].token == token
  }

  function InsertResult(t: Table, sub: Sub): WriteResult {
    if Live(sub) && HasLiveTwin(t.rows, t.next, sub) then LiveConflict
    else if TokenTaken(t.rows, t.next, sub.token) || (sub.owner, sub.name) !in t.repos then OtherConflict
    else Written(t.next)
  }

  function Insert(t: Table, sub: Sub): Table {
    if InsertResult(t, sub).Written? then t.(next := t.next + 1, rows := t.rows[t.next := sub]) else t
  }

  /** The compare-and-swap on the token; it does not look at the status. */
  function UpdateTokenResult(t: Table, id: nat, oldToken: string, newToken: string): WriteResult {
    if id !in t.rows || t.rows[id].token != oldToken then NoRow
    else if TokenTaken(t.rows, id, newToken) then OtherConflict
    else Written(id)
  }

  function UpdateToken(t: Table, id: nat, oldToken: string, newToken: string): Table {
    if UpdateTokenResult(t, id, oldToken, newToken).Written?
    then t.(rows := t.rows[id := t.rows[id].(token := newToken)]) else t
  }

  /** Unconditional on the old status; the partial index still applies. */
  function UpdateStatusResult(t: Table, id: nat, status: Status): WriteResult {
    if id !in t.rows then NoRow
    else if status != Unsubscribed && HasLiveTwin(t.rows, id, t.rows[id]) then LiveConflict
    else Written(id)
  }

  function UpdateStatus(t: Table, id: nat, status: Status): Table {
    if UpdateStatusResult(t, id, status).Written?
    then t.(rows := t.rows[id := t.rows[id].(status := status)]) else t
  }

  /** SELECT ... WHERE email, owner, name AND status != unsubscribed. */
  ghost predicate ReadsPair(t: Table, email: string, owner: string, name: string, found: Option<nat>) {
    match found
    case Some(id) => id in t.rows && IsPairRow(t.rows[id], email, owner, name)
    case None => forall i :: i in t.rows ==> !IsPairRow(t.rows[i], email, owner, name)
  }

  predicate IsPairRow(sub: Sub, email: string, owner: string, name: string) {
    Live(sub) && sub.email == email && sub.owner == owner && sub.name == name
  }

  ghost predicate ReadsToken(t: Table, token: string, found: Option<nat>) {
    match found
    case Some(id) => id in t.rows && t.rows[id].token == token
    case None => forall i :: i in t.rows ==> t.rows[i].token != token
  }

  // ---------------------------------------------------------------------------
  // The table's constraints survive every statement

  ghost predicate TableOk(t: Table) {
    && (forall i :: i in t.rows ==> i < t.next && (t.rows[i].owner, t.rows[i].name) in t.repos)
    && (forall i, j :: i in t.rows && j in t.rows && i != j ==> t.rows[i].token != t.rows[j].token)
    && (forall i, j :: i in t.rows && j in t.rows && i != j && Live(t.rows[i]) && Live(t.rows[j]) ==>
          !SamePair(t.rows[i], t.rows[j]))
  }

  lemma InsertKeepsTable(t: Table, sub: Sub)
    requires TableOk(t)
    ensures TableOk(Insert(t, sub))
  {
  }

  lemma UpdateTokenKeepsTable(t: Table, id: nat, oldToken: string, newToken: string)
    requires TableOk(t)
    ensures TableOk(UpdateToken(t, id, oldToken, newToken))
  {
  }

  lemma UpdateStatusKeepsTable(t: Table, id: nat, status: Status)
    requires TableOk(t)
    ensures TableOk(UpdateStatus(t, id, status))
  {
  }

  // ---------------------------------------------------------------------------
  // Calls

  datatype Pc =
    | ToRead
    | ToRefresh(id: nat, oldToken: string, newToken: string)
    | ToUpsert(newToken: string)
    | ToInsert(newToken: string)
    | Started(id: nat, token: string)
    | Rejected

  /** `seen` is the pending row and token that the call read, if it read one. */
  datatype Call = Call(email: string, owner: string, name: string, seen: Option<(nat, string)>, pc: Pc)

  /** A Confirm or Unsubscribe: a lookup by token, then an unconditional update. */
  datatype StatusCall = StatusCall(token: string, target: Status, found: Option<nat>)

  /** `tokens` are all tokens ever generated and `written` the (row, token) pairs
      ever written; nothing in the source reads them. */
  datatype State = State(
    table: Table,
    calls: map<nat, Call>,
    statusCalls: map<nat, StatusCall>,
    tokens: set<string>,
    written: set<(nat, string)>)

  datatype Event =
    | Begin(c: nat, email: string, owner: string, name: string)
    | Read(c: nat, found: Option<nat>, token: string)
    | Refresh(c: nat, out: Outcome)
    | Upsert(c: nat, out: Outcome)
    | InsertRow(c: nat, out: Outcome)
    | Fail(c: nat)
    | BeginStatus(c: nat, token: string, target: Status)
    | Lookup(c: nat, found: Option<nat>)
    | SetStatus(c: nat, out: Outcome)
    | CancelRow(id: nat, out: Outcome)

  const INITIAL := State(Table(0, map[], {}), map[], map[], {}, {})

  ghost predicate Enabled(s: State, e: Event) {
    match e
    case Begin(c, _, _, _) => c !in s.calls
    case Read(c, found, token) =>
      && c in s.calls && s.calls[c].pc.ToRead? && token !in s.tokens
      && ReadsPair(s.table, s.calls[c].email, s.calls[c].owner, s.calls[c].name, found)
    case Refresh(c, _) => c in s.calls && s.calls[c].pc.ToRefresh?
    case Upsert(c, _) => c in s.calls && s.calls[c].pc.ToUpsert?
    case InsertRow(c, _) => c in s.calls && s.calls[c].pc.ToInsert?
    case Fail(c) => c in s.calls && !s.calls[c].pc.Started?
    case BeginStatus(c, _, target) => c !in s.statusCalls && target != Pending
    case Lookup(c, found) =>
      && c in s.statusCalls && s.statusCalls[c].found.None?
      && ReadsToken(s.table, s.statusCalls[c].token, found)
    case SetStatus(c, _) => c in s.statusCalls && s.statusCalls[c].found.Some?
    case CancelRow(_, _) => true
  }

  ghost function Apply(s: State, e: Event): State
    requires Enabled(s, e)
  {
    match e
    case Begin(c, email, owner, name) => s.(calls := s.calls[c := Call(email, owner, name, None, ToRead)])
    case Read(c, found, token) => ApplyRead(s, c, found, token)
    case Refresh(c, out) => ApplyRefresh(s, c, out)
    case Upsert(c, out) => ApplyUpsert(s, c, out)
    case InsertRow(c, out) => ApplyInsert(s, c, out)
    case Fail(c) => SetPc(s, c, Rejected)
    case BeginStatus(c, token, target) => s.(statusCalls := s.statusCalls[c := StatusCall(token, target, None)])
    case Lookup(c, found) => ApplyLookup(s, c, found)
    case SetStatus(c, out) => ApplySetStatus(s, c, out)
    case CancelRow(id, out) =>
      if out.TakesEffect() then s.(table := UpdateStatus(s.table, id, Unsubscribed)) else s
  }

  function SetPc(s: State, c: nat, pc: Pc): State
    requires c in s.calls
  {
    s.(calls := s.calls[c := s.calls[c].(pc := pc)])
  }

  /** An active row ends the call; a pending one is refreshed; none is created. */
  function ApplyRead(s: State, c: nat, found: Option<nat>, token: string): State
    requires c in s.calls && (found.Some? ==> found.value in s.table.rows)
  {
    match found
    case None => SetPc(s.(tokens := s.tokens + {token}), c, ToUpsert(token))
    case Some(id) =>
      var sub := s.table.rows[id];
      if sub.status == Active then SetPc(s, c, Rejected)
      else s.(tokens := s.tokens + {token},
              calls := s.calls[c := s.calls[c].(seen := Some((id, sub.token)), pc := ToRefresh(id, sub.token, token))])
  }

  /** Losing the compare-and-swap, or any error, starts no saga. */
  function ApplyRefresh(s: State, c: nat, out: Outcome): State
    requires c in s.calls && s.calls[c].pc.ToRefresh?
  {
    var pc := s.calls[c].pc;
    var r := UpdateTokenResult(s.table, pc.id, pc.oldToken, pc.newToken);
    var t := if out.TakesEffect() && r.Written?
             then s.(table := UpdateToken(s.table, pc.id, pc.oldToken, pc.newToken),
                     written := s.written + {(pc.id, pc.newToken)})
             else s;
    SetPc(t, c, if out.Ok? && r.Written? then Started(pc.id, pc.newToken) else Rejected)
  }

  function ApplyUpsert(s: State, c: nat, out: Outcome): State
    requires c in s.calls && s.calls[c].pc.ToUpsert?
  {
    var repo := (s.calls[c].owner, s.calls[c].name);
    var t := if out.TakesEffect() then s.(table := s.table.(repos := s.table.repos + {repo})) else s;
    SetPc(t, c, if out.Ok? then ToInsert(s.calls[c].pc.newToken) else Rejected)
  }

  function NewRow(call: Call, token: string): Sub {
    Sub(call.email, call.owner, call.name, token, Pending)
  }

  function ApplyInsert(s: State, c: nat, out: Outcome): State
    requires c in s.calls && s.calls[c].pc.ToInsert?
  {
    var token := s.calls[c].pc.newToken;
    var r := InsertResult(s.table, NewRow(s.calls[c], token));
    var t := if out.TakesEffect() && r.Written?
             then s.(table := Insert(s.table, NewRow(s.calls[c], token)), written := s.written + {(r.id, token)})
             else s;
    SetPc(t, c, if out.Ok? && r.Written? then Started(r.id, token) else Rejected)
  }

  /** Confirm ends on an active or unsubscribed row, Unsubscribe on an unsubscribed one. */
  function ApplyLookup(s: State, c: nat, found: Option<nat>): State
    requires c in s.statusCalls && (found.Some? ==> found.value in s.table.rows)
  {
    var call := s.statusCalls[c];
    var goesOn := found.Some? &&
                  if call.target == Active then s.table.rows[found.value].status == Pending
                  else s.table.rows[found.value].status != Unsubscribed;
    if goesOn then s.(statusCalls := s.statusCalls[c := call.(found := found)])
    else s.(statusCalls := s.statusCalls - {c})
  }

  function ApplySetStatus(s: State, c: nat, out: Outcome): State
    requires c in s.statusCalls && s.statusCalls[c].found.Some?
  {
    var call := s.statusCalls[c];
    var t := s.(statusCalls := s.statusCalls - {c});
    if out.TakesEffect() then t.(table := UpdateStatus(s.table, call.found.value, call.target)) else t
  }

  // ---------------------------------------------------------------------------
  // What every step keeps

  /** The token a call has generated and not yet tried to write. */
  function HeldToken(pc: Pc): Option<string> {
    match pc
    case ToRefresh(_, _, token) => Some(token)
    case ToUpsert(token) => Some(token)
    case ToInsert(token) => Some(token)
    case _ => None
  }

  ghost predicate Unwritten(written: set<(nat, string)>, token: string) {
    forall id :: (id, token) !in written
  }

  predicate RowFor(rows: map<nat, Sub>, id: nat, call: Call) {
    id in rows && rows[id].email == call.email && rows[id].owner == call.owner && rows[id].name == call.name
  }

  ghost predicate CallOk(rows: map<nat, Sub>, tokens: set<string>, written: set<(nat, string)>, call: Call) {
    && (HeldToken(call.pc).Some? ==> HeldToken(call.pc).value in tokens && Unwritten(written, HeldToken(call.pc).value))
    && match call.pc
       case ToRead => call.seen.None?
       case ToRefresh(id, oldToken, _) =>
         call.seen == Some((id, oldToken)) && RowFor(rows, id, call) && (id, oldToken) in written
       case ToUpsert(_) => call.seen.None?
       case ToInsert(_) => call.seen.None?
       case Started(id, token) =>
         && (id, token) in written && RowFor(rows, id, call)
         && (call.seen.Some? ==> call.seen.value.0 == id && call.seen.value in written)
         && (call.seen.Some? ==> rows[id].token != call.seen.value.1)
       case Rejected => true
  }

  ghost predicate CallsOk(rows: map<nat, Sub>, tokens: set<string>, written: set<(nat, string)>,
                          calls: map<nat, Call>) {
    && (forall c :: c in calls ==> CallOk(rows, tokens, written, calls[c]))
    && (forall c, d :: c in calls && d in calls && c != d && HeldToken(calls[c].pc).Some? ==>
          HeldToken(calls[c].pc) != HeldToken(calls[d].pc))
  }

  /** No two sagas were started from the same row and token, nor with the same token. */
  ghost predicate StartsOk(calls: map<nat, Call>) {
    forall c, d :: c in calls && d in calls && c != d && calls[c].pc.Started? && calls[d].pc.Started? ==>
      && calls[c].pc.token != calls[d].pc.token
      && (calls[c].seen.Some? ==> calls[c].seen != calls[d].seen)
  }

  ghost predicate WrittenOk(rows: map<nat, Sub>, tokens: set<string>, written: set<(nat, string)>) {
    && (forall id, token :: (id, token) in written ==> token in tokens)
    && (forall id :: id in rows ==> (id, rows[id].token) in written)
  }

  ghost predicate Inv(s: State) {
    && TableOk(s.table)
    && CallsOk(s.table.rows, s.tokens, s.written, s.calls)
    && WrittenOk(s.table.rows, s.tokens, s.written)
    && StartsOk(s.calls)
  }

  /** Rows keep their address and repository, and a row's token only ever changes
      to one that was never written before. */
  ghost predicate RowsMove(rows: map<nat, Sub>, rows': map<nat, Sub>, written: set<(nat, string)>) {
    forall id :: id in rows ==>
      && id in rows' && SamePair(rows'[id], rows[id])
      && (rows'[id].token == rows[id].token || Unwritten(written, rows'[id].token))
  }

  lemma CallStable(rows: map<nat, Sub>, tokens: set<string>, written: set<(nat, string)>,
                   rows': map<nat, Sub>, tokens': set<string>, written': set<(nat, string)>, call: Call)
    requires CallOk(rows, tokens, written, call) && tokens <= tokens' && written <= written'
    requires RowsMove(rows, rows', written)
    requires HeldToken(call.pc).Some? ==> Unwritten(written', HeldToken(call.pc).value)
    ensures CallOk(rows', tokens', written', call)
  {
  }

  /** One call `c` changed; at most its held token was written. */
  lemma CallsKept(rows: map<nat, Sub>, tokens: set<string>, written: set<(nat, string)>, calls: map<nat, Call>,
                  rows': map<nat, Sub>, tokens': set<string>, written': set<(nat, string)>, c: nat, call': Call)
    requires CallsOk(rows, tokens, written, calls) && tokens <= tokens' && written <= written'
    requires RowsMove(rows, rows', written) && c in calls
    requires forall id, token :: (id, token) in written' ==>
        (id, token) in written || Some(token) == HeldToken(calls[c].pc)
    requires CallOk(rows', tokens', written', call')
    requires HeldToken(call'.pc).Some? ==>
        HeldToken(call'.pc) == HeldToken(calls[c].pc) || HeldToken(call'.pc).value !in tokens
    ensures CallsOk(rows', tokens', written', calls[c := call'])
  {
    forall d | d in calls && d != c ensures CallOk(rows', tokens', written', calls[d]) {
      assert CallOk(rows, tokens, written, calls[d]);
      CallStable(rows, tokens, written, rows', tokens', written', calls[d]);
    }
    forall d | d in calls && HeldToken(calls[d].pc).Some? ensures HeldToken(calls[d].pc).value in tokens {
      assert CallOk(rows, tokens, written, calls[d]);
    }
  }

  lemma CallsStay(s: State, rows': map<nat, Sub>)
    requires CallsOk(s.table.rows, s.tokens, s.written, s.calls) && RowsMove(s.table.rows, rows', s.written)
    ensures CallsOk(rows', s.tokens, s.written, s.calls)
  {
    forall c | c in s.calls ensures CallOk(rows', s.tokens, s.written, s.calls[c]) {
      CallStable(s.table.rows, s.tokens, s.written, rows', s.tokens, s.written, s.calls[c]);
    }
  }

  /** What a step of call `c` has to show about the rows, the tokens and the call. */
  ghost predicate CallMoves(s: State, s': State, c: nat) {
    && c in s.calls && c in s'.calls && s'.calls == s.calls[c := s'.calls[c]]
    && s.tokens <= s'.tokens && s.written <= s'.written && RowsMove(s.table.rows, s'.table.rows, s.written)
    && (forall id, token :: (id, token) in s'.written ==>
          (id, token) in s.written || Some(token) == HeldToken(s.calls[c].pc))
    && CallOk(s'.table.rows, s'.tokens, s'.written, s'.calls[c])
    && (HeldToken(s'.calls[c].pc).Some? ==>
          HeldToken(s'.calls[c].pc) == HeldToken(s.calls[c].pc) || HeldToken(s'.calls[c].pc).value !in s.tokens)
    && WrittenOk(s'.table.rows, s'.tokens, s'.written)
    && StartsFromHeld(s, c, s'.calls[c])
  }

  /** A call that starts a saga does so with the token it held, from a row that still
      has the token that was read. */
  ghost predicate StartsFromHeld(s: State, c: nat, call': Call) {
    c in s.calls && call'.pc.Started? ==>
      && Some(call'.pc.token) == HeldToken(s.calls[c].pc) && call'.seen == s.calls[c].seen
      && (call'.seen.Some? ==>
            && call'.seen.value.0 in s.table.rows
            && s.table.rows[call'.seen.value.0].token == call'.seen.value.1)
  }

  lemma CallStepKeepsInv(s: State, s': State, c: nat)
    requires Inv(s) && CallMoves(s, s', c) && TableOk(s'.table)
    ensures Inv(s')
  {
    hide TableOk, StartsOk, CallsOk, CallOk, RowsMove, WrittenOk, HeldToken, StartsFromHeld;
    CallsKept(s.table.rows, s.tokens, s.written, s.calls, s'.table.rows, s'.tokens, s'.written, c, s'.calls[c]);
    StartsKept(s, c, s'.calls[c]);
  }

  lemma ReadKeepsInv(s: State, c: nat, found: Option<nat>, token: string)
    requires Inv(s) && Enabled(s, Read(c, found, token))
    ensures Inv(ApplyRead(s, c, found, token))
  {
    assert CallMoves(s, ApplyRead(s, c, found, token), c) by {
      hide TableOk, StartsOk;
      assert CallOk(s.table.rows, s.tokens, s.written, s.calls[c]);
      assert Unwritten(s.written, token);
    }
    hide CallMoves, StartsOk, CallsOk, WrittenOk, TableOk;
    CallStepKeepsInv(s, ApplyRead(s, c, found, token), c);
  }

  lemma RefreshMoves(s: State, c: nat, out: Outcome)
    requires Inv(s) && Enabled(s, Refresh(c, out))
    ensures CallMoves(s, ApplyRefresh(s, c, out), c)
  {
    hide TableOk, StartsOk, TokenTaken, RowsMove, WrittenOk;
    assert CallOk(s.table.rows, s.tokens, s.written, s.calls[c]);
    hide CallsOk;
    var pc := s.calls[c].pc;
    TokenMovesRow(s.table.rows, s.tokens, s.written, pc.id, pc.newToken);
  }

  /** A row takes a token that was never written; or nothing happens. */
  lemma TokenMovesRow(rows: map<nat, Sub>, tokens: set<string>, written: set<(nat, string)>, id: nat, token: string)
    requires WrittenOk(rows, tokens, written) && token in tokens && Unwritten(written, token)
    ensures RowsMove(rows, rows, written)
    ensures id in rows ==>
              var rows' := rows[id := rows[id].(token := token)];
              RowsMove(rows, rows', written) && WrittenOk(rows', tokens, written + {(id, token)})
  {
  }

  lemma RefreshKeepsInv(s: State, c: nat, out: Outcome)
    requires Inv(s) && Enabled(s, Refresh(c, out))
    ensures Inv(ApplyRefresh(s, c, out))
  {
    hide CallMoves, StartsOk, CallsOk, WrittenOk, TableOk;
    var pc := s.calls[c].pc;
    UpdateTokenKeepsTable(s.table, pc.id, pc.oldToken, pc.newToken);
    RefreshMoves(s, c, out);
    CallStepKeepsInv(s, ApplyRefresh(s, c, out), c);
  }

  /** A call that starts a saga with its held token joins no earlier start: their
      tokens are written already, and the row they started from has moved on. */
  lemma StartsKept(s: State, c: nat, call': Call)
    requires CallsOk(s.table.rows, s.tokens, s.written, s.calls) && StartsOk(s.calls) && c in s.calls
    requires StartsFromHeld(s, c, call')
    ensures StartsOk(s.calls[c := call'])
  {
    forall d | d in s.calls ensures CallOk(s.table.rows, s.tokens, s.written, s.calls[d]) {
    }
  }

  lemma UpsertKeepsInv(s: State, c: nat, out: Outcome)
    requires Inv(s) && Enabled(s, Upsert(c, out))
    ensures Inv(ApplyUpsert(s, c, out))
  {
    MoreReposKeepTable(s.table, (s.calls[c].owner, s.calls[c].name));
    assert CallMoves(s, ApplyUpsert(s, c, out), c) by {
      hide TableOk, StartsOk;
      assert CallOk(s.table.rows, s.tokens, s.written, s.calls[c]);
    }
    hide CallMoves, StartsOk, CallsOk, WrittenOk, TableOk;
    CallStepKeepsInv(s, ApplyUpsert(s, c, out), c);
  }

  lemma InsertMoves(s: State, c: nat, out: Outcome)
    requires Inv(s) && Enabled(s, InsertRow(c, out))
    ensures CallMoves(s, ApplyInsert(s, c, out), c)
  {
    hide TableOk, StartsOk, TokenTaken, HasLiveTwin;
    IdsAreBelow(s.table);
    assert CallOk(s.table.rows, s.tokens, s.written, s.calls[c]);
    hide CallsOk;
    if out.TakesEffect() && InsertResult(s.table, NewRow(s.calls[c], s.calls[c].pc.newToken)).Written? {
    } else {
    }
  }

  lemma InsertKeepsInv(s: State, c: nat, out: Outcome)
    requires Inv(s) && Enabled(s, InsertRow(c, out))
    ensures Inv(ApplyInsert(s, c, out))
  {
    hide CallMoves, StartsOk, CallsOk, WrittenOk, TableOk;
    InsertKeepsTable(s.table, NewRow(s.calls[c], s.calls[c].pc.newToken));
    InsertMoves(s, c, out);
    CallStepKeepsInv(s, ApplyInsert(s, c, out), c);
  }

  lemma MoreReposKeepTable(t: Table, repo: (string, string))
    requires TableOk(t)
    ensures TableOk(t.(repos := t.repos + {repo}))
  {
  }

  lemma IdsAreBelow(t: Table)
    requires TableOk(t)
    ensures t.next !in t.rows
  {
  }

  lemma StatusKeepsInv(s: State, id: nat, status: Status, s': State)
    requires Inv(s) && s'.table == UpdateStatus(s.table, id, status)
    requires s'.calls == s.calls && s'.tokens == s.tokens && s'.written == s.written
    ensures Inv(s')
  {
    hide TableOk, StartsOk;
    UpdateStatusKeepsTable(s.table, id, status);
    CallsStay(s, s'.table.rows);
  }

  lemma BeginKeepsInv(s: State, c: nat, email: string, owner: string, name: string)
    requires Inv(s) && c !in s.calls
    ensures Inv(s.(calls := s.calls[c := Call(email, owner, name, None, ToRead)]))
  {
    hide TableOk, WrittenOk;
  }

  lemma FailKeepsInv(s: State, c: nat)
    requires Inv(s) && c in s.calls
    ensures Inv(SetPc(s, c, Rejected))
  {
    hide TableOk, StartsOk;
    assert CallOk(s.table.rows, s.tokens, s.written, s.calls[c]);
    CallsKept(s.table.rows, s.tokens, s.written, s.calls, s.table.rows, s.tokens, s.written, c,
              s.calls[c].(pc := Rejected));
    StartsKept(s, c, s.calls[c].(pc := Rejected));
  }

  lemma StepKeepsInv(s: State, e: Event)
    requires Inv(s) && Enabled(s, e)
    ensures Inv(Apply(s, e))
  {
    hide TableOk, CallsOk, WrittenOk, StartsOk, ApplyRead, ApplyRefresh, ApplyUpsert, ApplyInsert, SetPc, UpdateStatus;
    match e
    case Begin(c, email, owner, name) => BeginKeepsInv(s, c, email, owner, name);
    case Read(c, found, token) => ReadKeepsInv(s, c, found, token);
    case Refresh(c, out) => RefreshKeepsInv(s, c, out);
    case Upsert(c, out) => UpsertKeepsInv(s, c, out);
    case InsertRow(c, out) => InsertKeepsInv(s, c, out);
    case Fail(c) => FailKeepsInv(s, c);
    case BeginStatus(_, _, _) =>
    case Lookup(_, _) =>
    case SetStatus(c, out) =>
      if out.TakesEffect() {
        StatusKeepsInv(s, s.statusCalls[c].found.value, s.statusCalls[c].target, Apply(s, e));
      }
    case CancelRow(id, out) =>
      if out.TakesEffect() {
        StatusKeepsInv(s, id, Unsubscribed, Apply(s, e));
      }
  }

  // ---------------------------------------------------------------------------
  // Whole runs

  ghost predicate IsRun(states: seq<State>, events: seq<Event>) {
    && |states| == |events| + 1 && states[0] == INITIAL
    && forall i :: 0 <= i < |events| ==>
         Enabled(states[i], events[i]) && states[i + 1] == Apply(states[i], events[i])
  }

  lemma {:induction false} RunInv(states: seq<State>, events: seq<Event>, i: nat)
    requires IsRun(states, events) && i < |states|
    ensures Inv(states[i])
  {
    hide Enabled, Apply;
    if i > 0 {
      RunInv(states, events, i - 1);
      StepKeepsInv(states[i - 1], events[i - 1]);
    }
  }

  /** At most one live row per address and repository, whatever the interleaving. */
  lemma OneLiveRowPerPair(states: seq<State>, events: seq<Event>, i: nat, a: nat, b: nat)
    requires IsRun(states, events) && i < |states| && a in states[i].table.rows && b in states[i].table.rows
    requires Live(states[i].table.rows[a]) && Live(states[i].table.rows[b])
    requires SamePair(states[i].table.rows[a], states[i].table.rows[b])
    ensures a == b
  {
    hide Enabled, Apply, CallsOk, WrittenOk, StartsOk;
    RunInv(states, events, i);
  }

  /** Of all calls that read the same pending row and token, at most one starts a saga. */
  lemma OneRefresherStarts(states: seq<State>, events: seq<Event>, i: nat, c: nat, d: nat)
    requires IsRun(states, events) && i < |states| && c in states[i].calls && d in states[i].calls
    requires states[i].calls[c].pc.Started? && states[i].calls[d].pc.Started?
    requires states[i].calls[c].seen.Some? && states[i].calls[c].seen == states[i].calls[d].seen
    ensures c == d
  {
    hide Enabled, Apply, TableOk, CallsOk, WrittenOk;
    RunInv(states, events, i);
  }

  /** A started saga names a row of the caller's own address and repository, and
      its token was really written to that row; no two sagas share a token. */
  lemma StartedSagaNamesItsRow(states: seq<State>, events: seq<Event>, i: nat, c: nat)
    requires IsRun(states, events) && i < |states| && c in states[i].calls && states[i].calls[c].pc.Started?
    ensures var s, call := states[i], states[i].calls[c];
            && (call.pc.id, call.pc.token) in s.written
            && RowFor(s.table.rows, call.pc.id, call)
            && forall d :: d in s.calls && d != c && s.calls[d].pc.Started? ==> s.calls[d].pc.token != call.pc.token
  {
    hide Enabled, Apply, TableOk, WrittenOk;
    RunInv(states, events, i);
    assert CallOk(states[i].table.rows, states[i].tokens, states[i].written, states[i].calls[c]);
  }

  /** The compare-and-swap is won exactly when the row still has the token that was
      read; a loser changes no table and starts no saga, whatever it was told. */
  lemma RefreshWinsIffTokenUnchanged(states: seq<State>, events: seq<Event>, i: nat, c: nat, out: Outcome)
    requires IsRun(states, events) && i < |events| && events[i] == Refresh(c, out)
    ensures var s, s', pc := states[i], states[i + 1], states[i].calls[c].pc;
            var same := pc.id in s.table.rows && s.table.rows[pc.id].token == pc.oldToken;
            && (s'.calls[c].pc.Started? <==> out.Ok? && same)
            && (!same ==> s'.table == s.table && s'.written == s.written && s'.calls[c].pc == Rejected)
  {
    hide TableOk, StartsOk;
    RunInv(states, events, i);
    var s := states[i];
    assert CallOk(s.table.rows, s.tokens, s.written, s.calls[c]);
  }
}
