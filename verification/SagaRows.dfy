/** Saga instances (table saga_instances) and the guarded statements over them. */
module SagaRows {
  import opened Base

  datatype SagaId = SagaId(text: string)

  datatype SagaState = Awaiting | Completed | Compensating | Failed

  datatype SubscriptionData = SubscriptionData(
    email: string, repo: string, owner: string, name: string,
    token: string, confirmUrl: string, subscriptionId: int)

  datatype Row = Row(state: SagaState, data: SubscriptionData, timeoutAt: int)

  type Rows = map<SagaId, Row>

  predicate InState(rows: Rows, id: SagaId, state: SagaState) {
    id in rows && rows[id].state == state
  }

  /** UPDATE ... SET state = `to` WHERE id = `id` AND state = `from`. */
  function Move(rows: Rows, id: SagaId, from: SagaState, to: SagaState): Rows {
    if InState(rows, id, from) then rows[id := rows[id].(state := to)] else rows
  }

  function CompleteRow(rows: Rows, id: SagaId): Rows {
    Move(rows, id, Awaiting, Completed)
  }

  function ClaimRow(rows: Rows, id: SagaId): Rows {
    Move(rows, id, Awaiting, Compensating)
  }

  function MarkRow(rows: Rows, id: SagaId): Rows {
    Move(rows, id, Compensating, Failed)
  }

  /** INSERT; a second row with the same primary key is refused. */
  function InsertRow(rows: Rows, id: SagaId, row: Row): Rows {
    if id in rows then rows else rows[id := row]
  }

  // ---------------------------------------------------------------------------
  // The reaper's query

  predicate TimedOut(row: Row, now: int) {
    row.state == Awaiting && row.timeoutAt < now
  }

  function TimedOutIds(rows: Rows, now: int): set<SagaId> {
    set id | id in rows && TimedOut(rows[id], now)
  }

  function Min(a: int, b: int): int {
    if a <= b then a else b
  }

  function Max(a: int, b: int): int {
    if a <= b then b else a
  }

  /** `ids` answers SELECT id ... WHERE state = awaiting AND timeout_at < now
      ORDER BY timeout_at LIMIT limit: any such answer, ties in any order. */
  ghost predicate IsBatch(rows: Rows, now: int, limit: nat, ids: seq<SagaId>) {
    && |ids| == Min(limit, |TimedOutIds(rows, now)|)
    && (forall i :: 0 <= i < |ids| ==> ids[i] in TimedOutIds(rows, now))
    && (forall i, j :: 0 <= i < j < |ids| ==> ids[i] != ids[j])
    && (forall i, j :: 0 <= i < j < |ids| ==> rows[ids[i]].timeoutAt <= rows[ids[j]].timeoutAt)
    && (forall i, id :: 0 <= i < |ids| && id in TimedOutIds(rows, now) && id !in ids ==>
          rows[ids[i]].timeoutAt <= rows[id].timeoutAt)
  }

  /** Only awaiting sagas past their deadline are listed, and one of these is missing
      only if as many as the limit allows, none with a later deadline, are listed. */
  lemma BatchMeans(rows: Rows, now: int, limit: nat, ids: seq<SagaId>)
    requires IsBatch(rows, now, limit, ids)
    ensures forall i :: 0 <= i < |ids| ==>
              ids[i] in rows && rows[ids[i]].state == Awaiting && rows[ids[i]].timeoutAt < now
    ensures forall x :: x in rows && rows[x].state == Awaiting && rows[x].timeoutAt < now && x !in ids ==>
              |ids| == limit && forall i :: 0 <= i < |ids| ==> rows[ids[i]].timeoutAt <= rows[x].timeoutAt
  {
    var due := TimedOutIds(rows, now);
    forall i | 0 <= i < |ids|
      ensures ids[i] in rows && rows[ids[i]].state == Awaiting && rows[ids[i]].timeoutAt < now {
      assert ids[i] in due;
    }
    forall x | x in rows && rows[x].state == Awaiting && rows[x].timeoutAt < now && x !in ids ensures |ids| == limit {
      assert x in due;
      DistinctSize(ids);
      assert SetOf(ids) <= due - {x};
      SubsetSize(SetOf(ids), due - {x});
    }
  }

  function SetOf(ids: seq<SagaId>): set<SagaId> {
    set id | id in ids
  }

  lemma {:induction false} DistinctSize(ids: seq<SagaId>)
    requires forall i, j :: 0 <= i < j < |ids| ==> ids[i] != ids[j]
    ensures |SetOf(ids)| == |ids|
  {
    if ids != [] {
      var last := |ids| - 1;
      DistinctSize(ids[..last]);
      assert SetOf(ids) == SetOf(ids[..last]) + {ids[last]};
    }
  }

  ghost predicate Oldest(rows: Rows, ids: set<SagaId>, id: SagaId) {
    id in ids && id in rows && forall y :: y in ids && y in rows ==> rows[id].timeoutAt <= rows[y].timeoutAt
  }

  lemma {:induction false} OldestExists(rows: Rows, ids: set<SagaId>) returns (id: SagaId)
    requires ids != {} && forall y :: y in ids ==> y in rows
    ensures Oldest(rows, ids, id)
    decreases ids
  {
    id :| id in ids;
    if ids != {id} {
      var other := OldestExists(rows, ids - {id});
      if rows[other].timeoutAt < rows[id].timeoutAt {
        id := other;
      }
    }
  }

  /** The query always has an answer. */
  lemma BatchExists(rows: Rows, now: int, limit: nat) returns (ids: seq<SagaId>)
    ensures IsBatch(rows, now, limit, ids)
  {
    ids := FirstOf(rows, TimedOutIds(rows, now), limit);
  }

  lemma {:induction false} FirstOf(rows: Rows, due: set<SagaId>, limit: nat) returns (ids: seq<SagaId>)
    requires forall id :: id in due ==> id in rows
    ensures |ids| == Min(limit, |due|)
    ensures forall i :: 0 <= i < |ids| ==> ids[i] in due
    ensures forall i, j :: 0 <= i < j < |ids| ==> ids[i] != ids[j]
    ensures forall i, j :: 0 <= i < j < |ids| ==> rows[ids[i]].timeoutAt <= rows[ids[j]].timeoutAt
    ensures forall i, id :: 0 <= i < |ids| && id in due && id !in ids ==> rows[ids[i]].timeoutAt <= rows[id].timeoutAt
    decreases limit
  {
    ids := [];
    if limit > 0 && due != {} {
      var first := OldestExists(rows, due);
      var rest := FirstOf(rows, due - {first}, limit - 1);
      ids := [first] + rest;
    }
  }
}
