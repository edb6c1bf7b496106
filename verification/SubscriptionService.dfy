/** The subscription repository and service as objects, one request at a time. */
module SubscriptionService {
  import opened Base
  import opened Subscriptions

  /** Every row that was unsubscribed still is: no request brings one back. */
  ghost predicate UnsubscribedStays(t: Table, t': Table) {
    forall id :: id in t.rows && t.rows[id].status == Unsubscribed ==>
      id in t'.rows && t'.rows[id].status == Unsubscribed
  }

  /** `ids` are the active rows of the repository, each once, and `emails` theirs. */
  ghost predicate ListsSubscribers(t: Table, owner: string, name: string, ids: seq<nat>, emails: seq<string>) {
    && |ids| == |emails|
    && (forall i :: 0 <= i < |ids| ==> ids[i] in t.rows && IsSubscriber(t.rows[ids[i]], owner, name) &&
                                       emails[i] == t.rows[ids[i]].email)
    && (forall i, j :: 0 <= i < j < |ids| ==> ids[i] != ids[j])
    && (forall id :: id in t.rows && IsSubscriber(t.rows[id], owner, name) ==> id in ids)
  }

  predicate IsSubscriber(sub: Sub, owner: string, name: string) {
    sub.owner == owner && sub.name == name && sub.status == Active
  }

  /** The listed addresses are those of the repository's rows with the status active. */
  lemma ListedAreActive(t: Table, owner: string, name: string, ids: seq<nat>, emails: seq<string>)
    requires ListsSubscribers(t, owner, name, ids, emails)
    ensures forall email :: email in emails <==>
              exists id :: id in t.rows && t.rows[id].email == email && t.rows[id].owner == owner &&
                           t.rows[id].name == name && t.rows[id].status == Active
  {
    forall id | id in t.rows && t.rows[id].owner == owner && t.rows[id].name == name && t.rows[id].status == Active
      ensures t.rows[id].email in emails {
      var i :| 0 <= i < |ids| && ids[i] == id;
      assert emails[i] == t.rows[id].email;
    }
    forall email | email in emails
      ensures exists id :: id in t.rows && t.rows[id].email == email && t.rows[id].owner == owner &&
                           t.rows[id].name == name && t.rows[id].status == Active {
      var i :| 0 <= i < |emails| && emails[i] == email;
      assert ids[i] in t.rows;
    }
  }

  /** The partial unique index makes the listed addresses distinct. */
  lemma SubscribersAreDistinct(t: Table, owner: string, name: string, ids: seq<nat>, emails: seq<string>, i: nat,
                               j: nat)
    requires TableOk(t) && ListsSubscribers(t, owner, name, ids, emails) && i < j < |emails|
    ensures emails[i] != emails[j]
  {
    assert ids[i] != ids[j];
    assert !SamePair(t.rows[ids[i]], t.rows[ids[j]]);
  }

  class Repo {
    var table: Table

    ghost predicate Valid()
      reads this
    {
      TableOk(table)
    }

    constructor ()
      ensures Valid() && table == Table(0, map[], {})
    {
      table := Table(0, map[], {});
    }

    method Upsert(owner: string, name: string, out: Outcome) returns (err: bool)
      requires Valid()
      modifies this
      ensures Valid()
      ensures table == old(table).(repos := old(table.repos) + if out.TakesEffect() then {(owner, name)} else {})
      ensures err <==> !out.Ok?
    {
      err := !out.Ok?;
      if out.TakesEffect() {
        MoreReposKeepTable(table, (owner, name));
        table := table.(repos := table.repos + {(owner, name)});
      }
    }

    method Create(sub: Sub, out: Outcome) returns (r: WriteResult, err: bool)
      requires Valid()
      modifies this
      ensures Valid()
      ensures table == if out.TakesEffect() then Insert(old(table), sub) else old(table)
      ensures err <==> !out.Ok? || !r.Written?
      ensures r == InsertResult(old(table), sub)
    {
      r := InsertResult(table, sub);
      err := !out.Ok? || !r.Written?;
      if out.TakesEffect() {
        InsertKeepsTable(table, sub);
        table := Insert(table, sub);
      }
    }

    method SwapToken(id: nat, oldToken: string, newToken: string, out: Outcome) returns (r: WriteResult, err: bool)
      requires Valid()
      modifies this
      ensures Valid()
      ensures table == if out.TakesEffect() then UpdateToken(old(table), id, oldToken, newToken) else old(table)
      ensures err <==> !out.Ok? || !r.Written?
      ensures r == UpdateTokenResult(old(table), id, oldToken, newToken)
    {
      r := UpdateTokenResult(table, id, oldToken, newToken);
      err := !out.Ok? || !r.Written?;
      if out.TakesEffect() {
        UpdateTokenKeepsTable(table, id, oldToken, newToken);
        table := UpdateToken(table, id, oldToken, newToken);
      }
    }

    method SetStatus(id: nat, status: Status, out: Outcome) returns (r: WriteResult, err: bool)
      requires Valid()
      modifies this
      ensures Valid()
      ensures table == if out.TakesEffect() then UpdateStatus(old(table), id, status) else old(table)
      ensures err <==> !out.Ok? || !r.Written?
      ensures r == UpdateStatusResult(old(table), id, status)
    {
      r := UpdateStatusResult(table, id, status);
      err := !out.Ok? || !r.Written?;
      if out.TakesEffect() {
        UpdateStatusKeepsTable(table, id, status);
        table := UpdateStatus(table, id, status);
      }
    }

    method GetByEmailAndRepo(email: string, owner: string, name: string) returns (found: Option<nat>)
      ensures ReadsPair(table, email, owner, name, found)
    {
      if id :| id in table.rows && IsPairRow(table.rows[id], email, owner, name) {
        return Some(id);
      }
      return None;
    }

    method GetByToken(token: string) returns (found: Option<nat>)
      ensures ReadsToken(table, token, found)
    {
      if id :| id in table.rows && table.rows[id].token == token {
        return Some(id);
      }
      return None;
    }

    /** The addresses of the repository's active subscriptions, scanned row by row. */
    method GetEmailsByRepo(owner: string, name: string) returns (emails: seq<string>, ghost ids: seq<nat>)
      ensures ListsSubscribers(table, owner, name, ids, emails)
      ensures forall email :: email in emails <==>
                exists id :: id in table.rows && table.rows[id].email == email && table.rows[id].owner == owner &&
                             table.rows[id].name == name && table.rows[id].status == Active
    {
      emails, ids := [], [];
      var rest := table.rows.Keys;
      while rest != {}
        invariant rest <= table.rows.Keys && |ids| == |emails|
        invariant forall i :: 0 <= i < |ids| ==>
                    && ids[i] in table.rows && ids[i] !in rest && IsSubscriber(table.rows[ids[i]], owner, name)
                    && emails[i] == table.rows[ids[i]].email
        invariant forall i, j :: 0 <= i < j < |ids| ==> ids[i] != ids[j]
        invariant forall id :: id in table.rows && id !in rest && IsSubscriber(table.rows[id], owner, name) ==>
            id in ids
        decreases rest
      {
        var id :| id in rest;
        if IsSubscriber(table.rows[id], owner, name) {
          emails := emails + [table.rows[id].email];
          ids := ids + [id];
        }
        rest := rest - {id};
      }
      ListedAreActive(table, owner, name, ids, emails);
    }
  }

  datatype Reservation = Reserved(id: nat, token: string) | AlreadyExists | StoreError

  datatype Answer = Done | TokenNotFound | Inactive | Failed

  ghost predicate TokenInUse(t: Table, token: string) {
    exists id :: id in t.rows && t.rows[id].token == token
  }

  class Service {
    const repo: Repo

    constructor (repo: Repo)
      ensures this.repo == repo
    {
      this.repo := repo;
    }

    /** A reservation is a pending row of this address and repository carrying the
        generated token; no other row changes. `lookup` is whether the query worked,
        and no token means that none could be generated. */
    method ReserveSubscription(email: string, owner: string, name: string, lookup: bool, token: Option<string>,
                               upsert: Outcome, write: Outcome)
      returns (r: Reservation)
      requires repo.Valid()
      modifies repo
      ensures repo.Valid() && UnsubscribedStays(old(repo.table), repo.table)
      ensures r.Reserved? ==>
                && token == Some(r.token) && r.id in repo.table.rows
                && repo.table.rows[r.id] == Sub(email, owner, name, r.token, Pending)
      ensures r == AlreadyExists <==>
                && lookup
                && exists id :: id in old(repo.table.rows) && old(repo.table.rows)[id].status == Active &&
                                IsPairRow(old(repo.table.rows)[id], email, owner, name)
      ensures r == AlreadyExists || !lookup || token.None? ==> repo.table == old(repo.table)
      ensures lookup && token.Some? && upsert.Ok? && write.Ok? && r.StoreError? ==>
                TokenInUse(old(repo.table), token.value)
      ensures forall id :: id in old(repo.table.rows) && !IsPairRow(old(repo.table.rows)[id], email, owner, name) ==>
                id in repo.table.rows && repo.table.rows[id] == old(repo.table.rows)[id]
    {
      if !lookup {
        return StoreError;
      }
      var found := repo.GetByEmailAndRepo(email, owner, name);
      match found
      case Some(id) =>
        PairRowIsTheOne(repo.table, email, owner, name, id);
        var seen := repo.table.rows[id];
        if seen.status == Active {
          return AlreadyExists;
        }
        r := RefreshPending(id, seen.token, token, write);
      case None =>
        r := CreatePending(email, owner, name, token, upsert, write);
    }

    /** Writes the new token over the one that was read with the row. If the row has
        another token by now the refresh is lost and reported as already existing. */
    method RefreshPending(id: nat, seenToken: string, token: Option<string>, write: Outcome) returns (r: Reservation)
      requires repo.Valid()
      modifies repo
      ensures repo.Valid() && UnsubscribedStays(old(repo.table), repo.table)
      ensures repo.table.rows.Keys == old(repo.table.rows.Keys)
      ensures forall i :: i in repo.table.rows && i != id ==> repo.table.rows[i] == old(repo.table.rows)[i]
      ensures r.Reserved? ==>
                && token == Some(r.token) && r.id == id && id in repo.table.rows
                && old(repo.table.rows)[id].token == seenToken
                && repo.table.rows[id] == old(repo.table.rows)[id].(token := r.token)
      ensures r == AlreadyExists <==>
                token.Some? && write.Ok? && !(id in old(repo.table.rows) && old(repo.table.rows)[id].token == seenToken)
      ensures r == AlreadyExists || token.None? ==> repo.table == old(repo.table)
      ensures token.Some? && write.Ok? && r.StoreError? ==> TokenInUse(old(repo.table), token.value)
    {
      if token.None? {
        return StoreError;
      }
      var result, err := repo.SwapToken(id, seenToken, token.value, write);
      if !err {
        return Reserved(id, token.value);
      }
      return if write.Ok? && result.NoRow? then AlreadyExists else StoreError;
    }

    /** Adds one pending row, unless a live row of the address and repository is there
        by now. */
    method CreatePending(email: string, owner: string, name: string, token: Option<string>, upsert: Outcome,
                         write: Outcome)
      returns (r: Reservation)
      requires repo.Valid()
      modifies repo
      ensures repo.Valid() && UnsubscribedStays(old(repo.table), repo.table)
      ensures forall i :: i in old(repo.table.rows) ==>
          i in repo.table.rows && repo.table.rows[i] == old(repo.table.rows)[i]
      ensures r.Reserved? ==>
                && token == Some(r.token) && r.id in repo.table.rows && r.id !in old(repo.table.rows)
                && repo.table.rows[r.id] == Sub(email, owner, name, r.token, Pending)
      ensures r == AlreadyExists <==>
                token.Some? && upsert.Ok? && write.Ok? && !ReadsPair(old(repo.table), email, owner, name, None)
      ensures r == AlreadyExists ==> repo.table.rows == old(repo.table.rows)
      ensures token.None? ==> repo.table == old(repo.table)
      ensures token.Some? && upsert.Ok? && write.Ok? && r.StoreError? ==> TokenInUse(old(repo.table), token.value)
    {
      if token.None? {
        return StoreError;
      }
      var upsertErr := repo.Upsert(owner, name, upsert);
      if upsertErr {
        return StoreError;
      }
      IdsAreBelow(repo.table);
      var result, err := repo.Create(Sub(email, owner, name, token.value, Pending), write);
      if !err {
        return Reserved(result.id, token.value);
      }
      return if write.Ok? && result.LiveConflict? then AlreadyExists else StoreError;
    }

    /** A confirmed token's row is active; an unsubscribed row is refused and stays so. */
    method Confirm(token: string, lookup: bool, out: Outcome) returns (a: Answer)
      requires repo.Valid()
      modifies repo
      ensures repo.Valid() && UnsubscribedStays(old(repo.table), repo.table)
      ensures a == TokenNotFound <==> lookup && ReadsToken(old(repo.table), token, None)
      ensures !lookup ==> a == Failed && repo.table == old(repo.table)
      ensures a == Done ==> exists id :: ReadsToken(repo.table, token, Some(id)) && repo.table.rows[id].status == Active
      ensures a == Inactive <==>
                && lookup
                && exists id :: ReadsToken(old(repo.table), token, Some(id)) &&
                                old(repo.table.rows)[id].status == Unsubscribed
      ensures a == Inactive ==> repo.table == old(repo.table)
      ensures repo.table.rows.Keys == old(repo.table.rows.Keys)
      ensures forall i :: i in repo.table.rows && old(repo.table.rows)[i].token != token ==>
          repo.table.rows[i] == old(repo.table.rows)[i]
      ensures forall i :: i in repo.table.rows ==>
          repo.table.rows[i] == old(repo.table.rows)[i].(status := repo.table.rows[i].status)
      ensures lookup && out.Ok? ==> a != Failed
    {
      if !lookup {
        return Failed;
      }
      var found := repo.GetByToken(token);
      if found.None? {
        return TokenNotFound;
      }
      var id := found.value;
      if repo.table.rows[id].status == Active {
        assert ReadsToken(repo.table, token, Some(id));
        return Done;
      }
      if repo.table.rows[id].status != Pending {
        return Inactive;
      }
      var r, err := repo.SetStatus(id, Active, out);
      assert !err ==> ReadsToken(repo.table, token, Some(id));
      return if err then Failed else Done;
    }

    /** After a successful unsubscribe the token's row is unsubscribed. */
    method Unsubscribe(token: string, lookup: bool, out: Outcome) returns (a: Answer)
      requires repo.Valid()
      modifies repo
      ensures repo.Valid() && UnsubscribedStays(old(repo.table), repo.table)
      ensures a == TokenNotFound <==> lookup && ReadsToken(old(repo.table), token, None)
      ensures !lookup ==> a == Failed && repo.table == old(repo.table)
      ensures a == Done ==>
          exists id :: ReadsToken(repo.table, token, Some(id)) && repo.table.rows[id].status == Unsubscribed
      ensures repo.table.rows.Keys == old(repo.table.rows.Keys)
      ensures forall i :: i in repo.table.rows && old(repo.table.rows)[i].token != token ==>
          repo.table.rows[i] == old(repo.table.rows)[i]
      ensures forall i :: i in repo.table.rows ==>
          repo.table.rows[i] == old(repo.table.rows)[i].(status := repo.table.rows[i].status)
      ensures lookup && out.Ok? ==> a != Failed
    {
      if !lookup {
        return Failed;
      }
      var found := repo.GetByToken(token);
      if found.None? {
        return TokenNotFound;
      }
      var id := found.value;
      if repo.table.rows[id].status == Unsubscribed {
        assert ReadsToken(repo.table, token, Some(id));
        return Done;
      }
      var r, err := repo.SetStatus(id, Unsubscribed, out);
      assert !err ==> ReadsToken(repo.table, token, Some(id));
      return if err then Failed else Done;
    }

    /** The saga's compensation: a missing row counts as cancelled. */
    method Cancel(id: nat, out: Outcome) returns (err: bool)
      requires repo.Valid()
      modifies repo
      ensures repo.Valid() && UnsubscribedStays(old(repo.table), repo.table)
      ensures err <==> !out.Ok?
      ensures !err && id in repo.table.rows ==> repo.table.rows[id].status == Unsubscribed
      ensures repo.table.rows.Keys == old(repo.table.rows.Keys)
      ensures forall i :: i in repo.table.rows && i != id ==> repo.table.rows[i] == old(repo.table.rows)[i]
    {
      var r, e := repo.SetStatus(id, Unsubscribed, out);
      return !out.Ok? || (e && !r.NoRow?);
    }
  }

  lemma PairRowIsTheOne(t: Table, email: string, owner: string, name: string, id: nat)
    requires TableOk(t) && ReadsPair(t, email, owner, name, Some(id))
    ensures forall i :: i in t.rows && IsPairRow(t.rows[i], email, owner, name) ==> i == id
  {
  }
}
