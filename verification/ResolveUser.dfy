/**
 `resolve_or_create_user` of src/gateway/jwt_auth.py, run as a whole: the Supabase identity is looked
 up by id, then by email, and a row is inserted when neither matches.
 */
module ResolveUser {
  import opened Prelude
  import opened Users

  datatype ResolveError =
    | LinkedElsewhere          // the email belongs to a row of a different Supabase user
    | InactiveWithBalance      // an inactive row with credit is not absorbed
    | ConstraintViolation      // the insert failed and the retry found nothing

  /** The row a select by Supabase id returns. */
  ghost function FindBySid(users: UserTable, sid: string): (found: Option<string>)
    ensures AnswersBySid(users, sid, found)
  {
    if exists id :: LinkedTo(users, id, sid) then
      var id :| LinkedTo(users, id, sid);
      Some(id)
    else
      assert forall id :: id in users && users[id].supabaseId == Some(sid) ==> LinkedTo(users, id, sid);
      None
  }

  ghost function FindByEmail(users: UserTable, email: string): (found: Option<string>)
    ensures AnswersByEmail(users, email, found)
  {
    if exists id :: id in users && users[id].email == email then
      var id :| id in users && users[id].email == email;
      Some(id)
    else None
  }

  /** What one call does to the table and what it returns; `newId` is the generated user id. */
  ghost function Resolve(users: UserTable, sid: string, email: string, newId: string): (UserTable, Result<string, ResolveError>) {
    var linked := FindBySid(users, sid);
    if linked.Some? then (users, Ok(linked.value))
    else
      var owner := if email != "" then FindByEmail(users, email) else None;
      if owner.Some? then
        var row := users[owner.value];
        if row.supabaseId.Some? then (users, Err(LinkedElsewhere))
        else if !row.active && row.balance > 0.0 then (users, Err(InactiveWithBalance))
        else (Link(users, owner.value, sid, true), Ok(owner.value))
      else if InsertViolates(users, newId, email, sid) then (users, Err(ConstraintViolation))
      else (users[newId := NewRow(newId, email, sid)], Ok(newId))
  }

  class UserDirectory {
    var users: UserTable

    constructor (users: UserTable)
      ensures this.users == users
    {
      this.users := users;
    }

    method SelectBySid(sid: string) returns (found: Option<string>)
      requires UniqueSupabaseId(users)
      ensures found == FindBySid(users, sid)
    {
      found := None;
      if id :| id in users.Keys && users[id].supabaseId == Some(sid) {
        found := Some(id);
        assert LinkedTo(users, id, sid);
      }
    }

    method SelectByEmail(email: string) returns (found: Option<string>)
      requires UniqueEmail(users)
      ensures found == FindByEmail(users, email)
    {
      found := None;
      if id :| id in users.Keys && users[id].email == email {
        found := Some(id);
      }
    }

    /** The second select after a failed insert; a call that runs alone never finds a row here. */
    method RetryBySid(sid: string) returns (result: Result<string, ResolveError>)
      requires UniqueSupabaseId(users)
      ensures result == if FindBySid(users, sid).Some? then Ok(FindBySid(users, sid).value) else Err(ConstraintViolation)
    {
      var retry := SelectBySid(sid);
      if retry.Some? {
        return Ok(retry.value);
      }
      return Err(ConstraintViolation);
    }

    method ResolveOrCreate(sid: string, email: string, newId: string) returns (result: Result<string, ResolveError>)
      requires Constraints(users)
      modifies this
      ensures (users, result) == Resolve(old(users), sid, email, newId)
    {
      var linked := SelectBySid(sid);
      if linked.Some? {
        return Ok(linked.value);
      }
      if email != "" {
        var existing := SelectByEmail(email);
        if existing.Some? {
          var id := existing.value;
          var row := users[id];
          if row.supabaseId.Some? && row.supabaseId != Some(sid) {
            return Err(LinkedElsewhere);
          }
          if row.active {
            users := users[id := row.(supabaseId := Some(sid))];
            return Ok(id);
          }
          if row.balance > 0.0 {
            return Err(InactiveWithBalance);
          }
          users := users[id := row.(supabaseId := Some(sid), active := true)];
          return Ok(id);
        }
      }
      if InsertViolates(users, newId, email, sid) {
        result := RetryBySid(sid);
        return;
      }
      users := users[newId := NewRow(newId, email, sid)];
      return Ok(newId);
    }
  }

  // ---------------------------------------------------------------------------------------------
  // Every serial run
  // ---------------------------------------------------------------------------------------------

  datatype Request = Request(sid: string, email: string, newId: string)

  ghost function Serve(users: UserTable, requests: seq<Request>): UserTable {
    if requests == [] then users
    else
      var r := requests[|requests| - 1];
      Resolve(Serve(users, requests[..|requests| - 1]), r.sid, r.email, r.newId).0
  }

  /** Rows are never removed; their email, balance and grant stay, and a link once set stays set. */
  ghost predicate Preserves(before: UserTable, after: UserTable) {
    forall id :: id in before ==>
      && id in after
      && after[id].email == before[id].email && after[id].balance == before[id].balance
      && after[id].signupGranted == before[id].signupGranted
      && (before[id].supabaseId.Some? ==> after[id] == before[id])
  }

  lemma LinkKeepsTable(users: UserTable, owner: string, sid: string)
    requires Constraints(users) && owner in users && users[owner].supabaseId.None?
    requires forall id :: id in users ==> users[id].supabaseId != Some(sid)
    ensures var after := Link(users, owner, sid, true); Constraints(after) && Preserves(users, after) && LinkedTo(after, owner, sid)
  {
    LinkKeepsConstraints(users, owner, sid, true);
  }

  lemma InsertKeepsTable(users: UserTable, newId: string, email: string, sid: string)
    requires Constraints(users) && !InsertViolates(users, newId, email, sid)
    ensures var after := users[newId := NewRow(newId, email, sid)];
            Constraints(after) && Preserves(users, after) && LinkedTo(after, newId, sid)
  {
    InsertKeepsConstraints(users, newId, email, sid);
  }

  lemma ResolveKeepsTable(users: UserTable, sid: string, email: string, newId: string)
    requires Constraints(users)
    ensures var (after, result) := Resolve(users, sid, email, newId);
            && Constraints(after) && Preserves(users, after)
            && (result.Ok? ==> LinkedTo(after, result.value, sid))
            && (result.Err? ==> after == users)
  {
    if FindBySid(users, sid).None? {
      var owner := if email != "" then FindByEmail(users, email) else None;
      if owner.Some? {
        if users[owner.value].supabaseId.None? {
          LinkKeepsTable(users, owner.value, sid);
        }
      } else if !InsertViolates(users, newId, email, sid) {
        InsertKeepsTable(users, newId, email, sid);
      }
    }
  }

  /**
   Over every serial run the map from Supabase ids to users stays injective, links are never
   overwritten, emails stay unique and no existing balance changes.
   */
  lemma {:induction false} ServeKeepsTable(users: UserTable, requests: seq<Request>)
    requires Constraints(users)
    ensures Constraints(Serve(users, requests)) && Preserves(users, Serve(users, requests))
  {
    if requests != [] {
      var before, r := requests[..|requests| - 1], requests[|requests| - 1];
      ServeKeepsTable(users, before);
      ResolveKeepsTable(Serve(users, before), r.sid, r.email, r.newId);
    }
  }

  /** Whatever happens in between, resolving the same Supabase id again gives the same user. */
  lemma RepeatedResolutionAgrees(users: UserTable, first: Request, between: seq<Request>, again: Request)
    requires Constraints(users) && again.sid == first.sid
    requires Resolve(users, first.sid, first.email, first.newId).1.Ok?
    ensures var (after, id) := Resolve(users, first.sid, first.email, first.newId);
            Resolve(Serve(after, between), again.sid, again.email, again.newId) == (Serve(after, between), id)
  {
    var (after, id) := Resolve(users, first.sid, first.email, first.newId);
    ResolveKeepsTable(users, first.sid, first.email, first.newId);
    ServeKeepsTable(after, between);
    assert LinkedTo(Serve(after, between), id.value, first.sid);
  }

  /**
   An unlinked Supabase id with an email on file gets that very wallet, except from a row that is
   linked already, or inactive with credit: then, and only then, the call is refused.
   */
  lemma EmailOwnerSharesWallet(users: UserTable, sid: string, owner: string, newId: string)
    requires Constraints(users) && FindBySid(users, sid).None?
    requires owner in users && users[owner].email != ""
    ensures var row := users[owner];
            var (after, result) := Resolve(users, sid, row.email, newId);
            if row.supabaseId.Some? || (!row.active && row.balance > 0.0) then
              result.Err? && after == users
            else
              result == Ok(owner) && after == users[owner := row.(supabaseId := Some(sid), active := true)]
  {
    assert FindByEmail(users, users[owner].email) == Some(owner);
  }

  /** An id that is linked is answered with its user, and nothing changes. */
  lemma LinkedIdIsAnswered(users: UserTable, sid: string, email: string, newId: string, id: string)
    requires Constraints(users) && id in users && users[id].supabaseId == Some(sid)
    ensures Resolve(users, sid, email, newId) == (users, Ok(id))
  {
    assert LinkedTo(users, id, sid);
  }

  /** Which of the two refusals the owner of the email meets. */
  lemma RefusalsOfTheEmailOwner(users: UserTable, sid: string, owner: string, newId: string)
    requires Constraints(users) && (forall id :: id in users ==> users[id].supabaseId != Some(sid))
    requires owner in users && users[owner].email != ""
    ensures var row, result := users[owner], Resolve(users, sid, users[owner].email, newId).1;
            && (row.supabaseId.Some? ==> result == Err(LinkedElsewhere))
            && (row.supabaseId.None? && !row.active && row.balance > 0.0 ==> result == Err(InactiveWithBalance))
  {
    assert FindBySid(users, sid).None?;
    assert FindByEmail(users, users[owner].email) == Some(owner);
  }

  /**
   An identity that matches no row gets a new one: active, linked, without credit or grant, and with a
   placeholder for a missing email.
   */
  lemma UnknownIdentityGetsNewUser(users: UserTable, sid: string, email: string, newId: string)
    requires Constraints(users) && newId !in users
    requires forall id :: id in users ==> users[id].supabaseId != Some(sid) && (email != "" ==> users[id].email != email)
    ensures var (after, result) := Resolve(users, sid, email, newId);
            var address := if email != "" then email else newId + "@scholar.dsmoz.local";
            if exists id :: id in users && users[id].email == address then after == users && result == Err(ConstraintViolation)
            else result == Ok(newId) && after == users[newId := UserRow(address, Some(sid), true, 0.0, false)]
  {
    assert FindBySid(users, sid).None?;
    assert email != "" ==> FindByEmail(users, email).None?;
  }
}
