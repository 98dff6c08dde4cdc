/**
 The users table: its columns, its unique indexes, and the single statements
 src/gateway/jwt_auth.py runs against it.
 */
module Users {
  import opened Prelude

  datatype UserRow = UserRow(
    email: string,
    supabaseId: Option<string>,
    active: bool,
    balance: real,
    signupGranted: bool)

  type UserTable = map<string, UserRow>

  /** The partial unique index on supabase_user_id. */
  ghost predicate UniqueSupabaseId(users: UserTable) {
    forall a, b :: a in users && b in users && users[a].supabaseId.Some? && users[a].supabaseId == users[b].supabaseId
                   ==> a == b
  }

  /** The unique constraint on email. */
  ghost predicate UniqueEmail(users: UserTable) {
    forall a, b :: a in users && b in users && users[a].email == users[b].email ==> a == b
  }

  ghost predicate Constraints(users: UserTable) {
    UniqueSupabaseId(users) && UniqueEmail(users)
  }

  ghost predicate LinkedTo(users: UserTable, id: string, sid: string) {
    id in users && users[id].supabaseId == Some(sid)
  }

  /** `found` is a legal answer of the select by supabase_user_id. */
  ghost predicate AnswersBySid(users: UserTable, sid: string, found: Option<string>) {
    match found
    case Some(id) => LinkedTo(users, id, sid)
    case None => forall id :: id in users ==> users[id].supabaseId != Some(sid)
  }

  /** `found` is a legal answer of the select by email. */
  ghost predicate AnswersByEmail(users: UserTable, email: string, found: Option<string>) {
    match found
    case Some(id) => id in users && users[id].email == email
    case None => forall id :: id in users ==> users[id].email != email
  }

  function PlaceholderEmail(id: string): string {
    id + "@scholar.dsmoz.local"
  }

  function EmailFor(id: string, email: string): string {
    if email != "" then email else PlaceholderEmail(id)
  }

  function NewRow(id: string, email: string, sid: string): UserRow {
    UserRow(EmailFor(id, email), Some(sid), true, 0.0, false)
  }

  /** The update that links a row violates the index when another row holds the id already. */
  predicate LinkViolates(users: UserTable, id: string, sid: string) {
    id in users && exists other :: other in users && other != id && users[other].supabaseId == Some(sid)
  }

  function Link(users: UserTable, id: string, sid: string, activate: bool): UserTable {
    if id in users then users[id := users[id].(supabaseId := Some(sid), active := activate || users[id].active)]
    else users
  }

  predicate InsertViolates(users: UserTable, id: string, email: string, sid: string) {
    id in users
    || exists other :: other in users && (users[other].email == EmailFor(id, email) || users[other].supabaseId == Some(sid))
  }

  lemma LinkKeepsConstraints(users: UserTable, id: string, sid: string, activate: bool)
    requires Constraints(users) && !LinkViolates(users, id, sid)
    ensures Constraints(Link(users, id, sid, activate))
  {
  }

  lemma InsertKeepsConstraints(users: UserTable, id: string, email: string, sid: string)
    requires Constraints(users) && !InsertViolates(users, id, email, sid)
    ensures Constraints(users[id := NewRow(id, email, sid)])
  {
  }
}
