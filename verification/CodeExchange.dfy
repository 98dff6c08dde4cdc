/**
 Authorization sessions, approvals and code exchanges of src/oauth/provider.py under any interleaving
 of their database calls.

 Every event of an approval or an exchange is one database call; the clock is read with the call it
 precedes.  Callers are arbitrary: they may present any text as a session id or as a code.  The
 history part of the state records where each key, code and token comes from; nothing reads it.
 */
module CodeExchange {
  import opened Prelude
  import opened OAuthTables
  import opened OAuthGrants

  datatype ApprovalPc =
    | ReadSession
    | ReadClaimer(client: string)
    | ReadPending(client: string, user: Option<string>)
    | Rekey(user: Option<string>, resource: Option<string>)
    | HandedOut(code: string)
    | Refused(why: GrantError)

  /** One call of mark_session_approved. */
  datatype Approval = Approval(key: string, user: Option<string>, pc: ApprovalPc)

  datatype ExchangePc =
    | ReadCode
    | DeleteCode(row: CodeRow)
    | ReadOwner(row: CodeRow)
    | InsertAccess(row: CodeRow, user: Option<string>)
    | InsertRefresh(row: CodeRow, user: Option<string>, access: Hash)
    | Issued(access: Hash, refresh: Hash)
    | Rejected(error: GrantError)
    | InsertFailed

  /** One call of exchange_authorization_code. */
  datatype Exchange = Exchange(code: string, client: string, verifier: Option<string>, pc: ExchangePc)

  /** History of a key of the code table: its session, which approval set the user column last, and which one made the key. */
  datatype Key = Key(session: string, user: Option<string>, approver: Option<nat>, maker: Option<nat>)

  datatype State = State(
    now: int,
    db: Tables,
    approvals: map<nat, Approval>,
    exchanges: map<nat, Exchange>,
    minted: set<string>,            // every generated id, code and token
    sessions: map<string, Terms>,   // history: what authorize recorded
    keys: map<string, Key>,         // history: every key the code table ever had
    redeemed: map<string, nat>,     // history: the exchange that deleted the session's row
    accessOf: map<Hash, string>,    // history: the session of every access token inserted
    refreshOf: map<Hash, string>
  )

  datatype ApprovalStep = ReadSessionStep | ReadClaimerStep | ReadPendingStep | RekeyStep(code: string)

  datatype ExchangeStep =
    | ReadCodeStep | DeleteCodeStep | ReadOwnerStep
    | InsertAccessStep(token: string, ttl: nat) | InsertRefreshStep(token: string, ttl: nat) | InsertFails

  datatype Event =
    | Tick(seconds: nat)
    | Register(client: string, row: ClientRow)
    | ClaimOwner(client: string, owner: string)
    | RemoveClient(client: string)
    | RemoveCodes(client: string)
    | RemoveAccess(client: string)
    | RemoveRefresh(client: string)
    | NewSession(session: string, terms: Terms)
    | DenySession(key: string)
    | BeginApproval(n: nat, key: string, user: Option<string>)
    | ApprovalCall(n: nat, approval: ApprovalStep)
    | BeginExchange(n: nat, code: string, client: string, verifier: Option<string>)
    | ExchangeCall(n: nat, exchange: ExchangeStep)

  // ---------------------------------------------------------------------------------------------
  // Steps
  // ---------------------------------------------------------------------------------------------

  predicate ApprovalEnabled(s: State, a: Approval, step: ApprovalStep) {
    match step
    case ReadSessionStep => a.pc.ReadSession?
    case ReadClaimerStep => a.pc.ReadClaimer?
    case ReadPendingStep => a.pc.ReadPending?
    case RekeyStep(code) => a.pc.Rekey? && code !in s.minted
  }

  predicate ExchangeEnabled(s: State, x: Exchange, step: ExchangeStep) {
    match step
    case ReadCodeStep => x.pc.ReadCode?
    case DeleteCodeStep => x.pc.DeleteCode?
    case ReadOwnerStep => x.pc.ReadOwner?
    case InsertAccessStep(token, _) => x.pc.InsertAccess? && token !in s.minted
    case InsertRefreshStep(token, _) => x.pc.InsertRefresh? && token !in s.minted
    case InsertFails => x.pc.InsertAccess? || x.pc.InsertRefresh?
  }

  predicate Enabled(s: State, e: Event) {
    match e
    case Tick(_) => true
    case Register(client, row) => client !in s.minted && (row.isPublic ==> row.owner.None?)
    case ClaimOwner(client, _) =>
      client in s.db.clients && !s.db.clients[client].isPublic && s.db.clients[client].owner.None?
    case RemoveClient(_) => true
    case RemoveCodes(_) => true
    case RemoveAccess(_) => true
    case RemoveRefresh(_) => true
    case NewSession(session, terms) => session !in s.minted && terms.client in s.minted
    case DenySession(_) => true
    case BeginApproval(n, _, _) => n !in s.approvals
    case ApprovalCall(n, step) => n in s.approvals && ApprovalEnabled(s, s.approvals[n], step)
    case BeginExchange(n, _, _, _) => n !in s.exchanges
    case ExchangeCall(n, step) => n in s.exchanges && ExchangeEnabled(s, s.exchanges[n], step)
  }

  function ApprovalGoto(s: State, n: nat, pc: ApprovalPc): State
    requires n in s.approvals
  {
    s.(approvals := s.approvals[n := s.approvals[n].(pc := pc)])
  }

  function ExchangeGoto(s: State, n: nat, pc: ExchangePc): State
    requires n in s.exchanges
  {
    s.(exchanges := s.exchanges[n := s.exchanges[n].(pc := pc)])
  }

  /** The update of the row at the presented key, which may match no row any more. */
  function RekeyRow(s: State, n: nat, code: string): State
    requires n in s.approvals && s.approvals[n].pc.Rekey?
  {
    var a := s.approvals[n];
    if a.key !in s.db.codes then s
    else
      var was := if a.key in s.keys then s.keys[a.key] else Key(a.key, None, None, None);
      s.(db := s.db.(codes := (s.db.codes - {a.key})[code := ApprovedRow(s.db.codes[a.key], a.pc.user, a.pc.resource, s.now)]),
         keys := s.keys[code := if a.pc.user.Some? then Key(was.session, a.pc.user, Some(n), Some(n)) else was.(maker := Some(n))])
  }

  function ApprovalApply(s: State, n: nat, step: ApprovalStep): State
    requires n in s.approvals && ApprovalEnabled(s, s.approvals[n], step)
  {
    var a := s.approvals[n];
    match step
    case ReadSessionStep =>
      ApprovalGoto(s, n, if a.key !in s.db.codes then Refused(NotFound)
                         else if a.user.None? then ReadClaimer(s.db.codes[a.key].client)
                         else ReadPending(s.db.codes[a.key].client, a.user))
    case ReadClaimerStep => ApprovalGoto(s, n, ReadPending(a.pc.client, Claimer(s.db.clients, a.pc.client)))
    case ReadPendingStep =>
      ApprovalGoto(s, n, if a.key !in s.db.codes || s.db.codes[a.key].expiresAt < s.now then Refused(Expired)
                         else if s.db.codes[a.key].client != a.pc.client then Refused(ClientMismatch)
                         else Rekey(a.pc.user, PendingResource(s.db.codes[a.key])))
    case RekeyStep(code) =>
      var t := RekeyRow(s, n, code);
      t.(approvals := t.approvals[n := a.(pc := HandedOut(code))], minted := s.minted + {code})
  }

  function ExchangeApply(s: State, n: nat, step: ExchangeStep): State
    requires n in s.exchanges && ExchangeEnabled(s, s.exchanges[n], step)
  {
    var x := s.exchanges[n];
    match step
    case ReadCodeStep =>
      var refusal := CheckCode(s.db.codes, x.code, x.client, x.verifier, s.now);
      ExchangeGoto(s, n, if refusal.Some? then Rejected(refusal.value) else DeleteCode(s.db.codes[x.code]))
    case DeleteCodeStep =>
      if x.code !in s.db.codes then ExchangeGoto(s, n, Rejected(AlreadyUsed))
      else
        var session := if x.code in s.keys then s.keys[x.code].session else x.code;
        ExchangeGoto(s, n, ReadOwner(x.pc.row)).(
          db := s.db.(codes := s.db.codes - {x.code}), redeemed := s.redeemed[session := n])
    case ReadOwnerStep =>
      var user := BoundUser(s.db.clients, x.client, x.pc.row.user);
      ExchangeGoto(s, n, if user.Err? then Rejected(user.error) else InsertAccess(x.pc.row, user.value))
    case InsertAccessStep(token, ttl) =>
      var session := if x.code in s.keys then s.keys[x.code].session else x.code;
      ExchangeGoto(s, n, InsertRefresh(x.pc.row, x.pc.user, Sha256(token))).(
        db := s.db.(access := s.db.access[Sha256(token) := NewAccess(x.pc.row, x.pc.user, s.now + ttl)]),
        accessOf := s.accessOf[Sha256(token) := session], minted := s.minted + {token})
    case InsertRefreshStep(token, ttl) =>
      var session := if x.code in s.keys then s.keys[x.code].session else x.code;
      ExchangeGoto(s, n, Issued(x.pc.access, Sha256(token))).(
        db := s.db.(refresh := s.db.refresh[Sha256(token) := NewRefresh(x.pc.row, x.pc.user, x.pc.access, s.now + ttl)]),
        refreshOf := s.refreshOf[Sha256(token) := session], minted := s.minted + {token})
    case InsertFails => ExchangeGoto(s, n, InsertFailed)
  }

  function Apply(s: State, e: Event): State
    requires Enabled(s, e)
  {
    match e
    case Tick(seconds) => s.(now := s.now + seconds)
    case Register(client, row) =>
      s.(db := s.db.(clients := s.db.clients[client := row]), minted := s.minted + {client})
    case ClaimOwner(client, owner) =>
      s.(db := s.db.(clients := s.db.clients[client := s.db.clients[client].(owner := Some(owner))]))
    case RemoveClient(client) => s.(db := s.db.(clients := s.db.clients - {client}))
    case RemoveCodes(client) => s.(db := s.db.(codes := map k | k in s.db.codes && s.db.codes[k].client != client :: s.db.codes[k]))
    case RemoveAccess(client) => s.(db := s.db.(access := map h | h in s.db.access && s.db.access[h].client != client :: s.db.access[h]))
    case RemoveRefresh(client) => s.(db := s.db.(refresh := map h | h in s.db.refresh && s.db.refresh[h].client != client :: s.db.refresh[h]))
    case NewSession(session, terms) =>
      s.(db := Authorize(s.db, session, terms, s.now), minted := s.minted + {session},
         sessions := s.sessions[session := terms], keys := s.keys[session := Key(session, None, None, None)])
    case DenySession(key) => s.(db := Deny(s.db, key))
    case BeginApproval(n, key, user) => s.(approvals := s.approvals[n := Approval(key, user, ReadSession)])
    case ApprovalCall(n, step) => ApprovalApply(s, n, step)
    case BeginExchange(n, code, client, verifier) =>
      s.(exchanges := s.exchanges[n := Exchange(code, client, verifier, ReadCode)])
    case ExchangeCall(n, step) => ExchangeApply(s, n, step)
  }

  function Step(s: State, e: Event): State {
    if Enabled(s, e) then Apply(s, e) else s
  }

  function Run(s: State, events: seq<Event>): State {
    if events == [] then s else Step(Run(s, events[..|events| - 1]), events[|events| - 1])
  }

  /** Clients are there, their ids are taken; no session, code, token or handler yet. */
  ghost predicate Init(s: State) {
    && s.db == Tables(s.db.clients, map[], map[], map[])
    && s.approvals == map[] && s.exchanges == map[]
    && s.sessions == map[] && s.keys == map[] && s.redeemed == map[] && s.accessOf == map[] && s.refreshOf == map[]
    && s.db.clients.Keys <= s.minted
    && forall c :: c in s.db.clients && s.db.clients[c].isPublic ==> s.db.clients[c].owner.None?
  }
}
