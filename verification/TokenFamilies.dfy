/**
 Token families over every run of whole handlers: an exchanged code and all pairs later rotated from
 it, or one plugin token.  Revocations that go past the provider take part.
 */
module TokenFamilies {
  import opened Prelude
  import opened OAuthTables
  import opened OAuthGrants
  import opened TokenOps
  import ClaimClient

  /** History of a family: the session that led to it, if any, its client and its scopes. */
  datatype Root = Root(session: Option<string>, client: string, scopes: seq<string>)

  datatype State = State(
    db: Tables,
    now: int,
    minted: set<string>,
    sessionOf: map<string, string>,       // history: the session of every session id and code
    consents: set<(string, string)>,      // history: session and user of every approval that named a user
    family: map<Hash, string>,            // history: the family of every token issued
    roots: map<string, Root>,
    bound: map<string, Option<string>>    // history: the user of a family's latest pair
  )

  datatype Event = Tick(seconds: nat) | Do(write: Write)

  function SessionOf(s: State, key: string): string {
    if key in s.sessionOf then s.sessionOf[key] else key
  }

  /** What a write adds to the history; `s` is the state before it. */
  function Recorded(s: State, w: Write): State {
    match w
    case NewSession(session, _) => s.(sessionOf := s.sessionOf[session := session])
    case ApproveSession(key, user, code) =>
      if Approve(s.db, key, user, code, s.now).1.Err? then s
      else
        s.(sessionOf := s.sessionOf[code := SessionOf(s, key)],
           consents := if user.Some? then s.consents + {(SessionOf(s, key), user.value)} else s.consents)
    case ExchangeCode(code, client, verifier, pair) =>
      if Exchange(s.db, code, client, verifier, pair, s.now).1.Some? then s
      else
        var row := s.db.codes[code];
        s.(family := s.family[Sha256(pair.access) := code][Sha256(pair.refresh) := code],
           roots := s.roots[code := Root(Some(SessionOf(s, code)), client, row.scopes)],
           bound := s.bound[code := BoundUser(s.db.clients, client, row.user).value])
    case ExchangeRefresh(token, client, pair) =>
      if Refresh(s.db, token, client, pair, s.now).1.Some? || Sha256(token) !in s.family then s
      else
        var f := s.family[Sha256(token)];
        s.(family := s.family[Sha256(pair.access) := f][Sha256(pair.refresh) := f],
           bound := s.bound[f := CarriedUser(s.db.clients, s.db.refresh[Sha256(token)])])
    case LoginPlugin(client, user, token) =>
      if client in s.db.clients && s.db.clients[client].owner == Some(user) then
        s.(family := s.family[Sha256(token) := token], roots := s.roots[token := Root(None, client, ["mcp"])],
           bound := s.bound[token := Some(user)])
      else s
    case _ => s
  }

  ghost predicate Enabled(s: State, e: Event) {
    e.Do? ==> Fresh(s.minted, e.write)
  }

  function After(s: State, w: Write): State {
    Recorded(s, w).(db := Written(s.db, w, s.now), minted := s.minted + Generated(w))
  }

  ghost function Step(s: State, e: Event): State {
    if !Enabled(s, e) then s
    else match e
      case Tick(seconds) => s.(now := s.now + seconds)
      case Do(w) => After(s, w)
  }

  ghost function Run(s: State, events: seq<Event>): State {
    if events == [] then s else Step(Run(s, events[..|events| - 1]), events[|events| - 1])
  }

  /** Time passes between writes. */
  lemma TimePasses(s: State, seconds: nat)
    ensures Step(s, Tick(seconds)) == s.(now := s.now + seconds)
  {
  }

  /**
   Every write whose generated values are new happens; no public client is registered with an owner, no
   session begun for an unknown client.
   */
  lemma EveryWriteHappens(s: State, w: Write)
    requires forall x :: x in Generated(w) ==> x !in s.minted
    requires w.Register? && w.row.isPublic ==> w.row.owner.None?
    requires w.NewSession? ==> w.terms.client in s.minted
    requires w.ExchangeCode? || w.ExchangeRefresh? ==> w.pair.access != w.pair.refresh
    ensures Step(s, Do(w)).db == Written(s.db, w, s.now)
  {
  }

  /** Clients are there, their ids are taken; no session, code or token yet. */
  ghost predicate Init(s: State) {
    && s.db == Tables(s.db.clients, map[], map[], map[])
    && s.sessionOf == map[] && s.consents == {} && s.family == map[] && s.roots == map[] && s.bound == map[]
    && s.db.clients.Keys <= s.minted && PublicUnowned(s.db.clients)
  }

  // ---------------------------------------------------------------------------------------------
  // The invariant
  // ---------------------------------------------------------------------------------------------

  predicate IsPublic(clients: Clients, client: string) {
    client in clients && clients[client].isPublic
  }

  ghost predicate PublicUnowned(clients: Clients) {
    forall c :: IsPublic(clients, c) ==> clients[c].owner.None?
  }

  ghost predicate TokensKnown(family: map<Hash, string>, roots: map<string, Root>, minted: set<string>) {
    forall h :: h in family ==> h.token in minted && family[h] in roots
  }

  ghost predicate RootsKnown(roots: map<string, Root>, minted: set<string>) {
    forall f :: f in roots ==> f in minted && roots[f].client in minted
  }

  /** A live key has not become a family. */
  ghost predicate CodesKnown(codes: Codes, roots: map<string, Root>, minted: set<string>) {
    forall k :: k in codes ==> k !in roots && codes[k].client in minted
  }

  /** Session ids and codes have been generated; live ones are on record. */
  ghost predicate KeysKnown(codes: Codes, sessionOf: map<string, string>, minted: set<string>) {
    sessionOf.Keys <= minted && codes.Keys <= sessionOf.Keys
  }

  ghost predicate Known(s: State) {
    && s.db.clients.Keys <= s.minted && PublicUnowned(s.db.clients)
    && KeysKnown(s.db.codes, s.sessionOf, s.minted)
    && TokensKnown(s.family, s.roots, s.minted) && RootsKnown(s.roots, s.minted) && CodesKnown(s.db.codes, s.roots, s.minted)
    && s.db.access.Keys <= s.family.Keys && s.db.refresh.Keys <= s.family.Keys && s.bound.Keys == s.roots.Keys
  }

  /** The user on a public client's code consented to its session. */
  ghost predicate CodesConsented(clients: Clients, codes: Codes, sessionOf: map<string, string>, consents: set<(string, string)>) {
    forall k :: k in codes && k in sessionOf && IsPublic(clients, codes[k].client) && codes[k].user.Some?
                ==> (sessionOf[k], codes[k].user.value) in consents
  }

  /** A family of a public client is bound to a user who consented to its session. */
  ghost predicate RootConsented(root: Root, bound: Option<string>, consents: set<(string, string)>) {
    root.session.Some? && Truthy(bound) && (root.session.value, bound.value) in consents
  }

  ghost predicate RootsConsented(
      clients: Clients, roots: map<string, Root>, bound: map<string, Option<string>>, consents: set<(string, string)>) {
    forall f :: f in roots && f in bound && IsPublic(clients, roots[f].client) ==> RootConsented(roots[f], bound[f], consents)
  }

  /** A token's user is the family's, or was left open while the family had none. */
  predicate UserFits(clients: Clients, client: string, user: Option<string>, bound: Option<string>) {
    user == bound || (user.None? && !IsPublic(clients, client))
  }

  ghost predicate AccessFits(clients: Clients, row: AccessRow, root: Root, bound: Option<string>) {
    row.client == root.client && row.scopes == root.scopes && UserFits(clients, row.client, row.user, bound)
  }

  ghost predicate AccessShared(
      clients: Clients, access: AccessTokens, family: map<Hash, string>, roots: map<string, Root>, bound: map<string, Option<string>>) {
    forall h :: h in access && h in family && family[h] in roots && family[h] in bound
                ==> AccessFits(clients, access[h], roots[family[h]], bound[family[h]])
  }

  /** The refresh token that can still be rotated carries the family's user itself. */
  ghost predicate RefreshFits(clients: Clients, row: RefreshRow, root: Root, bound: Option<string>) {
    && row.client == root.client && row.scopes == root.scopes && UserFits(clients, row.client, row.user, bound)
    && (!row.revoked ==> row.user == bound)
  }

  ghost predicate RefreshShared(
      clients: Clients, refresh: RefreshTokens, family: map<Hash, string>, roots: map<string, Root>, bound: map<string, Option<string>>) {
    forall h :: h in refresh && h in family && family[h] in roots && family[h] in bound
                ==> RefreshFits(clients, refresh[h], roots[family[h]], bound[family[h]])
  }

  ghost predicate OneAccess(access: AccessTokens, family: map<Hash, string>) {
    && access.Keys <= family.Keys
    && forall g, h :: g in access && h in access && !access[g].revoked && !access[h].revoked && family[g] == family[h] ==> g == h
  }

  ghost predicate OneRefresh(refresh: RefreshTokens, family: map<Hash, string>) {
    && refresh.Keys <= family.Keys
    && forall g, h :: g in refresh && h in refresh && !refresh[g].revoked && !refresh[h].revoked && family[g] == family[h] ==> g == h
  }

  /** An unrevoked refresh token is linked to an unrevoked access token of its family. */
  ghost predicate LinkFits(access: AccessTokens, family: map<Hash, string>, h: Hash, row: RefreshRow) {
    !row.revoked ==>
      && row.access.Some? && row.access.value in access && !access[row.access.value].revoked
      && row.access.value in family && h in family && family[row.access.value] == family[h]
  }

  ghost predicate Linked(access: AccessTokens, refresh: RefreshTokens, family: map<Hash, string>) {
    forall h :: h in refresh ==> LinkFits(access, family, h, refresh[h])
  }

  ghost predicate OneLivePair(s: State) {
    OneAccess(s.db.access, s.family) && OneRefresh(s.db.refresh, s.family) && Linked(s.db.access, s.db.refresh, s.family)
  }

  ghost predicate Consented(s: State) {
    CodesConsented(s.db.clients, s.db.codes, s.sessionOf, s.consents) && RootsConsented(s.db.clients, s.roots, s.bound, s.consents)
  }

  ghost predicate Shared(s: State) {
    && AccessShared(s.db.clients, s.db.access, s.family, s.roots, s.bound)
    && RefreshShared(s.db.clients, s.db.refresh, s.family, s.roots, s.bound)
  }

  ghost predicate Inv(s: State) {
    Known(s) && Consented(s) && Shared(s) && OneLivePair(s)
  }

  // ---------------------------------------------------------------------------------------------
  // Clients, sessions and approvals
  // ---------------------------------------------------------------------------------------------

  ghost predicate NoneTurnsPublic(before: Clients, after: Clients, minted: set<string>) {
    forall c :: c in minted && IsPublic(after, c) ==> IsPublic(before, c)
  }

  /** As long as no known client turns public, the client table matters no more. */
  lemma ClientsKeepConsented(s: State, clients: Clients)
    requires Known(s) && Consented(s) && NoneTurnsPublic(s.db.clients, clients, s.minted)
    ensures Consented(s.(db := s.db.(clients := clients)))
  {
  }

  lemma ClientsKeepShared(s: State, clients: Clients)
    requires Known(s) && Shared(s) && NoneTurnsPublic(s.db.clients, clients, s.minted)
    ensures Shared(s.(db := s.db.(clients := clients)))
  {
  }

  lemma ClientWritesKeepInv(s: State, w: Write)
    requires Inv(s) && Fresh(s.minted, w) && (w.Register? || w.Claim?)
    ensures Inv(After(s, w))
  {
    var t := After(s, w);
    ClientsKeepConsented(s, t.db.clients);
    ClientsKeepShared(s, t.db.clients);
  }

  predicate SessionWrite(w: Write) {
    w.NewSession? || w.ApproveSession? || w.DenySession?
  }

  lemma SessionWritesSpareTokens(s: State, w: Write)
    requires SessionWrite(w)
    ensures var t := After(s, w);
            && t.db.clients == s.db.clients && t.db.access == s.db.access && t.db.refresh == s.db.refresh
            && t.family == s.family && t.roots == s.roots && t.bound == s.bound
            && t.minted == s.minted + Generated(w) && s.consents <= t.consents
  {
  }

  lemma SessionWritesKeepKeys(s: State, w: Write)
    requires KeysKnown(s.db.codes, s.sessionOf, s.minted) && CodesKnown(s.db.codes, s.roots, s.minted)
    requires RootsKnown(s.roots, s.minted) && Fresh(s.minted, w) && SessionWrite(w)
    ensures var t := After(s, w);
            KeysKnown(t.db.codes, t.sessionOf, t.minted) && CodesKnown(t.db.codes, s.roots, t.minted)
  {
    match w
    case NewSession(_, _) =>
    case DenySession(_) =>
    case ApproveSession(key, user, code) => ApprovalKeepsKeys(s, key, user, code);
  }

  lemma ApprovalKeepsKeys(s: State, key: string, user: Option<string>, code: string)
    requires KeysKnown(s.db.codes, s.sessionOf, s.minted) && CodesKnown(s.db.codes, s.roots, s.minted)
    requires RootsKnown(s.roots, s.minted) && Fresh(s.minted, ApproveSession(key, user, code))
    ensures var t := After(s, ApproveSession(key, user, code));
            KeysKnown(t.db.codes, t.sessionOf, t.minted) && CodesKnown(t.db.codes, s.roots, t.minted)
  {
  }

  lemma SessionWritesKeepConsented(s: State, w: Write)
    requires Known(s) && Consented(s) && Fresh(s.minted, w) && SessionWrite(w)
    ensures Consented(After(s, w))
  {
  }

  lemma MoreMinted(s: State, minted: set<string>)
    requires Known(s) && s.minted <= minted
    ensures Known(s.(minted := minted))
  {
  }

  lemma SessionWritesKeepInv(s: State, w: Write)
    requires Inv(s) && Fresh(s.minted, w) && SessionWrite(w)
    ensures Inv(After(s, w))
  {
    MoreMinted(s, s.minted + Generated(w));
    SessionWritesSpareTokens(s, w);
    SessionWritesKeepKeys(s, w);
    SessionWritesKeepConsented(s, w);
  }

  // ---------------------------------------------------------------------------------------------
  // Exchange, rotation and the plugin login
  // ---------------------------------------------------------------------------------------------

  /** A family gets a root: a code that is no longer live, or a plugin token. */
  function WithRoot(s: State, f: string, root: Root, user: Option<string>): State {
    s.(roots := s.roots[f := root], bound := s.bound[f := user], minted := s.minted + {f})
  }

  lemma RootKeepsInv(s: State, f: string, root: Root, user: Option<string>)
    requires Inv(s) && f !in s.roots && f !in s.db.codes && root.client in s.minted
    requires IsPublic(s.db.clients, root.client) ==> RootConsented(root, user, s.consents)
    ensures Inv(WithRoot(s, f, root, user))
  {
    MoreMinted(s, s.minted + {f});
  }

  function WithAccess(s: State, f: string, token: string, row: AccessRow): State {
    s.(db := s.db.(access := s.db.access[Sha256(token) := row]), family := s.family[Sha256(token) := f], minted := s.minted + {token})
  }

  function WithRefresh(s: State, f: string, token: string, row: RefreshRow): State {
    s.(db := s.db.(refresh := s.db.refresh[Sha256(token) := row]), family := s.family[Sha256(token) := f], minted := s.minted + {token})
  }

  ghost predicate NoLiveAccess(s: State, f: string) {
    forall h :: h in s.db.access && h in s.family && s.family[h] == f ==> s.db.access[h].revoked
  }

  ghost predicate NoLiveRefresh(s: State, f: string) {
    forall h :: h in s.db.refresh && h in s.family && s.family[h] == f ==> s.db.refresh[h].revoked
  }

  /** A token that is not stored yet joins a family. */
  lemma MemberKeepsInv(s: State, f: string, token: string)
    requires Inv(s) && f in s.roots && Sha256(token) !in s.family
    ensures Inv(s.(family := s.family[Sha256(token) := f], minted := s.minted + {token}))
  {
    MoreMinted(s, s.minted + {token});
    MemberKeepsPairs(s, f, Sha256(token));
  }

  lemma MemberKeepsPairs(s: State, f: string, h: Hash)
    requires Known(s) && OneLivePair(s) && h !in s.family
    ensures OneLivePair(s.(family := s.family[h := f]))
  {
  }

  lemma AccessKeepsInv(s: State, f: string, token: string, row: AccessRow)
    requires Inv(s) && f in s.roots && Sha256(token) !in s.family && NoLiveAccess(s, f)
    requires AccessFits(s.db.clients, row, s.roots[f], s.bound[f])
    ensures Inv(WithAccess(s, f, token, row))
  {
    MemberKeepsInv(s, f, token);
    StoredAccessKeepsInv(s.(family := s.family[Sha256(token) := f], minted := s.minted + {token}), Sha256(token), row);
  }

  lemma StoredAccessKeepsInv(s: State, h: Hash, row: AccessRow)
    requires Inv(s) && h in s.family && h !in s.db.access && NoLiveAccess(s, s.family[h])
    requires AccessFits(s.db.clients, row, s.roots[s.family[h]], s.bound[s.family[h]])
    ensures Inv(s.(db := s.db.(access := s.db.access[h := row])))
  {
    var access := s.db.access[h := row];
    assert OneAccess(access, s.family);
    assert Linked(access, s.db.refresh, s.family);
    assert AccessShared(s.db.clients, access, s.family, s.roots, s.bound);
  }

  lemma RefreshKeepsInv(s: State, f: string, token: string, row: RefreshRow)
    requires Inv(s) && f in s.roots && Sha256(token) !in s.family && NoLiveRefresh(s, f)
    requires RefreshFits(s.db.clients, row, s.roots[f], s.bound[f])
    requires row.access.Some? && row.access.value in s.db.access && !s.db.access[row.access.value].revoked
             && s.family[row.access.value] == f
    ensures Inv(WithRefresh(s, f, token, row))
  {
    MemberKeepsInv(s, f, token);
    StoredRefreshKeepsInv(s.(family := s.family[Sha256(token) := f], minted := s.minted + {token}), Sha256(token), row);
  }

  lemma StoredRefreshKeepsInv(s: State, h: Hash, row: RefreshRow)
    requires Inv(s) && h in s.family && h !in s.db.refresh && NoLiveRefresh(s, s.family[h])
    requires RefreshFits(s.db.clients, row, s.roots[s.family[h]], s.bound[s.family[h]])
    requires LinkFits(s.db.access, s.family, h, row)
    ensures Inv(s.(db := s.db.(refresh := s.db.refresh[h := row])))
  {
    var refresh := s.db.refresh[h := row];
    assert OneRefresh(refresh, s.family);
    assert Linked(s.db.access, refresh, s.family);
    assert RefreshShared(s.db.clients, refresh, s.family, s.roots, s.bound);
  }

  function WithPair(s: State, f: string, pair: TokenPair, access: AccessRow, refresh: RefreshRow): State {
    WithRefresh(WithAccess(s, f, pair.access, access), f, pair.refresh, refresh)
  }

  /** A new pair for a family with nothing left unrevoked. */
  lemma PairKeepsInv(s: State, f: string, pair: TokenPair, access: AccessRow, refresh: RefreshRow)
    requires Inv(s) && f in s.roots && NoLiveAccess(s, f) && NoLiveRefresh(s, f)
    requires Sha256(pair.access) !in s.family && Sha256(pair.refresh) !in s.family && pair.access != pair.refresh
    requires AccessFits(s.db.clients, access, s.roots[f], s.bound[f]) && !access.revoked
    requires RefreshFits(s.db.clients, refresh, s.roots[f], s.bound[f]) && refresh.access == Some(Sha256(pair.access))
    ensures Inv(WithPair(s, f, pair, access, refresh))
  {
    AccessKeepsInv(s, f, pair.access, access);
    RefreshKeepsInv(WithAccess(s, f, pair.access, access), f, pair.refresh, refresh);
  }

  /** A family that had no user may be given one before its next pair is issued. */
  lemma BindingKeepsInv(s: State, f: string, user: Option<string>)
    requires Inv(s) && f in s.roots && NoLiveRefresh(s, f)
    requires user == s.bound[f] || (s.bound[f].None? && !IsPublic(s.db.clients, s.roots[f].client))
    ensures Inv(s.(bound := s.bound[f := user]))
  {
  }

  // ---------------------------------------------------------------------------------------------
  // Revocation
  // ---------------------------------------------------------------------------------------------

  ghost predicate AccessWeaker(before: AccessTokens, after: AccessTokens) {
    before.Keys == after.Keys
    && forall h :: h in before ==> after[h] == before[h] || after[h] == before[h].(revoked := true)
  }

  ghost predicate RefreshWeaker(before: RefreshTokens, after: RefreshTokens) {
    before.Keys == after.Keys
    && forall h :: h in before ==> after[h] == before[h] || after[h] == before[h].(revoked := true)
  }

  lemma RefreshRevocationKeepsInv(s: State, refresh: RefreshTokens)
    requires Inv(s) && RefreshWeaker(s.db.refresh, refresh)
    ensures Inv(s.(db := s.db.(refresh := refresh)))
  {
    assert OneRefresh(refresh, s.family);
    assert Linked(s.db.access, refresh, s.family);
    assert RefreshShared(s.db.clients, refresh, s.family, s.roots, s.bound);
  }

  lemma AccessRevocationKeepsInv(s: State, access: AccessTokens)
    requires Inv(s) && AccessWeaker(s.db.access, access) && Linked(access, s.db.refresh, s.family)
    ensures Inv(s.(db := s.db.(access := access)))
  {
    assert OneAccess(access, s.family);
    assert AccessShared(s.db.clients, access, s.family, s.roots, s.bound);
  }

  lemma RevocationKeepsInv(s: State, access: AccessTokens, refresh: RefreshTokens)
    requires Inv(s) && AccessWeaker(s.db.access, access) && RefreshWeaker(s.db.refresh, refresh)
    requires Linked(access, refresh, s.family)
    ensures Inv(s.(db := s.db.(access := access, refresh := refresh)))
  {
    RefreshRevocationKeepsInv(s, refresh);
    AccessRevocationKeepsInv(s.(db := s.db.(refresh := refresh)), access);
  }

  /** An access token revoked together with the refresh tokens linked to it. */
  lemma PairRevocationKeepsInv(s: State, h: Hash)
    requires Inv(s)
    ensures Inv(s.(db := s.db.(access := RevokeAccess(s.db.access, h), refresh := RevokeLinked(s.db.refresh, h))))
  {
    RevocationKeepsInv(s, RevokeAccess(s.db.access, h), RevokeLinked(s.db.refresh, h));
  }

  /** A refresh token shares the client of the access token it is linked to. */
  lemma LinkedShareClient(s: State, h: Hash)
    requires Inv(s) && h in s.db.refresh && !s.db.refresh[h].revoked
    ensures s.db.refresh[h].access.Some? && s.db.refresh[h].access.value in s.db.access
    ensures s.db.access[s.db.refresh[h].access.value].client == s.db.refresh[h].client
  {
    assert LinkFits(s.db.access, s.family, h, s.db.refresh[h]);
    assert RefreshFits(s.db.clients, s.db.refresh[h], s.roots[s.family[h]], s.bound[s.family[h]]);
  }

  lemma ClientRevocationKeepsInv(s: State, client: string)
    requires Inv(s)
    ensures Inv(s.(db := RevokeClientTokens(s.db, client)))
  {
    var access, refresh := RevokeAccessOf(s.db.access, client), RevokeRefreshOf(s.db.refresh, client);
    forall h | h in refresh ensures LinkFits(access, s.family, h, refresh[h]) {
      assert LinkFits(s.db.access, s.family, h, s.db.refresh[h]);
      if !s.db.refresh[h].revoked {
        LinkedShareClient(s, h);
      }
    }
    RevocationKeepsInv(s, access, refresh);
  }

  lemma PortalRevocationKeepsInv(s: State, client: string, user: string)
    requires Inv(s)
    ensures Inv(s.(db := PortalRevoke(s.db, client, user)))
  {
    if client in s.db.clients && s.db.clients[client].owner == Some(user) {
      var clients := s.db.clients[client := s.db.clients[client].(active := false)];
      ClientsKeepConsented(s, clients);
      ClientsKeepShared(s, clients);
      ClientRevocationKeepsInv(s.(db := s.db.(clients := clients)), client);
    }
  }

  lemma DeletionKeepsInv(s: State, client: string)
    requires Inv(s)
    ensures Inv(s.(db := DeleteClient(s.db, client)))
  {
    var db := DeleteClient(s.db, client);
    ClientsKeepConsented(s, db.clients);
    ClientsKeepShared(s, db.clients);
    DeletionKeepsRows(s.(db := s.db.(clients := db.clients)), client);
    forall h | h in db.refresh ensures LinkFits(db.access, s.family, h, db.refresh[h]) {
      assert LinkFits(s.db.access, s.family, h, s.db.refresh[h]);
      if !s.db.refresh[h].revoked {
        LinkedShareClient(s, h);
      }
    }
  }

  lemma DeletionKeepsRows(s: State, client: string)
    requires Inv(s)
    ensures var t := s.(db := DeleteClient(s.db, client).(clients := s.db.clients));
            Known(t) && Consented(t) && Shared(t) && OneAccess(t.db.access, t.family) && OneRefresh(t.db.refresh, t.family)
  {
  }

  // ---------------------------------------------------------------------------------------------
  // Every write
  // ---------------------------------------------------------------------------------------------

  lemma ExchangeKeepsInv(s: State, w: Write)
    requires Inv(s) && w.ExchangeCode? && Fresh(s.minted, w)
    ensures Inv(After(s, w))
  {
    if Exchange(s.db, w.code, w.client, w.verifier, w.pair, s.now).1.None? {
      IssueForCode(s, w.code, w.client, w.verifier, w.pair);
    } else {
      SessionWritesKeepInv(s, DenySession(w.code));
      assert s.db == s.db.(codes := s.db.codes);
      MoreMinted(s, s.minted + Generated(w));
      MoreMinted(s.(db := Deny(s.db, w.code)), s.minted + Generated(w));
    }
  }

  /** The code is gone and has become a family, not yet with tokens. */
  function Consumed(s: State, code: string, client: string): State
    requires code in s.db.codes && BoundUser(s.db.clients, client, s.db.codes[code].user).Ok?
  {
    WithRoot(s.(db := Deny(s.db, code)), code, Root(Some(SessionOf(s, code)), client, s.db.codes[code].scopes),
             BoundUser(s.db.clients, client, s.db.codes[code].user).value)
  }

  lemma ConsumedKeepsInv(s: State, code: string, client: string)
    requires Inv(s) && code in s.db.codes && s.db.codes[code].client == client
    requires BoundUser(s.db.clients, client, s.db.codes[code].user).Ok?
    ensures Inv(Consumed(s, code, client))
    ensures NoLiveAccess(Consumed(s, code, client), code) && NoLiveRefresh(Consumed(s, code, client), code)
  {
    SessionWritesKeepInv(s, DenySession(code));
    var s0 := s.(db := Deny(s.db, code));
    assert After(s, DenySession(code)) == s0;
    RootKeepsInv(s0, code, Root(Some(SessionOf(s, code)), client, s.db.codes[code].scopes),
                 BoundUser(s.db.clients, client, s.db.codes[code].user).value);
  }

  lemma ExchangeIssuesPair(s: State, code: string, client: string, verifier: Option<string>, pair: TokenPair)
    requires code in s.minted && Exchange(s.db, code, client, verifier, pair, s.now).1.None?
    ensures var row := s.db.codes[code];
            var user := BoundUser(s.db.clients, client, row.user).value;
            After(s, ExchangeCode(code, client, verifier, pair))
            == WithPair(Consumed(s, code, client), code, pair, NewAccess(row, user, s.now + pair.ttl),
                        NewRefresh(row, user, Sha256(pair.access), s.now + pair.refreshTtl))
  {
  }

  lemma PairIsUnknown(s: State, pair: TokenPair)
    requires TokensKnown(s.family, s.roots, s.minted) && pair.access !in s.minted && pair.refresh !in s.minted
    ensures Sha256(pair.access) !in s.family && Sha256(pair.refresh) !in s.family
  {
  }

  lemma IssueForCode(s: State, code: string, client: string, verifier: Option<string>, pair: TokenPair)
    requires Inv(s) && Fresh(s.minted, ExchangeCode(code, client, verifier, pair))
    requires Exchange(s.db, code, client, verifier, pair, s.now).1.None?
    ensures Inv(After(s, ExchangeCode(code, client, verifier, pair)))
  {
    ExchangeIssuesPair(s, code, client, verifier, pair);
    ConsumedKeepsInv(s, code, client);
    PairIsUnknown(s, pair);
    PairForCode(s, code, client, pair);
  }

  lemma PairForCode(s: State, code: string, client: string, pair: TokenPair)
    requires code in s.db.codes && s.db.codes[code].client == client && BoundUser(s.db.clients, client, s.db.codes[code].user).Ok?
    requires var t := Consumed(s, code, client); Inv(t) && NoLiveAccess(t, code) && NoLiveRefresh(t, code)
    requires Sha256(pair.access) !in s.family && Sha256(pair.refresh) !in s.family && pair.access != pair.refresh
    ensures var user := BoundUser(s.db.clients, client, s.db.codes[code].user).value;
            Inv(WithPair(Consumed(s, code, client), code, pair, NewAccess(s.db.codes[code], user, s.now + pair.ttl),
                         NewRefresh(s.db.codes[code], user, Sha256(pair.access), s.now + pair.refreshTtl)))
  {
    var row := s.db.codes[code];
    var user := BoundUser(s.db.clients, client, row.user).value;
    PairKeepsInv(Consumed(s, code, client), code, pair, NewAccess(row, user, s.now + pair.ttl),
                 NewRefresh(row, user, Sha256(pair.access), s.now + pair.refreshTtl));
  }

  lemma PluginKeepsInv(s: State, w: Write)
    requires Inv(s) && w.LoginPlugin? && Fresh(s.minted, w)
    ensures Inv(After(s, w))
  {
    MoreMinted(s, s.minted + {w.token});
    if w.client in s.db.clients && s.db.clients[w.client].owner == Some(w.claimer) {
      IssuePluginToken(s, w.client, w.claimer, w.token);
    }
  }

  lemma IssuePluginToken(s: State, client: string, user: string, token: string)
    requires Inv(s) && Fresh(s.minted, LoginPlugin(client, user, token))
    requires client in s.db.clients && s.db.clients[client].owner == Some(user)
    ensures Inv(After(s, LoginPlugin(client, user, token)))
  {
    var row := AccessRow(client, Some(user), ["mcp"], Plain(None), Some(0), false);
    RootKeepsInv(s, token, Root(None, client, ["mcp"]), Some(user));
    var s1 := WithRoot(s, token, Root(None, client, ["mcp"]), Some(user));
    AccessKeepsInv(s1, token, token, row);
    assert After(s, LoginPlugin(client, user, token)) == WithAccess(s1, token, token, row);
  }

  /** Rotation: with the old pair revoked, nothing of the family is live, and the new pair takes its place. */
  lemma RotationKeepsInv(s: State, w: Write)
    requires Inv(s) && w.ExchangeRefresh? && Fresh(s.minted, w)
    ensures Inv(After(s, w))
  {
    MoreMinted(s, s.minted + Generated(w));
    if Refresh(s.db, w.token, w.client, w.pair, s.now).1.None? {
      RotatedKeepsInv(s, Sha256(w.token), w.pair);
      RefreshRotates(s, w.token, w.client, w.pair);
    }
  }

  /** The state once the presented refresh token and its access token are revoked. */
  ghost function OldPairRevoked(s: State, h: Hash): State
    requires h in s.db.refresh && s.db.refresh[h].access.Some?
  {
    s.(db := s.db.(access := RevokeAccess(s.db.access, s.db.refresh[h].access.value), refresh := RevokeRefresh(s.db.refresh, h)))
  }

  lemma OldPairWasOnly(s: State, h: Hash)
    requires OneLivePair(s) && h in s.db.refresh && !s.db.refresh[h].revoked
    ensures s.db.refresh[h].access.Some?
    ensures var t := OldPairRevoked(s, h);
            NoLiveAccess(t, s.family[h]) && NoLiveRefresh(t, s.family[h]) && Linked(t.db.access, t.db.refresh, s.family)
  {
    assert LinkFits(s.db.access, s.family, h, s.db.refresh[h]);
    var t := OldPairRevoked(s, h);
    forall g | g in t.db.refresh ensures LinkFits(t.db.access, s.family, g, t.db.refresh[g]) {
      assert LinkFits(s.db.access, s.family, g, s.db.refresh[g]);
    }
  }

  lemma OldPairKeepsInv(s: State, h: Hash)
    requires Inv(s) && h in s.db.refresh && !s.db.refresh[h].revoked
    ensures s.db.refresh[h].access.Some? && Inv(OldPairRevoked(s, h))
    ensures NoLiveAccess(OldPairRevoked(s, h), s.family[h]) && NoLiveRefresh(OldPairRevoked(s, h), s.family[h])
  {
    OldPairWasOnly(s, h);
    RevocationKeepsInv(s, OldPairRevoked(s, h).db.access, OldPairRevoked(s, h).db.refresh);
  }

  lemma RevokeOldPair(s: State, h: Hash, user: Option<string>)
    requires Inv(s) && h in s.db.refresh && !s.db.refresh[h].revoked && user == CarriedUser(s.db.clients, s.db.refresh[h])
    ensures s.db.refresh[h].access.Some?
    ensures var s1 := OldPairRevoked(s, h).(bound := s.bound[s.family[h] := user]);
            Inv(s1) && NoLiveAccess(s1, s.family[h]) && NoLiveRefresh(s1, s.family[h])
  {
    OldPairKeepsInv(s, h);
    assert RefreshFits(s.db.clients, s.db.refresh[h], s.roots[s.family[h]], s.bound[s.family[h]]);
    BindingKeepsInv(OldPairRevoked(s, h), s.family[h], user);
  }

  /** The rotated state: the old pair revoked, the family bound, the new pair stored. */
  ghost function Rotated(s: State, h: Hash, pair: TokenPair): State
    requires h in s.family && h in s.db.refresh && s.db.refresh[h].access.Some?
  {
    var user := CarriedUser(s.db.clients, s.db.refresh[h]);
    WithPair(OldPairRevoked(s, h).(bound := s.bound[s.family[h] := user]), s.family[h], pair,
             RotatedAccess(s.db.refresh[h], user, pair, s.now), RotatedRefresh(s.db.refresh[h], user, pair, s.now))
  }

  lemma RefreshRotates(s: State, token: string, client: string, pair: TokenPair)
    requires Sha256(token) in s.family && Refresh(s.db, token, client, pair, s.now).1.None?
    requires s.db.refresh[Sha256(token)].access.Some?
    ensures After(s, ExchangeRefresh(token, client, pair)) == Rotated(s, Sha256(token), pair)
  {
  }

  lemma RotatedKeepsInv(s: State, h: Hash, pair: TokenPair)
    requires Inv(s) && h in s.db.refresh && !s.db.refresh[h].revoked
    requires Fresh(s.minted, ExchangeRefresh("", "", pair))
    ensures s.db.refresh[h].access.Some? && Inv(Rotated(s, h, pair))
  {
    var row, f := s.db.refresh[h], s.family[h];
    var user := CarriedUser(s.db.clients, row);
    RevokeOldPair(s, h, user);
    assert RefreshFits(s.db.clients, row, s.roots[f], s.bound[f]);
    RotatedPairKeepsInv(OldPairRevoked(s, h).(bound := s.bound[f := user]), f, pair, row, user);
  }

  lemma RotatedPairKeepsInv(s: State, f: string, pair: TokenPair, row: RefreshRow, user: Option<string>)
    requires Inv(s) && f in s.roots && NoLiveAccess(s, f) && NoLiveRefresh(s, f)
    requires Fresh(s.minted, ExchangeRefresh("", "", pair))
    requires row.client == s.roots[f].client && row.scopes == s.roots[f].scopes && user == s.bound[f]
    ensures Inv(WithPair(s, f, pair, RotatedAccess(row, user, pair, s.now), RotatedRefresh(row, user, pair, s.now)))
  {
    PairKeepsInv(s, f, pair, RotatedAccess(row, user, pair, s.now), RotatedRefresh(row, user, pair, s.now));
  }

  lemma TokenRevocationKeepsInv(s: State, token: string)
    requires Inv(s)
    ensures Inv(s.(db := Revoke(s.db, token)))
  {
    if Sha256(token) in s.db.access {
      PairRevocationKeepsInv(s, Sha256(token));
    } else {
      RefreshRevocationKeepsInv(s, RevokeRefresh(s.db.refresh, Sha256(token)));
    }
  }

  lemma WriteKeepsInv(s: State, w: Write)
    requires Inv(s) && Fresh(s.minted, w)
    ensures Inv(After(s, w))
  {
    match w
    case Register(_, _) => ClientWritesKeepInv(s, w);
    case Claim(_, _) => ClientWritesKeepInv(s, w);
    case NewSession(_, _) => SessionWritesKeepInv(s, w);
    case ApproveSession(_, _, _) => SessionWritesKeepInv(s, w);
    case DenySession(_) => SessionWritesKeepInv(s, w);
    case ExchangeCode(_, _, _, _) => ExchangeKeepsInv(s, w);
    case ExchangeRefresh(_, _, _) => RotationKeepsInv(s, w);
    case RemoveClient(client) => DeletionKeepsInv(s, client);
    case LoginPlugin(_, _, _) => PluginKeepsInv(s, w);
    case RevokeToken(token) => TokenRevocationKeepsInv(s, token);
    case RevokeClient(client) => ClientRevocationKeepsInv(s, client);
    case RevokeFromAdmin(h) => PairRevocationKeepsInv(s, h);
    case RevokeFromPortal(client, user) => PortalRevocationKeepsInv(s, client, user);
  }

  lemma {:induction false} RunKeepsInv(s: State, events: seq<Event>)
    requires Init(s)
    ensures Inv(Run(s, events))
  {
    if events != [] {
      var m, e := Run(s, events[..|events| - 1]), events[|events| - 1];
      RunKeepsInv(s, events[..|events| - 1]);
      if e.Do? && Enabled(m, e) {
        WriteKeepsInv(m, e.write);
      }
    }
  }

  // ---------------------------------------------------------------------------------------------
  // Every run
  // ---------------------------------------------------------------------------------------------

  predicate LiveAccess(s: State, h: Hash) {
    h in s.db.access && !s.db.access[h].revoked
  }

  predicate LiveRefresh(s: State, h: Hash) {
    h in s.db.refresh && !s.db.refresh[h].revoked
  }

  /**
   After any run of whole handlers a family has at most one unrevoked access token and at most one
   unrevoked refresh token, and the latter is linked to the former.
   */
  lemma OneLivePairPerFamily(s: State, events: seq<Event>, g: Hash, h: Hash)
    requires Init(s)
    ensures var t := Run(s, events);
            && t.db.access.Keys <= t.family.Keys && t.db.refresh.Keys <= t.family.Keys
            && (LiveAccess(t, g) && LiveAccess(t, h) && t.family[g] == t.family[h] ==> g == h)
            && (LiveRefresh(t, g) && LiveRefresh(t, h) && t.family[g] == t.family[h] ==> g == h)
            && (LiveRefresh(t, h) ==>
                  && t.db.refresh[h].access.Some? && LiveAccess(t, t.db.refresh[h].access.value)
                  && t.family[t.db.refresh[h].access.value] == t.family[h])
  {
    RunKeepsInv(s, events);
    var t := Run(s, events);
    assert LiveRefresh(t, h) ==> LinkFits(t.db.access, t.family, h, t.db.refresh[h]);
  }

  /** Client, scopes and user of a stored token, whichever table it is in. */
  ghost predicate HasTerms(s: State, h: Hash, client: string, scopes: seq<string>, user: Option<string>) {
    || (h in s.db.access && s.db.access[h].client == client && s.db.access[h].scopes == scopes && s.db.access[h].user == user)
    || (h in s.db.refresh && s.db.refresh[h].client == client && s.db.refresh[h].scopes == scopes && s.db.refresh[h].user == user)
  }

  /** All tokens of a family share client and scopes, and no two of them belong to different users. */
  lemma FamilySharesTerms(
      s: State, events: seq<Event>, g: Hash, h: Hash,
      c1: string, s1: seq<string>, u1: Option<string>, c2: string, s2: seq<string>, u2: Option<string>)
    requires Init(s)
    requires var t := Run(s, events);
             && HasTerms(t, g, c1, s1, u1) && HasTerms(t, h, c2, s2, u2)
             && g in t.family && h in t.family && t.family[g] == t.family[h]
    ensures c1 == c2 && s1 == s2 && (u1.Some? && u2.Some? ==> u1 == u2)
  {
    RunKeepsInv(s, events);
    var t := Run(s, events);
    TermsFit(t, g, c1, s1, u1);
    TermsFit(t, h, c2, s2, u2);
  }

  lemma TermsFit(s: State, h: Hash, client: string, scopes: seq<string>, user: Option<string>)
    requires Inv(s) && HasTerms(s, h, client, scopes, user)
    ensures h in s.family && s.family[h] in s.roots && s.family[h] in s.bound
    ensures client == s.roots[s.family[h]].client && scopes == s.roots[s.family[h]].scopes
    ensures UserFits(s.db.clients, client, user, s.bound[s.family[h]])
  {
    assert h in s.db.access ==> AccessFits(s.db.clients, s.db.access[h], s.roots[s.family[h]], s.bound[s.family[h]]);
    assert h in s.db.refresh ==> RefreshFits(s.db.clients, s.db.refresh[h], s.roots[s.family[h]], s.bound[s.family[h]]);
  }

  /** Only exchanges, rotations and plugin logins issue tokens. */
  predicate Issues(w: Write) {
    w.ExchangeCode? || w.ExchangeRefresh? || w.LoginPlugin?
  }

  lemma OthersIssueNothing(s: State, w: Write)
    requires !Issues(w)
    ensures After(s, w).family == s.family && After(s, w).bound == s.bound
  {
  }

  /** A code or a plugin token that becomes a family was none before. */
  lemma NewFamiliesKeepBound(s: State, w: Write, f: string)
    requires Known(s) && Fresh(s.minted, w) && (w.ExchangeCode? || w.LoginPlugin?) && f in s.bound
    ensures f in After(s, w).bound && After(s, w).bound[f] == s.bound[f]
  {
  }

  /** The refresh token that is rotated carries the user of its family. */
  lemma RotationKeepsBound(s: State, w: Write, f: string)
    requires Known(s) && RefreshShared(s.db.clients, s.db.refresh, s.family, s.roots, s.bound)
    requires w.ExchangeRefresh? && f in s.bound && s.bound[f].Some?
    ensures f in After(s, w).bound && After(s, w).bound[f] == s.bound[f]
  {
  }

  lemma WriteKeepsBound(s: State, w: Write, f: string)
    requires Known(s) && RefreshShared(s.db.clients, s.db.refresh, s.family, s.roots, s.bound) && Fresh(s.minted, w)
    requires f in s.bound && s.bound[f].Some?
    ensures f in After(s, w).bound && After(s, w).bound[f] == s.bound[f]
  {
    match w
    case ExchangeCode(_, _, _, _) => NewFamiliesKeepBound(s, w, f);
    case LoginPlugin(_, _, _) => NewFamiliesKeepBound(s, w, f);
    case ExchangeRefresh(_, _, _) => RotationKeepsBound(s, w, f);
    case _ => OthersIssueNothing(s, w);
  }

  /** A family once bound to a user stays bound to that user. */
  lemma BoundUserNeverChanges(s: State, events: seq<Event>, e: Event, f: string)
    requires Init(s)
    requires f in Run(s, events).bound && Run(s, events).bound[f].Some?
    ensures f in Step(Run(s, events), e).bound && Step(Run(s, events), e).bound[f] == Run(s, events).bound[f]
  {
    RunKeepsInv(s, events);
    if e.Do? && Enabled(Run(s, events), e) {
      WriteKeepsBound(Run(s, events), e.write, f);
    }
  }

  /**
   Through any number of rotations each token of a public client carries the user recorded at the
   consent to its session, and the client itself is owned by nobody.
   */
  lemma PublicTokensCarryConsent(s: State, events: seq<Event>, h: Hash, client: string, scopes: seq<string>, user: Option<string>)
    requires Init(s)
    requires HasTerms(Run(s, events), h, client, scopes, user) && IsPublic(Run(s, events).db.clients, client)
    ensures var t := Run(s, events);
            && t.db.clients[client].owner.None?
            && h in t.family && t.family[h] in t.roots && t.roots[t.family[h]].session.Some?
            && Truthy(user) && (t.roots[t.family[h]].session.value, user.value) in t.consents
  {
    RunKeepsInv(s, events);
    var t := Run(s, events);
    TermsFit(t, h, client, scopes, user);
    assert RootConsented(t.roots[t.family[h]], t.bound[t.family[h]], t.consents);
  }

  lemma WriteKeepsDead(s: State, w: Write, h: Hash)
    requires Fresh(s.minted, w) && h in s.family && h.token in s.minted
    ensures h in After(s, w).family
    ensures !LiveAccess(s, h) ==> !LiveAccess(After(s, w), h)
    ensures !LiveRefresh(s, h) ==> !LiveRefresh(After(s, w), h)
  {
    match w
    case ExchangeCode(_, _, _, _) => ExchangeKeepsDead(s, w, h);
    case ExchangeRefresh(_, _, _) => RotationKeepsDead(s, w, h);
    case LoginPlugin(_, _, _) => LoginKeepsDead(s, w, h);
    case _ => OthersKeepDead(s, w, h);
  }

  lemma OthersKeepDead(s: State, w: Write, h: Hash)
    requires !Issues(w) && h in s.family
    ensures h in After(s, w).family
    ensures !LiveAccess(s, h) ==> !LiveAccess(After(s, w), h)
    ensures !LiveRefresh(s, h) ==> !LiveRefresh(After(s, w), h)
  {
    OthersIssueNothing(s, w);
  }

  lemma ExchangeKeepsDead(s: State, w: Write, h: Hash)
    requires w.ExchangeCode? && Fresh(s.minted, w) && h in s.family && h.token in s.minted
    ensures h in After(s, w).family
    ensures !LiveAccess(s, h) ==> !LiveAccess(After(s, w), h)
    ensures !LiveRefresh(s, h) ==> !LiveRefresh(After(s, w), h)
  {
  }

  lemma RotationKeepsDead(s: State, w: Write, h: Hash)
    requires w.ExchangeRefresh? && Fresh(s.minted, w) && h in s.family && h.token in s.minted
    ensures h in After(s, w).family
    ensures !LiveAccess(s, h) ==> !LiveAccess(After(s, w), h)
    ensures !LiveRefresh(s, h) ==> !LiveRefresh(After(s, w), h)
  {
  }

  lemma LoginKeepsDead(s: State, w: Write, h: Hash)
    requires w.LoginPlugin? && Fresh(s.minted, w) && h in s.family && h.token in s.minted
    ensures h in After(s, w).family
    ensures !LiveAccess(s, h) ==> !LiveAccess(After(s, w), h)
    ensures !LiveRefresh(s, h) ==> !LiveRefresh(After(s, w), h)
  {
  }

  lemma StepKeepsDead(s: State, e: Event, h: Hash)
    requires Inv(s) && h in s.family
    ensures Inv(Step(s, e)) && h in Step(s, e).family
    ensures !LiveAccess(s, h) ==> !LiveAccess(Step(s, e), h)
    ensures !LiveRefresh(s, h) ==> !LiveRefresh(Step(s, e), h)
  {
    if e.Do? && Enabled(s, e) {
      WriteKeepsInv(s, e.write);
      WriteKeepsDead(s, e.write, h);
    }
  }

  /** Nothing revives a token: once revoked or deleted, it is never live again, so a rotated refresh token is spent for good. */
  lemma {:induction false} DeadStaysDead(s: State, events: seq<Event>, h: Hash)
    requires Inv(s) && h in s.family
    ensures Inv(Run(s, events)) && h in Run(s, events).family
    ensures !LiveAccess(s, h) ==> !LiveAccess(Run(s, events), h)
    ensures !LiveRefresh(s, h) ==> !LiveRefresh(Run(s, events), h)
  {
    if events != [] {
      var m, e := Run(s, events[..|events| - 1]), events[|events| - 1];
      DeadStaysDead(s, events[..|events| - 1], h);
      StepKeepsDead(m, e, h);
    }
  }

  lemma RotationSpendsToken(s: State, token: string, client: string, pair: TokenPair)
    requires Fresh(s.minted, ExchangeRefresh(token, client, pair)) && token in s.minted && Sha256(token) in s.family
    requires Refresh(s.db, token, client, pair, s.now).1.None?
    ensures var t := After(s, ExchangeRefresh(token, client, pair));
            Sha256(token) in t.family && !LiveRefresh(t, Sha256(token))
  {
  }

  /** Presenting a rotated refresh token again fails, whatever happens in between. */
  lemma ReplayFails(s: State, token: string, client: string, pair: TokenPair, between: seq<Event>, client2: string, pair2: TokenPair)
    requires Inv(s) && Fresh(s.minted, ExchangeRefresh(token, client, pair))
    requires Refresh(s.db, token, client, pair, s.now).1.None?
    ensures var t := Run(After(s, ExchangeRefresh(token, client, pair)), between);
            Refresh(t.db, token, client2, pair2, t.now).1.Some?
  {
    var w := ExchangeRefresh(token, client, pair);
    WriteKeepsInv(s, w);
    RotationSpendsToken(s, token, client, pair);
    DeadStaysDead(After(s, w), between, Sha256(token));
  }

  /** Revoking a refresh token leaves its access token in force (section 2.1 of RFC 7009 asks for more, as a SHOULD). */
  lemma RevokedRefreshKeepsAccess(s: State, token: string)
    requires Inv(s) && LiveRefresh(s, Sha256(token)) && Sha256(token) !in s.db.access
    ensures s.db.refresh[Sha256(token)].access.Some?
    ensures var t := After(s, RevokeToken(token));
            !LiveRefresh(t, Sha256(token)) && LiveAccess(t, s.db.refresh[Sha256(token)].access.value)
  {
    assert LinkFits(s.db.access, s.family, Sha256(token), s.db.refresh[Sha256(token)]);
  }
}