/**
 The inductive invariant of CodeExchange: which session every key, handler and token belongs to, and
 that each of the three kinds of events keeps it.
 */
module CodeExchangeInvariant {
  import opened Prelude
  import opened OAuthTables
  import opened OAuthGrants
  import opened CodeExchange

  // ---------------------------------------------------------------------------------------------
  // The invariant
  // ---------------------------------------------------------------------------------------------

  predicate PublicClient(s: State, client: string) {
    client in s.db.clients && s.db.clients[client].isPublic
  }

  /** The key belongs to a session: its own id, or a code some approval handed out; its user is one an approval of that session recorded. */
  ghost predicate KeyFits(s: State, k: string)
    requires k in s.keys
  {
    var key := s.keys[k];
    && key.session in s.sessions
    && (if key.maker.None? then k == key.session && key.user.None?
        else k != key.session && key.maker.value in s.approvals && s.approvals[key.maker.value].pc == HandedOut(k))
    && (key.user.Some? ==>
          && key.approver.Some? && key.approver.value in s.approvals
          && var a := s.approvals[key.approver.value];
             && a.key in s.keys && s.keys[a.key].session == key.session && a.pc.HandedOut?
             && (a.user.Some? || PublicClient(s, s.sessions[key.session].client) ==> a.user == key.user))
  }

  /** A row of the code table, or one an exchange has read, is what the session of its key recorded. */
  ghost predicate RowFits(s: State, k: string, row: CodeRow) {
    && k in s.keys && s.keys[k].session in s.sessions
    && var terms := s.sessions[s.keys[k].session];
       && row.client == terms.client && row.scopes == terms.scopes && row.challenge == terms.challenge
       && row.redirectUri == terms.redirectUri && row.user == s.keys[k].user
  }

  /** A live row is what its session recorded, and no exchange has taken the session. */
  ghost predicate LiveFits(s: State, k: string)
    requires k in s.db.codes
  {
    RowFits(s, k, s.db.codes[k]) && s.keys[k].session !in s.redeemed
  }

  ghost predicate OneKeyPerSession(codes: Codes, keys: map<string, Key>) {
    && codes.Keys <= keys.Keys
    && forall j, k :: j in codes && k in codes && keys[j].session == keys[k].session ==> j == k
  }

  ghost predicate ApprovalFits(s: State, n: nat)
    requires n in s.approvals
  {
    var a := s.approvals[n];
    && (a.pc.ReadClaimer? || a.pc.ReadPending? || a.pc.Rekey? ==> a.key in s.keys && s.keys[a.key].session in s.sessions)
    && (a.pc.ReadClaimer? ==> a.user.None? && a.pc.client == s.sessions[s.keys[a.key].session].client)
    && (a.pc.ReadPending? ==> a.pc.client == s.sessions[s.keys[a.key].session].client)
    && (a.pc.ReadPending? || a.pc.Rekey? ==>
          (a.user.Some? || PublicClient(s, s.sessions[s.keys[a.key].session].client) ==> a.pc.user == a.user))
  }

  /** The exchange has deleted the row of its code. */
  predicate Took(pc: ExchangePc) {
    pc.ReadOwner? || pc.InsertAccess? || pc.InsertRefresh? || pc.Issued?
  }

  ghost predicate NoAccessOf(s: State, session: string) {
    forall h :: h in s.accessOf ==> s.accessOf[h] != session
  }

  ghost predicate NoRefreshOf(s: State, session: string) {
    forall h :: h in s.refreshOf ==> s.refreshOf[h] != session
  }

  /** Before deletion the exchange has checked a row of its code; after it, it alone has the session. */
  ghost predicate ExchangeFits(s: State, n: nat)
    requires n in s.exchanges
  {
    var x := s.exchanges[n];
    && (x.pc.DeleteCode? || x.pc.ReadOwner? || x.pc.InsertAccess? || x.pc.InsertRefresh? ==>
          RowFits(s, x.code, x.pc.row) && x.client == x.pc.row.client && PkcePasses(x.pc.row.challenge, x.verifier))
    && (Took(x.pc) ==> x.code in s.keys && s.keys[x.code].session in s.redeemed && s.redeemed[s.keys[x.code].session] == n)
    && (x.pc.ReadOwner? || x.pc.InsertAccess? ==> NoAccessOf(s, s.keys[x.code].session))
    && (x.pc.ReadOwner? || x.pc.InsertAccess? || x.pc.InsertRefresh? ==> NoRefreshOf(s, s.keys[x.code].session))
    && (x.pc.InsertRefresh? ==> x.pc.access in s.accessOf && s.accessOf[x.pc.access] == s.keys[x.code].session)
    && (x.pc.InsertAccess? || x.pc.InsertRefresh? ==> BindingFits(s, x.code, x.pc.user))
  }

  /** The user of an exchange: the consenting one if there is one, and always for a public client. */
  ghost predicate BindingFits(s: State, code: string, user: Option<string>) {
    && code in s.keys && s.keys[code].session in s.sessions
    && (Truthy(s.keys[code].user) || PublicClient(s, s.sessions[s.keys[code].session].client) ==>
          Truthy(user) && user == s.keys[code].user)
  }

  /** What holds for the session of an issued token and the exchange that took it. */
  ghost predicate OriginFits(s: State, session: string) {
    && session in s.sessions && session in s.redeemed && s.redeemed[session] in s.exchanges
    && var x := s.exchanges[s.redeemed[session]];
       && x.code in s.keys && s.keys[x.code].session == session
       && x.client == s.sessions[session].client && PkcePasses(s.sessions[session].challenge, x.verifier)
  }

  ghost predicate AccessFits(s: State, h: Hash)
    requires h in s.accessOf
  {
    var o := s.accessOf[h];
    && OriginFits(s, o)
    && (forall g :: g in s.accessOf && s.accessOf[g] == o ==> g == h)
    && (h in s.db.access ==>
          var row := s.db.access[h];
          && row.client == s.sessions[o].client && row.scopes == s.sessions[o].scopes
          && BindingFits(s, s.exchanges[s.redeemed[o]].code, row.user))
  }

  ghost predicate RefreshFits(s: State, h: Hash)
    requires h in s.refreshOf
  {
    var o := s.refreshOf[h];
    && OriginFits(s, o)
    && (forall g :: g in s.refreshOf && s.refreshOf[g] == o ==> g == h)
    && (h in s.db.refresh ==>
          var row := s.db.refresh[h];
          && row.client == s.sessions[o].client && row.scopes == s.sessions[o].scopes
          && BindingFits(s, s.exchanges[s.redeemed[o]].code, row.user)
          && row.access.Some? && row.access.value in s.accessOf && s.accessOf[row.access.value] == o)
  }

  /** Client ids have been generated, and a public client has no owner. */
  ghost predicate ClientsTidy(clients: Clients, minted: set<string>) {
    clients.Keys <= minted && forall c :: c in clients && clients[c].isPublic ==> clients[c].owner.None?
  }

  ghost predicate SessionsTidy(sessions: map<string, Terms>, minted: set<string>) {
    forall o :: o in sessions ==> sessions[o].client in minted
  }

  ghost predicate KeysTidy(keys: map<string, Key>, sessions: map<string, Terms>) {
    forall k :: k in keys ==> keys[k].session in sessions
  }

  /** Stored tokens are on record, and recorded tokens have been generated. */
  ghost predicate TokensTidy<Row>(stored: map<Hash, Row>, recorded: map<Hash, string>, minted: set<string>) {
    stored.Keys <= recorded.Keys && forall h :: h in recorded ==> h.token in minted
  }

  ghost predicate Tidy(s: State) {
    && ClientsTidy(s.db.clients, s.minted)
    && SessionsTidy(s.sessions, s.minted) && KeysTidy(s.keys, s.sessions)
    && s.redeemed.Keys <= s.sessions.Keys && s.sessions.Keys <= s.minted && s.keys.Keys <= s.minted
    && TokensTidy(s.db.access, s.accessOf, s.minted)
    && TokensTidy(s.db.refresh, s.refreshOf, s.minted)
  }

  ghost predicate CodesInv(s: State) {
    && OneKeyPerSession(s.db.codes, s.keys)
    && (forall k :: k in s.keys ==> KeyFits(s, k))
    && (forall k :: k in s.db.codes ==> LiveFits(s, k))
  }

  ghost predicate ApprovalsInv(s: State) {
    forall n :: n in s.approvals ==> ApprovalFits(s, n)
  }

  ghost predicate ExchangesInv(s: State) {
    forall n :: n in s.exchanges ==> ExchangeFits(s, n)
  }

  ghost predicate TokensInv(s: State) {
    && (forall h :: h in s.accessOf ==> AccessFits(s, h))
    && (forall h :: h in s.refreshOf ==> RefreshFits(s, h))
  }

  ghost predicate Inv(s: State) {
    Tidy(s) && CodesInv(s) && ApprovalsInv(s) && ExchangesInv(s) && TokensInv(s)
  }

  // ---------------------------------------------------------------------------------------------
  // What every step keeps
  // ---------------------------------------------------------------------------------------------

  ghost predicate Extends<K(!new), V(!new)>(before: map<K, V>, after: map<K, V>) {
    forall k :: k in before ==> k in after && after[k] == before[k]
  }

  ghost predicate ApprovalsGo(before: map<nat, Approval>, after: map<nat, Approval>) {
    forall n :: n in before ==> n in after && SameApproval(before[n], after[n])
  }

  ghost predicate ExchangesGo(before: map<nat, Exchange>, after: map<nat, Exchange>) {
    forall n :: n in before ==> n in after && SameExchange(before[n], after[n])
  }

  ghost predicate NoneTurnsPublic(s: State, t: State) {
    forall c :: c in s.minted && PublicClient(t, c) ==> PublicClient(s, c)
  }

  /** History only grows, a handler keeps its arguments, and no client turns public. */
  ghost predicate Grows(s: State, t: State) {
    && s.minted <= t.minted
    && Extends(s.keys, t.keys) && Extends(s.sessions, t.sessions) && Extends(s.redeemed, t.redeemed)
    && Extends(s.accessOf, t.accessOf) && Extends(s.refreshOf, t.refreshOf)
    && ApprovalsGo(s.approvals, t.approvals) && ExchangesGo(s.exchanges, t.exchanges)
    && NoneTurnsPublic(s, t)
  }

  predicate SameApproval(a: Approval, b: Approval) {
    b.key == a.key && b.user == a.user && (a.pc.HandedOut? ==> b == a)
  }

  predicate SameExchange(x: Exchange, y: Exchange) {
    y.code == x.code && y.client == x.client && y.verifier == x.verifier
  }

  lemma RekeyGrows(s: State, n: nat, code: string)
    requires s.keys.Keys <= s.minted && n in s.approvals && ApprovalEnabled(s, s.approvals[n], RekeyStep(code))
    ensures Grows(s, ApprovalApply(s, n, RekeyStep(code)))
  {
    var t := ApprovalApply(s, n, RekeyStep(code));
    assert t.keys == s.keys || t.keys == s.keys[code := t.keys[code]];
    assert t.db.clients == s.db.clients;
  }

  lemma ApprovalGrows(s: State, n: nat, step: ApprovalStep)
    requires s.keys.Keys <= s.minted && n in s.approvals && ApprovalEnabled(s, s.approvals[n], step)
    ensures Grows(s, ApprovalApply(s, n, step))
  {
    match step
    case RekeyStep(code) => RekeyGrows(s, n, code);
    case ReadSessionStep =>
    case ReadClaimerStep =>
    case ReadPendingStep =>
  }

  lemma ExchangeGrows(s: State, n: nat, step: ExchangeStep)
    requires Tidy(s) && n in s.exchanges && ExchangeEnabled(s, s.exchanges[n], step)
    requires s.exchanges[n].code in s.db.codes ==> LiveFits(s, s.exchanges[n].code)
    ensures Grows(s, ExchangeApply(s, n, step))
  {
  }

  lemma EnvironmentGrows(s: State, e: Event)
    requires Tidy(s) && Enabled(s, e) && !e.ApprovalCall? && !e.ExchangeCall?
    ensures Grows(s, Step(s, e))
  {
  }

  lemma GrowthKeepsKey(s: State, t: State, k: string)
    requires Tidy(s) && Grows(s, t) && k in s.keys && KeyFits(s, k)
    ensures KeyFits(t, k)
  {
  }

  lemma GrowthKeepsRow(s: State, t: State, k: string, row: CodeRow)
    requires Grows(s, t) && RowFits(s, k, row)
    ensures RowFits(t, k, row)
  {
  }

  lemma GrowthKeepsBinding(s: State, t: State, code: string, user: Option<string>)
    requires Tidy(s) && Grows(s, t) && BindingFits(s, code, user)
    ensures BindingFits(t, code, user)
  {
  }

  lemma GrowthKeepsOrigin(s: State, t: State, o: string)
    requires Grows(s, t) && OriginFits(s, o)
    ensures OriginFits(t, o)
  {
  }

  lemma GrowthKeepsApproval(s: State, t: State, n: nat)
    requires Tidy(s) && Grows(s, t) && n in s.approvals && t.approvals[n] == s.approvals[n] && ApprovalFits(s, n)
    ensures ApprovalFits(t, n)
  {
  }

  /** A handler that rests keeps its invariant as long as no other inserts a token for its session. */
  lemma GrowthKeepsExchange(s: State, t: State, n: nat)
    requires Tidy(s) && Grows(s, t) && n in s.exchanges && t.exchanges[n] == s.exchanges[n] && ExchangeFits(s, n)
    requires Took(s.exchanges[n].pc) && s.exchanges[n].code in s.keys ==>
               var o := s.keys[s.exchanges[n].code].session;
               && (forall h :: h in t.accessOf && h !in s.accessOf ==> t.accessOf[h] != o)
               && (forall h :: h in t.refreshOf && h !in s.refreshOf ==> t.refreshOf[h] != o)
    ensures ExchangeFits(t, n)
  {
    var x := s.exchanges[n];
    if x.pc.InsertAccess? || x.pc.InsertRefresh? {
      GrowthKeepsBinding(s, t, x.code, x.pc.user);
    }
  }

  lemma GrowthKeepsAccess(s: State, t: State, h: Hash)
    requires Tidy(s) && Grows(s, t) && h in s.accessOf && AccessFits(s, h)
    requires h in t.db.access ==> h in s.db.access && t.db.access[h] == s.db.access[h]
    requires forall g :: g in t.accessOf && g !in s.accessOf ==> t.accessOf[g] != s.accessOf[h]
    ensures AccessFits(t, h)
  {
    GrowthKeepsOrigin(s, t, s.accessOf[h]);
    if h in t.db.access {
      GrowthKeepsBinding(s, t, s.exchanges[s.redeemed[s.accessOf[h]]].code, s.db.access[h].user);
    }
  }

  lemma GrowthKeepsRefresh(s: State, t: State, h: Hash)
    requires Tidy(s) && Grows(s, t) && h in s.refreshOf && RefreshFits(s, h)
    requires h in t.db.refresh ==> h in s.db.refresh && t.db.refresh[h] == s.db.refresh[h]
    requires forall g :: g in t.refreshOf && g !in s.refreshOf ==> t.refreshOf[g] != s.refreshOf[h]
    ensures RefreshFits(t, h)
  {
    GrowthKeepsOrigin(s, t, s.refreshOf[h]);
    if h in t.db.refresh {
      GrowthKeepsBinding(s, t, s.exchanges[s.redeemed[s.refreshOf[h]]].code, s.db.refresh[h].user);
    }
  }

  ghost predicate Shrinks<K(!new), V(!new)>(before: map<K, V>, after: map<K, V>) {
    forall k :: k in after ==> k in before && after[k] == before[k]
  }

  /** No token is inserted. */
  ghost predicate TokensRest(s: State, t: State) {
    && t.accessOf == s.accessOf && t.refreshOf == s.refreshOf
    && Shrinks(s.db.access, t.db.access) && Shrinks(s.db.refresh, t.db.refresh)
  }

  /** Handlers of one kind rest or have just begun. */
  ghost predicate ApprovalsRest(s: State, t: State) {
    forall n :: n in t.approvals ==> (n in s.approvals && t.approvals[n] == s.approvals[n]) || t.approvals[n].pc.ReadSession?
  }

  ghost predicate ExchangesRest(s: State, t: State) {
    forall n :: n in t.exchanges ==> (n in s.exchanges && t.exchanges[n] == s.exchanges[n]) || t.exchanges[n].pc.ReadCode?
  }

  lemma GrowthKeepsTokens(s: State, t: State)
    requires Tidy(s) && Grows(s, t) && TokensRest(s, t) && TokensInv(s)
    ensures TokensInv(t)
  {
    forall h | h in t.accessOf ensures AccessFits(t, h) { GrowthKeepsAccess(s, t, h); }
    forall h | h in t.refreshOf ensures RefreshFits(t, h) { GrowthKeepsRefresh(s, t, h); }
  }

  lemma GrowthKeepsApprovals(s: State, t: State)
    requires Tidy(s) && Grows(s, t) && ApprovalsRest(s, t) && ApprovalsInv(s)
    ensures ApprovalsInv(t)
  {
    forall n | n in t.approvals && !t.approvals[n].pc.ReadSession? ensures ApprovalFits(t, n) {
      GrowthKeepsApproval(s, t, n);
    }
  }

  lemma GrowthKeepsExchanges(s: State, t: State)
    requires Tidy(s) && Grows(s, t) && ExchangesRest(s, t) && TokensRest(s, t) && ExchangesInv(s)
    ensures ExchangesInv(t)
  {
    forall n | n in t.exchanges && !t.exchanges[n].pc.ReadCode? ensures ExchangeFits(t, n) {
      GrowthKeepsExchange(s, t, n);
    }
  }

  /** The handler about to move is as it should be, and so is the live row it is about to touch. */
  ghost predicate ApprovalReady(s: State, n: nat, step: ApprovalStep) {
    && Tidy(s) && n in s.approvals && ApprovalEnabled(s, s.approvals[n], step) && ApprovalFits(s, n)
    && OneKeyPerSession(s.db.codes, s.keys)
    && (s.approvals[n].key in s.db.codes ==> LiveFits(s, s.approvals[n].key))
  }

  ghost predicate ExchangeReady(s: State, n: nat, step: ExchangeStep) {
    && Tidy(s) && n in s.exchanges && ExchangeEnabled(s, s.exchanges[n], step) && ExchangeFits(s, n)
    && OneKeyPerSession(s.db.codes, s.keys)
    && (s.exchanges[n].code in s.db.codes ==> LiveFits(s, s.exchanges[n].code))
  }

  ghost predicate EnvironmentReady(s: State, e: Event) {
    Tidy(s) && Enabled(s, e) && !e.ApprovalCall? && !e.ExchangeCall? && OneKeyPerSession(s.db.codes, s.keys)
  }

  lemma MoreMintedIsTidy(s: State, minted: set<string>)
    requires Tidy(s) && s.minted <= minted
    ensures Tidy(s.(minted := minted))
  {
  }

  // The environment

  lemma EnvironmentKeepsTidy(s: State, e: Event)
    requires EnvironmentReady(s, e)
    ensures Tidy(Step(s, e)) && OneKeyPerSession(Step(s, e).db.codes, Step(s, e).keys)
  {
  }

  lemma EnvironmentKeepsKey(s: State, e: Event, k: string)
    requires EnvironmentReady(s, e) && Grows(s, Step(s, e)) && k in Step(s, e).keys
    requires k in s.keys ==> KeyFits(s, k)
    ensures KeyFits(Step(s, e), k)
  {
    if k in s.keys {
      GrowthKeepsKey(s, Step(s, e), k);
    }
  }

  lemma EnvironmentKeepsLive(s: State, e: Event, k: string)
    requires EnvironmentReady(s, e) && Grows(s, Step(s, e)) && k in Step(s, e).db.codes
    requires k in s.db.codes ==> LiveFits(s, k)
    ensures LiveFits(Step(s, e), k)
  {
    if k in s.db.codes {
      GrowthKeepsRow(s, Step(s, e), k, s.db.codes[k]);
    }
  }

  lemma EnvironmentRests(s: State, e: Event)
    requires EnvironmentReady(s, e)
    ensures TokensRest(s, Step(s, e)) && ApprovalsRest(s, Step(s, e)) && ExchangesRest(s, Step(s, e))
  {
  }

  lemma EnvironmentKeepsCodes(s: State, e: Event)
    requires EnvironmentReady(s, e) && Grows(s, Step(s, e)) && CodesInv(s)
    ensures CodesInv(Step(s, e))
  {
    var t := Step(s, e);
    EnvironmentKeepsTidy(s, e);
    forall k | k in t.keys ensures KeyFits(t, k) { EnvironmentKeepsKey(s, e, k); }
    forall k | k in t.db.codes ensures LiveFits(t, k) { EnvironmentKeepsLive(s, e, k); }
  }

  lemma EnvironmentKeepsInv(s: State, e: Event)
    requires Inv(s) && EnvironmentReady(s, e)
    ensures Inv(Step(s, e))
  {
    var t := Step(s, e);
    EnvironmentGrows(s, e);
    EnvironmentKeepsTidy(s, e);
    EnvironmentRests(s, e);
    EnvironmentKeepsCodes(s, e);
    GrowthKeepsApprovals(s, t);
    GrowthKeepsExchanges(s, t);
    GrowthKeepsTokens(s, t);
  }

  // A call of an approval

  lemma ApprovalKeepsTidy(s: State, n: nat, step: ApprovalStep)
    requires ApprovalReady(s, n, step)
    ensures Tidy(ApprovalApply(s, n, step))
    ensures OneKeyPerSession(ApprovalApply(s, n, step).db.codes, ApprovalApply(s, n, step).keys)
  {
    if step.RekeyStep? {
      MoreMintedIsTidy(s, s.minted + {step.code});
    }
  }

  lemma ApprovalKeepsKey(s: State, n: nat, step: ApprovalStep, k: string)
    requires ApprovalReady(s, n, step) && Grows(s, ApprovalApply(s, n, step)) && k in ApprovalApply(s, n, step).keys
    requires k in s.keys ==> KeyFits(s, k)
    requires s.approvals[n].key in s.keys ==> KeyFits(s, s.approvals[n].key)
    ensures KeyFits(ApprovalApply(s, n, step), k)
  {
    if k in s.keys {
      GrowthKeepsKey(s, ApprovalApply(s, n, step), k);
    } else {
      GrowthKeepsKey(s, ApprovalApply(s, n, step), s.approvals[n].key);
    }
  }

  lemma ApprovalKeepsLive(s: State, n: nat, step: ApprovalStep, k: string)
    requires ApprovalReady(s, n, step) && Grows(s, ApprovalApply(s, n, step)) && k in ApprovalApply(s, n, step).db.codes
    requires k in s.db.codes ==> LiveFits(s, k)
    ensures LiveFits(ApprovalApply(s, n, step), k)
  {
    if k in s.db.codes {
      GrowthKeepsRow(s, ApprovalApply(s, n, step), k, s.db.codes[k]);
    }
  }

  lemma ApprovalRests(s: State, n: nat, step: ApprovalStep)
    requires ApprovalReady(s, n, step)
    ensures TokensRest(s, ApprovalApply(s, n, step)) && ExchangesRest(s, ApprovalApply(s, n, step))
  {
  }

  lemma ApprovalKeepsCodes(s: State, n: nat, step: ApprovalStep)
    requires ApprovalReady(s, n, step) && Grows(s, ApprovalApply(s, n, step)) && CodesInv(s)
    ensures CodesInv(ApprovalApply(s, n, step))
  {
    var t := ApprovalApply(s, n, step);
    ApprovalKeepsTidy(s, n, step);
    forall k | k in t.keys ensures KeyFits(t, k) { ApprovalKeepsKey(s, n, step, k); }
    forall k | k in t.db.codes ensures LiveFits(t, k) { ApprovalKeepsLive(s, n, step, k); }
  }

  lemma ApprovalMovesApproval(s: State, n: nat, step: ApprovalStep)
    requires ApprovalReady(s, n, step) && Grows(s, ApprovalApply(s, n, step))
    ensures ApprovalFits(ApprovalApply(s, n, step), n)
  {
  }

  lemma ApprovalKeepsApprovals(s: State, n: nat, step: ApprovalStep)
    requires ApprovalReady(s, n, step) && Grows(s, ApprovalApply(s, n, step)) && ApprovalsInv(s)
    ensures ApprovalsInv(ApprovalApply(s, n, step))
  {
    var t := ApprovalApply(s, n, step);
    ApprovalMovesApproval(s, n, step);
    forall m | m in t.approvals && m != n ensures ApprovalFits(t, m) { GrowthKeepsApproval(s, t, m); }
  }

  lemma ApprovalKeepsInv(s: State, n: nat, step: ApprovalStep)
    requires Inv(s) && ApprovalReady(s, n, step)
    ensures Inv(ApprovalApply(s, n, step))
  {
    var t := ApprovalApply(s, n, step);
    ApprovalGrows(s, n, step);
    ApprovalKeepsTidy(s, n, step);
    ApprovalRests(s, n, step);
    ApprovalKeepsCodes(s, n, step);
    ApprovalKeepsApprovals(s, n, step);
    GrowthKeepsExchanges(s, t);
    GrowthKeepsTokens(s, t);
  }

  // A call of an exchange

  lemma ExchangeKeepsTidy(s: State, n: nat, step: ExchangeStep)
    requires ExchangeReady(s, n, step)
    ensures Tidy(ExchangeApply(s, n, step))
    ensures OneKeyPerSession(ExchangeApply(s, n, step).db.codes, ExchangeApply(s, n, step).keys)
  {
    if step.InsertAccessStep? || step.InsertRefreshStep? {
      MoreMintedIsTidy(s, s.minted + {step.token});
    }
  }

  lemma ExchangeKeepsKey(s: State, n: nat, step: ExchangeStep, k: string)
    requires ExchangeReady(s, n, step) && Grows(s, ExchangeApply(s, n, step)) && k in s.keys && KeyFits(s, k)
    ensures KeyFits(ExchangeApply(s, n, step), k)
  {
    GrowthKeepsKey(s, ExchangeApply(s, n, step), k);
  }

  lemma ExchangeKeepsLive(s: State, n: nat, step: ExchangeStep, k: string)
    requires ExchangeReady(s, n, step) && Grows(s, ExchangeApply(s, n, step)) && k in ExchangeApply(s, n, step).db.codes
    requires k in s.db.codes && LiveFits(s, k)
    ensures LiveFits(ExchangeApply(s, n, step), k)
  {
    GrowthKeepsRow(s, ExchangeApply(s, n, step), k, s.db.codes[k]);
  }

  lemma ExchangeInserts(s: State, n: nat, step: ExchangeStep)
    requires ExchangeReady(s, n, step) && Grows(s, ExchangeApply(s, n, step))
    requires step.InsertAccessStep? || step.InsertRefreshStep? || step.InsertFails?
    ensures ExchangeFits(ExchangeApply(s, n, step), n)
  {
  }

  /** An exchange that deletes the live row finds no token of the session yet. */
  lemma ExchangeDeletes(s: State, n: nat)
    requires ExchangeReady(s, n, DeleteCodeStep) && Grows(s, ExchangeApply(s, n, DeleteCodeStep)) && TokensInv(s)
    ensures ExchangeFits(ExchangeApply(s, n, DeleteCodeStep), n)
  {
    var x := s.exchanges[n];
    if x.code in s.db.codes {
      var session := s.keys[x.code].session;
      assert NoAccessOf(s, session) by {
        forall h | h in s.accessOf ensures s.accessOf[h] != session { assert AccessFits(s, h); }
      }
      assert NoRefreshOf(s, session) by {
        forall h | h in s.refreshOf ensures s.refreshOf[h] != session { assert RefreshFits(s, h); }
      }
      GrowthKeepsRow(s, ExchangeApply(s, n, DeleteCodeStep), x.code, x.pc.row);
    }
  }

  lemma ExchangeMovesExchange(s: State, n: nat, step: ExchangeStep)
    requires ExchangeReady(s, n, step) && Grows(s, ExchangeApply(s, n, step)) && TokensInv(s)
    ensures ExchangeFits(ExchangeApply(s, n, step), n)
  {
    match step
    case ReadCodeStep =>
    case DeleteCodeStep => ExchangeDeletes(s, n);
    case ReadOwnerStep =>
    case _ => ExchangeInserts(s, n, step);
  }

  /** Two exchanges that took rows took rows of different sessions. */
  lemma ExchangeKeepsOther(s: State, n: nat, step: ExchangeStep, m: nat)
    requires ExchangeReady(s, n, step) && Grows(s, ExchangeApply(s, n, step))
    requires m != n && m in s.exchanges && ExchangeFits(s, m)
    ensures ExchangeFits(ExchangeApply(s, n, step), m)
  {
    GrowthKeepsExchange(s, ExchangeApply(s, n, step), m);
  }

  lemma ExchangeKeepsAccess(s: State, n: nat, step: ExchangeStep, h: Hash)
    requires ExchangeReady(s, n, step) && Grows(s, ExchangeApply(s, n, step)) && h in ExchangeApply(s, n, step).accessOf
    requires h in s.accessOf ==> AccessFits(s, h)
    ensures AccessFits(ExchangeApply(s, n, step), h)
  {
    if h in s.accessOf {
      GrowthKeepsAccess(s, ExchangeApply(s, n, step), h);
    }
  }

  lemma ExchangeKeepsRefresh(s: State, n: nat, step: ExchangeStep, h: Hash)
    requires ExchangeReady(s, n, step) && Grows(s, ExchangeApply(s, n, step)) && h in ExchangeApply(s, n, step).refreshOf
    requires h in s.refreshOf ==> RefreshFits(s, h)
    ensures RefreshFits(ExchangeApply(s, n, step), h)
  {
    if h in s.refreshOf {
      GrowthKeepsRefresh(s, ExchangeApply(s, n, step), h);
    }
  }

  lemma ExchangeKeepsCodes(s: State, n: nat, step: ExchangeStep)
    requires ExchangeReady(s, n, step) && Grows(s, ExchangeApply(s, n, step)) && CodesInv(s)
    ensures CodesInv(ExchangeApply(s, n, step))
  {
    var t := ExchangeApply(s, n, step);
    ExchangeKeepsTidy(s, n, step);
    forall k | k in t.keys ensures KeyFits(t, k) { ExchangeKeepsKey(s, n, step, k); }
    forall k | k in t.db.codes ensures LiveFits(t, k) { ExchangeKeepsLive(s, n, step, k); }
  }

  lemma ExchangeKeepsExchanges(s: State, n: nat, step: ExchangeStep)
    requires ExchangeReady(s, n, step) && Grows(s, ExchangeApply(s, n, step)) && ExchangesInv(s) && TokensInv(s)
    ensures ExchangesInv(ExchangeApply(s, n, step))
  {
    var t := ExchangeApply(s, n, step);
    ExchangeMovesExchange(s, n, step);
    forall m | m in t.exchanges && m != n ensures ExchangeFits(t, m) { ExchangeKeepsOther(s, n, step, m); }
  }

  lemma ExchangeKeepsTokens(s: State, n: nat, step: ExchangeStep)
    requires ExchangeReady(s, n, step) && Grows(s, ExchangeApply(s, n, step)) && TokensInv(s)
    ensures TokensInv(ExchangeApply(s, n, step))
  {
    var t := ExchangeApply(s, n, step);
    forall h | h in t.accessOf ensures AccessFits(t, h) { ExchangeKeepsAccess(s, n, step, h); }
    forall h | h in t.refreshOf ensures RefreshFits(t, h) { ExchangeKeepsRefresh(s, n, step, h); }
  }

  lemma ExchangeKeepsInv(s: State, n: nat, step: ExchangeStep)
    requires Inv(s) && ExchangeReady(s, n, step)
    ensures Inv(ExchangeApply(s, n, step))
  {
    ExchangeGrows(s, n, step);
    ExchangeKeepsTidy(s, n, step);
    ExchangeKeepsCodes(s, n, step);
    GrowthKeepsApprovals(s, ExchangeApply(s, n, step));
    ExchangeKeepsExchanges(s, n, step);
    ExchangeKeepsTokens(s, n, step);
  }

  lemma ReadyByInv(s: State, e: Event)
    requires Inv(s) && Enabled(s, e)
    ensures e.ApprovalCall? ==> ApprovalReady(s, e.n, e.approval)
    ensures e.ExchangeCall? ==> ExchangeReady(s, e.n, e.exchange)
  {
  }

  lemma StepKeepsInv(s: State, e: Event)
    requires Inv(s)
    ensures Inv(Step(s, e))
  {
    if Enabled(s, e) {
      match e
      case ApprovalCall(n, step) => ReadyByInv(s, e); ApprovalKeepsInv(s, n, step);
      case ExchangeCall(n, step) => ReadyByInv(s, e); ExchangeKeepsInv(s, n, step);
      case _ => EnvironmentKeepsInv(s, e);
    }
  }

  lemma {:induction false} RunKeepsInv(s: State, events: seq<Event>)
    requires Init(s)
    ensures Inv(Run(s, events))
  {
    if events != [] {
      RunKeepsInv(s, events[..|events| - 1]);
      StepKeepsInv(Run(s, events[..|events| - 1]), events[|events| - 1]);
    }
  }
}
