/**
 What holds of every run of CodeExchange: one token pair per session, one redeemable key at a time,
 consent carried to the tokens, and exactly when a session gets more than one code.
 */
module CodeExchangeRuns {
  import opened Prelude
  import opened OAuthTables
  import opened OAuthGrants
  import opened CodeExchange
  import opened CodeExchangeInvariant

  // ---------------------------------------------------------------------------------------------
  // Every run
  // ---------------------------------------------------------------------------------------------

  /**
   However approvals, denials and exchanges interleave, a session leads to at most one access token
   and one refresh token; the refresh token is linked to that access token.
   */
  lemma OnePairPerSession(s: State, events: seq<Event>, h: Hash, g: Hash)
    requires Init(s)
    ensures var t := Run(s, events);
            && t.db.access.Keys <= t.accessOf.Keys && t.db.refresh.Keys <= t.refreshOf.Keys
            && (h in t.accessOf && g in t.accessOf && t.accessOf[h] == t.accessOf[g] ==> h == g)
            && (h in t.refreshOf && g in t.refreshOf && t.refreshOf[h] == t.refreshOf[g] ==> h == g)
            && (h in t.db.refresh ==>
                  && t.db.refresh[h].access.Some? && t.db.refresh[h].access.value in t.accessOf
                  && t.accessOf[t.db.refresh[h].access.value] == t.refreshOf[h])
  {
    RunKeepsInv(s, events);
    var t := Run(s, events);
    assert h in t.accessOf ==> AccessFits(t, h);
    assert h in t.refreshOf ==> RefreshFits(t, h);
  }

  /** At any moment at most one key of a session can be exchanged, and none once an exchange has taken it. */
  lemma OneRedeemableKey(s: State, events: seq<Event>, j: string, k: string)
    requires Init(s)
    ensures var t := Run(s, events);
            && t.db.codes.Keys <= t.keys.Keys
            && (j in t.db.codes ==> t.keys[j].session !in t.redeemed)
            && (j in t.db.codes && k in t.db.codes && t.keys[j].session == t.keys[k].session ==> j == k)
  {
    RunKeepsInv(s, events);
    assert j in Run(s, events).db.codes ==> LiveFits(Run(s, events), j);
  }

  /** Some approval of the session was given this user. */
  ghost predicate ConsentedBy(s: State, session: string, n: nat, user: Option<string>) {
    && n in s.approvals && s.approvals[n].pc.HandedOut? && s.approvals[n].user == user
    && s.approvals[n].key in s.keys && s.keys[s.approvals[n].key].session == session
  }

  /**
   An issued access token has the client and scopes of its session, was exchanged by a caller that
   passed the session's PKCE check, and, for a public client, carries a user who consented to that session.
   */
  lemma AccessTokensMatchSession(s: State, events: seq<Event>, h: Hash)
    requires Init(s) && h in Run(s, events).db.access
    ensures var t := Run(s, events);
            && h in t.accessOf && t.accessOf[h] in t.sessions && t.accessOf[h] in t.redeemed
            && t.redeemed[t.accessOf[h]] in t.exchanges
            && var o, row := t.accessOf[h], t.db.access[h];
               && row.client == t.sessions[o].client && row.scopes == t.sessions[o].scopes
               && var challenge, verifier := t.sessions[o].challenge, t.exchanges[t.redeemed[o]].verifier;
               && (challenge.None? || challenge == Some(OtherText(""))
                   || (verifier.Some? && verifier.value != "" && challenge == Some(S256(verifier.value))))
               && (PublicClient(t, row.client) ==> Truthy(row.user) && exists n :: ConsentedBy(t, o, n, row.user))
  {
    RunKeepsInv(s, events);
    var t := Run(s, events);
    assert AccessFits(t, h);
    if PublicClient(t, t.db.access[h].client) {
      ConsentByInv(t, t.accessOf[h], t.db.access[h].user);
    }
  }

  /** The refresh token of a session carries the same client, scopes and consent. */
  lemma RefreshTokensMatchSession(s: State, events: seq<Event>, h: Hash)
    requires Init(s) && h in Run(s, events).db.refresh
    ensures var t := Run(s, events);
            && h in t.refreshOf && t.refreshOf[h] in t.sessions
            && var o, row := t.refreshOf[h], t.db.refresh[h];
               && row.client == t.sessions[o].client && row.scopes == t.sessions[o].scopes
               && (PublicClient(t, row.client) ==> Truthy(row.user) && exists n :: ConsentedBy(t, o, n, row.user))
  {
    RunKeepsInv(s, events);
    var t := Run(s, events);
    assert RefreshFits(t, h);
    if PublicClient(t, t.db.refresh[h].client) {
      ConsentByInv(t, t.refreshOf[h], t.db.refresh[h].user);
    }
  }

  lemma ConsentByInv(s: State, o: string, user: Option<string>)
    requires Inv(s) && OriginFits(s, o) && BindingFits(s, s.exchanges[s.redeemed[o]].code, user)
    requires PublicClient(s, s.sessions[o].client)
    ensures Truthy(user) && exists n :: ConsentedBy(s, o, n, user)
  {
    var code := s.exchanges[s.redeemed[o]].code;
    assert KeyFits(s, code);
    assert ConsentedBy(s, o, s.keys[code].approver.value, user);
  }

  // ---------------------------------------------------------------------------------------------
  // How many codes a session gets
  // ---------------------------------------------------------------------------------------------

  /** A code that was handed out for the session and could be exchanged at some time. */
  predicate CodeOf(s: State, session: string, k: string) {
    k in s.keys && s.keys[k].session == session && k != session
  }

  ghost predicate AtMostOneCode(s: State, session: string) {
    forall j, k :: CodeOf(s, session, j) && CodeOf(s, session, k) ==> j == k
  }

  /** An approval was passed a live code instead of the session id. */
  predicate Reapproves(s: State, e: Event, session: string) {
    && e.ApprovalCall? && Enabled(s, e) && e.approval.RekeyStep?
    && s.approvals[e.n].key in s.db.codes && CodeOf(s, session, s.approvals[e.n].key)
  }

  predicate NeverReapproved(s: State, events: seq<Event>, session: string) {
    events != [] ==>
      var before := events[..|events| - 1];
      NeverReapproved(s, before, session) && !Reapproves(Run(s, before), events[|events| - 1], session)
  }

  /** The session id is the session's first key, and gone once there is a code. */
  ghost predicate FirstKey(s: State, session: string) {
    && (session in s.sessions ==> session in s.keys && s.keys[session].session == session)
    && (session in s.db.codes ==> forall k :: !CodeOf(s, session, k))
  }

  lemma StepKeepsFirstKey(s: State, e: Event, session: string)
    requires Inv(s) && FirstKey(s, session)
    ensures FirstKey(Step(s, e), session)
    ensures AtMostOneCode(Step(s, e), session) <==> AtMostOneCode(s, session) && !Reapproves(s, e, session)
  {
    if Enabled(s, e) {
      match e
      case ApprovalCall(n, step) => ReadyByInv(s, e); ApprovalKeepsFirstKey(s, n, step, session);
      case ExchangeCall(n, step) => ReadyByInv(s, e); ExchangeKeepsFirstKey(s, n, step, session);
      case _ => EnvironmentKeepsFirstKey(s, e, session);
    }
  }

  lemma EnvironmentSparesCode(s: State, e: Event, session: string, k: string)
    requires EnvironmentReady(s, e)
    ensures CodeOf(Step(s, e), session, k) <==> CodeOf(s, session, k)
    ensures Step(s, e).redeemed == s.redeemed
    ensures forall n :: n in s.exchanges ==> n in Step(s, e).exchanges && Step(s, e).exchanges[n] == s.exchanges[n]
  {
  }

  lemma EnvironmentKeepsFirstKey(s: State, e: Event, session: string)
    requires EnvironmentReady(s, e) && FirstKey(s, session)
    ensures FirstKey(Step(s, e), session)
    ensures AtMostOneCode(Step(s, e), session) <==> AtMostOneCode(s, session)
  {
    forall k ensures CodeOf(Step(s, e), session, k) <==> CodeOf(s, session, k) {
      EnvironmentSparesCode(s, e, session, k);
    }
  }

  lemma ExchangeKeepsFirstKey(s: State, n: nat, step: ExchangeStep, session: string)
    requires ExchangeReady(s, n, step) && FirstKey(s, session)
    ensures FirstKey(ExchangeApply(s, n, step), session)
    ensures AtMostOneCode(ExchangeApply(s, n, step), session) <==> AtMostOneCode(s, session)
  {
    forall k ensures CodeOf(ExchangeApply(s, n, step), session, k) <==> CodeOf(s, session, k) {
    }
  }

  /** The call moves the session's live row to a new code. */
  predicate AddsCode(s: State, n: nat, step: ApprovalStep, session: string)
    requires n in s.approvals
  {
    var key := s.approvals[n].key;
    step.RekeyStep? && key in s.db.codes && key in s.keys && s.keys[key].session == session
  }

  lemma ApprovalAddsCode(s: State, n: nat, step: ApprovalStep, session: string, k: string)
    requires ApprovalReady(s, n, step)
    ensures CodeOf(ApprovalApply(s, n, step), session, k)
            <==> CodeOf(s, session, k) || (AddsCode(s, n, step, session) && k == step.code)
    ensures AddsCode(s, n, step, session) ==> !CodeOf(s, session, step.code)
  {
  }

  /** What is no session yet has no codes. */
  lemma UnknownHasNoCode(s: State, session: string, k: string)
    requires Tidy(s) && session !in s.minted
    ensures !CodeOf(s, session, k)
  {
  }

  lemma ApprovalMovesLive(s: State, n: nat, step: ApprovalStep, session: string)
    requires ApprovalReady(s, n, step) && FirstKey(s, session)
    ensures var t := ApprovalApply(s, n, step);
            && t.sessions == s.sessions && (session in s.keys ==> session in t.keys && t.keys[session] == s.keys[session])
            && (session in t.db.codes ==> !AddsCode(s, n, step, session) && (session in s.db.codes || session !in s.minted))
  {
  }

  lemma ApprovalKeepsFirstKey(s: State, n: nat, step: ApprovalStep, session: string)
    requires ApprovalReady(s, n, step) && FirstKey(s, session)
    ensures FirstKey(ApprovalApply(s, n, step), session)
    ensures AtMostOneCode(ApprovalApply(s, n, step), session)
            <==> AtMostOneCode(s, session) && !Reapproves(s, ApprovalCall(n, step), session)
  {
    var t, key := ApprovalApply(s, n, step), s.approvals[n].key;
    ApprovalMovesLive(s, n, step, session);
    forall k ensures CodeOf(t, session, k) <==> CodeOf(s, session, k) || (AddsCode(s, n, step, session) && k == step.code) {
      ApprovalAddsCode(s, n, step, session, k);
      if session !in s.minted {
        UnknownHasNoCode(s, session, k);
      }
    }
    if AddsCode(s, n, step, session) {
      ApprovalAddsCode(s, n, step, session, step.code);
      assert CodeOf(t, session, step.code);
      assert key != session ==> CodeOf(s, session, key) && CodeOf(t, session, key);
    }
  }

  /**
   At most one of the codes handed out for a session is ever redeemable if and only if no approval
   of it was passed a live code in place of the session id.
   */
  lemma {:induction false} OneCodeIffNeverReapproved(s: State, events: seq<Event>, session: string)
    requires Init(s)
    ensures FirstKey(Run(s, events), session)
    ensures AtMostOneCode(Run(s, events), session) <==> NeverReapproved(s, events, session)
  {
    if events != [] {
      var before := events[..|events| - 1];
      OneCodeIffNeverReapproved(s, before, session);
      RunKeepsInv(s, before);
      StepKeepsFirstKey(Run(s, before), events[|events| - 1], session);
    }
  }

  /** An approval has moved the session's row to a code it handed out. */
  ghost predicate Approved(s: State, session: string) {
    exists n, k :: n in s.approvals && s.approvals[n].pc == HandedOut(k) && CodeOf(s, session, k)
  }

  /** The exchange that took the session presented the session id itself. */
  predicate TakenById(s: State, session: string) {
    session in s.redeemed && s.redeemed[session] in s.exchanges && s.exchanges[s.redeemed[session]].code == session
  }

  ghost predicate NoCodeOf(s: State, session: string) {
    forall k :: !CodeOf(s, session, k)
  }

  /** Whoever took a session is on record, and a session taken by its id has no code. */
  ghost predicate TakenFits(s: State, session: string) {
    && (session in s.redeemed ==> s.redeemed[session] in s.exchanges)
    && (TakenById(s, session) ==> NoCodeOf(s, session))
  }

  lemma ApprovalKeepsTaken(s: State, n: nat, step: ApprovalStep, session: string)
    requires ApprovalReady(s, n, step) && TakenFits(s, session)
    ensures TakenFits(ApprovalApply(s, n, step), session)
  {
    forall k ensures CodeOf(ApprovalApply(s, n, step), session, k)
                     <==> CodeOf(s, session, k) || (AddsCode(s, n, step, session) && k == step.code) {
      ApprovalAddsCode(s, n, step, session, k);
    }
  }

  lemma ExchangeKeepsTaken(s: State, n: nat, step: ExchangeStep, session: string)
    requires ExchangeReady(s, n, step) && FirstKey(s, session) && TakenFits(s, session)
    ensures TakenFits(ExchangeApply(s, n, step), session)
  {
    var t := ExchangeApply(s, n, step);
    forall k ensures CodeOf(t, session, k) <==> CodeOf(s, session, k) {
    }
  }

  /** No new exchange takes the number of the one that took the session. */
  lemma SparedKeepsTaken(s: State, t: State, session: string)
    requires TakenFits(s, session) && t.redeemed == s.redeemed
    requires forall n :: n in s.exchanges ==> n in t.exchanges && t.exchanges[n] == s.exchanges[n]
    requires forall k :: CodeOf(t, session, k) <==> CodeOf(s, session, k)
    ensures TakenFits(t, session)
  {
  }

  lemma EnvironmentKeepsTaken(s: State, e: Event, session: string)
    requires EnvironmentReady(s, e) && TakenFits(s, session)
    ensures TakenFits(Step(s, e), session)
  {
    forall k ensures CodeOf(Step(s, e), session, k) <==> CodeOf(s, session, k) {
      EnvironmentSparesCode(s, e, session, k);
    }
    EnvironmentSparesCode(s, e, session, session);
    SparedKeepsTaken(s, Step(s, e), session);
  }

  lemma StepKeepsTaken(s: State, e: Event, session: string)
    requires Inv(s) && FirstKey(s, session) && TakenFits(s, session)
    ensures TakenFits(Step(s, e), session)
  {
    if Enabled(s, e) {
      match e
      case ApprovalCall(n, step) => ReadyByInv(s, e); ApprovalKeepsTaken(s, n, step, session);
      case ExchangeCall(n, step) => ReadyByInv(s, e); ExchangeKeepsTaken(s, n, step, session);
      case _ => EnvironmentKeepsTaken(s, e, session);
    }
  }

  lemma {:induction false} TakenByIdHasNoCode(s: State, events: seq<Event>, session: string)
    requires Init(s)
    ensures TakenFits(Run(s, events), session)
  {
    if events != [] {
      var before := events[..|events| - 1];
      TakenByIdHasNoCode(s, before, session);
      OneCodeIffNeverReapproved(s, before, session);
      RunKeepsInv(s, before);
      StepKeepsTaken(Run(s, before), events[|events| - 1], session);
    }
  }

  /**
   A session's access token was issued without any approval having taken effect if and only if the
   exchange presented the pending session id as its code; for a public client this never happens.
   */
  lemma IssuedWithoutApprovalIff(s: State, events: seq<Event>, h: Hash)
    requires Init(s) && h in Run(s, events).accessOf
    ensures var t := Run(s, events);
            var o := t.accessOf[h];
            && o in t.redeemed && t.redeemed[o] in t.exchanges
            && (!Approved(t, o) <==> TakenById(t, o))
            && (h in t.db.access && PublicClient(t, t.db.access[h].client) ==> Approved(t, o))
  {
    var t := Run(s, events);
    var o := t.accessOf[h];
    RunKeepsInv(s, events);
    TakenByIdHasNoCode(s, events, o);
    assert AccessFits(t, h);
    var code := t.exchanges[t.redeemed[o]].code;
    assert KeyFits(t, code);
    if code != o {
      assert CodeOf(t, o, code) && t.approvals[t.keys[code].maker.value].pc == HandedOut(code);
    }
  }

  /** The row was stored under k at some moment of the run. */
  predicate EverLive(s: State, events: seq<Event>, k: string) {
    k in Run(s, events).db.codes || (events != [] && EverLive(s, events[..|events| - 1], k))
  }

  lemma ApprovalRecordsKeys(s: State, n: nat, step: ApprovalStep, k: string)
    requires ApprovalReady(s, n, step)
    ensures k in ApprovalApply(s, n, step).keys <==> k in s.keys || k in ApprovalApply(s, n, step).db.codes
  {
  }

  lemma ExchangeRecordsKeys(s: State, n: nat, step: ExchangeStep, k: string)
    requires ExchangeReady(s, n, step)
    ensures k in ExchangeApply(s, n, step).keys <==> k in s.keys || k in ExchangeApply(s, n, step).db.codes
  {
  }

  lemma StepRecordsKeys(s: State, e: Event, k: string)
    requires Inv(s)
    ensures k in Step(s, e).keys <==> k in s.keys || k in Step(s, e).db.codes
  {
    if Enabled(s, e) {
      match e
      case ApprovalCall(n, step) => ReadyByInv(s, e); ApprovalRecordsKeys(s, n, step, k);
      case ExchangeCall(n, step) => ReadyByInv(s, e); ExchangeRecordsKeys(s, n, step, k);
      case _ => EnvironmentKeepsTidy(s, e);
    }
  }

  /** The recorded keys are exactly the texts some exchange could have redeemed at some moment. */
  lemma {:induction false} KeysAreEverLive(s: State, events: seq<Event>, k: string)
    requires Init(s)
    ensures k in Run(s, events).keys <==> EverLive(s, events, k)
  {
    if events != [] {
      var before := events[..|events| - 1];
      KeysAreEverLive(s, before, k);
      RunKeepsInv(s, before);
      StepRecordsKeys(Run(s, before), events[|events| - 1], k);
    }
  }

  // ---------------------------------------------------------------------------------------------
  // Handlers that run undisturbed
  // ---------------------------------------------------------------------------------------------

  lemma RunNext(s: State, events: seq<Event>, e: Event)
    ensures Run(s, events + [e]) == Step(Run(s, events), e)
  {
    assert (events + [e])[..|events + [e]| - 1] == events;
  }

  lemma RunBegin(s: State, e: Event)
    requires Enabled(s, e)
    ensures Run(s, [e]) == Apply(s, e)
  {
    assert Run(s, [e][..0]) == s;
  }

  /** One more call of approval n: its effect, or nothing when the approval is not at that call. */
  function AfterApprovalCall(s: State, n: nat, step: ApprovalStep): State
    requires n in s.approvals
  {
    if ApprovalEnabled(s, s.approvals[n], step) then ApprovalApply(s, n, step) else s
  }

  lemma RunApproval(s: State, events: seq<Event>, n: nat, step: ApprovalStep)
    requires n in Run(s, events).approvals
    ensures Run(s, events + [ApprovalCall(n, step)]) == AfterApprovalCall(Run(s, events), n, step)
  {
    RunNext(s, events, ApprovalCall(n, step));
  }

  function AfterExchangeCall(s: State, n: nat, step: ExchangeStep): State
    requires n in s.exchanges
  {
    if ExchangeEnabled(s, s.exchanges[n], step) then ExchangeApply(s, n, step) else s
  }

  lemma RunExchange(s: State, events: seq<Event>, n: nat, step: ExchangeStep)
    requires n in Run(s, events).exchanges
    ensures Run(s, events + [ExchangeCall(n, step)]) == AfterExchangeCall(Run(s, events), n, step)
  {
    RunNext(s, events, ExchangeCall(n, step));
  }

  function ApprovalReads(n: nat, key: string, user: Option<string>): seq<Event> {
    [BeginApproval(n, key, user)] + [ApprovalCall(n, ReadSessionStep)] + [ApprovalCall(n, ReadClaimerStep)]
    + [ApprovalCall(n, ReadPendingStep)]
  }

  function ApprovalCalls(n: nat, key: string, user: Option<string>, code: string): seq<Event> {
    ApprovalReads(n, key, user) + [ApprovalCall(n, RekeyStep(code))]
  }

  /** The reads of an undisturbed approval. */
  lemma UndisturbedReads(s: State, n: nat, key: string, user: Option<string>)
    requires n !in s.approvals
    ensures var pc := if key !in s.db.codes then Refused(NotFound)
                      else if s.db.codes[key].expiresAt < s.now then Refused(Expired)
                      else Rekey(if user.Some? then user else Claimer(s.db.clients, s.db.codes[key].client),
                                 PendingResource(s.db.codes[key]));
            var t := Run(s, ApprovalReads(n, key, user));
            t.db == s.db && t.now == s.now && t.minted == s.minted && n in t.approvals && t.approvals[n] == Approval(key, user, pc)
  {
    var events := [BeginApproval(n, key, user)];
    RunBegin(s, events[0]);
    RunApproval(s, events, n, ReadSessionStep);
    RunApproval(s, events + [ApprovalCall(n, ReadSessionStep)], n, ReadClaimerStep);
    RunApproval(s, events + [ApprovalCall(n, ReadSessionStep)] + [ApprovalCall(n, ReadClaimerStep)], n, ReadPendingStep);
  }

  /** Without interleaving the calls of an approval do what the handler does as a whole. */
  lemma UndisturbedApproval(s: State, n: nat, key: string, user: Option<string>, code: string)
    requires n !in s.approvals && code !in s.minted
    ensures var t := Run(s, ApprovalCalls(n, key, user, code));
            var (db, answer) := Approve(s.db, key, user, code, s.now);
            && t.db == db && n in t.approvals
            && t.approvals[n].pc == if answer.Ok? then HandedOut(answer.value) else Refused(answer.error)
  {
    UndisturbedReads(s, n, key, user);
    RunApproval(s, ApprovalReads(n, key, user), n, RekeyStep(code));
  }

  function ExchangeTakes(n: nat, code: string, client: string, verifier: Option<string>): seq<Event> {
    [BeginExchange(n, code, client, verifier)] + [ExchangeCall(n, ReadCodeStep)]
    + [ExchangeCall(n, DeleteCodeStep)] + [ExchangeCall(n, ReadOwnerStep)]
  }

  /** An undisturbed exchange up to its first insert. */
  lemma UndisturbedTaking(s: State, n: nat, code: string, client: string, verifier: Option<string>)
    requires n !in s.exchanges
    ensures var t := Run(s, ExchangeTakes(n, code, client, verifier));
            var refusal := CheckCode(s.db.codes, code, client, verifier, s.now);
            && n in t.exchanges && t.minted == s.minted && t.now == s.now
            && if refusal.Some? then t.db == s.db && t.exchanges[n].pc == Rejected(refusal.value)
               else
                 var user := BoundUser(s.db.clients, client, s.db.codes[code].user);
                 && t.db == s.db.(codes := s.db.codes - {code})
                 && t.exchanges[n].pc == if user.Err? then Rejected(user.error) else InsertAccess(s.db.codes[code], user.value)
  {
    var events := [BeginExchange(n, code, client, verifier)];
    RunBegin(s, events[0]);
    RunExchange(s, events, n, ReadCodeStep);
    RunExchange(s, events + [ExchangeCall(n, ReadCodeStep)], n, DeleteCodeStep);
    RunExchange(s, events + [ExchangeCall(n, ReadCodeStep)] + [ExchangeCall(n, DeleteCodeStep)], n, ReadOwnerStep);
  }

  function InsertCalls(n: nat, pair: TokenPair): seq<Event> {
    [ExchangeCall(n, InsertAccessStep(pair.access, pair.ttl))] + [ExchangeCall(n, InsertRefreshStep(pair.refresh, pair.refreshTtl))]
  }

  function ExchangeCalls(n: nat, code: string, client: string, verifier: Option<string>, pair: TokenPair): seq<Event> {
    ExchangeTakes(n, code, client, verifier) + InsertCalls(n, pair)
  }

  /** The tables with the pair of exchange x inserted. */
  function WithPair(s: State, x: Exchange, pair: TokenPair): Tables
    requires x.pc.InsertAccess?
  {
    var access := Sha256(pair.access);
    s.db.(access := s.db.access[access := NewAccess(x.pc.row, x.pc.user, s.now + pair.ttl)],
          refresh := s.db.refresh[Sha256(pair.refresh) := NewRefresh(x.pc.row, x.pc.user, access, s.now + pair.refreshTtl)])
  }

  lemma InsertBoth(s: State, n: nat, pair: TokenPair)
    requires n in s.exchanges && (s.exchanges[n].pc.InsertAccess? || s.exchanges[n].pc.Rejected?)
    requires pair.access !in s.minted && pair.refresh !in s.minted && pair.access != pair.refresh
    ensures var x := s.exchanges[n];
            var t := AfterExchangeCall(s, n, InsertAccessStep(pair.access, pair.ttl));
            n in t.exchanges
            && var u := AfterExchangeCall(t, n, InsertRefreshStep(pair.refresh, pair.refreshTtl));
               && n in u.exchanges
               && (x.pc.Rejected? ==> u == s)
               && (x.pc.InsertAccess? ==>
                     u.db == WithPair(s, x, pair) && u.exchanges[n].pc == Issued(Sha256(pair.access), Sha256(pair.refresh)))
  {
  }

  lemma UndisturbedInserts(s: State, events: seq<Event>, n: nat, pair: TokenPair)
    requires var t := Run(s, events);
             && n in t.exchanges && (t.exchanges[n].pc.InsertAccess? || t.exchanges[n].pc.Rejected?)
             && pair.access !in t.minted && pair.refresh !in t.minted && pair.access != pair.refresh
    ensures var t := Run(s, events);
            var u := Run(s, events + InsertCalls(n, pair));
            && n in u.exchanges
            && (t.exchanges[n].pc.Rejected? ==> u == t)
            && (t.exchanges[n].pc.InsertAccess? ==>
                  && u.db == WithPair(t, t.exchanges[n], pair)
                  && u.exchanges[n].pc == Issued(Sha256(pair.access), Sha256(pair.refresh)))
  {
    var insert := InsertAccessStep(pair.access, pair.ttl);
    InsertBoth(Run(s, events), n, pair);
    RunExchange(s, events, n, insert);
    RunExchange(s, events + [ExchangeCall(n, insert)], n, InsertRefreshStep(pair.refresh, pair.refreshTtl));
    assert events + InsertCalls(n, pair)
           == events + [ExchangeCall(n, insert)] + [ExchangeCall(n, InsertRefreshStep(pair.refresh, pair.refreshTtl))];
  }

  /** Without interleaving the calls of an exchange do what the handler does as a whole. */
  lemma UndisturbedExchange(s: State, n: nat, code: string, client: string, verifier: Option<string>, pair: TokenPair)
    requires n !in s.exchanges && pair.access !in s.minted && pair.refresh !in s.minted && pair.access != pair.refresh
    ensures var t := Run(s, ExchangeCalls(n, code, client, verifier, pair));
            var (db, refusal) := OAuthGrants.Exchange(s.db, code, client, verifier, pair, s.now);
            && t.db == db && n in t.exchanges
            && t.exchanges[n].pc == match refusal
                                    case None => Issued(Sha256(pair.access), Sha256(pair.refresh))
                                    case Some(error) => Rejected(error)
  {
    UndisturbedTaking(s, n, code, client, verifier);
    UndisturbedInserts(s, ExchangeTakes(n, code, client, verifier), n, pair);
  }

  /** The key a handed-out code gets: the session of the key it replaces. */
  lemma UndisturbedRekey(s: State, n: nat, key: string, user: Option<string>, code: string)
    requires n !in s.approvals && code !in s.minted && s.keys.Keys <= s.minted
    requires key in s.db.codes && key in s.keys && s.db.codes[key].expiresAt >= s.now
    ensures var t := Run(s, ApprovalCalls(n, key, user, code));
            && code in t.keys && t.keys[code].session == s.keys[key].session && t.keys.Keys == s.keys.Keys + {code}
            && (forall k :: k in s.keys ==> t.keys[k] == s.keys[k])
            && t.minted == s.minted + {code} && t.now == s.now && t.approvals.Keys == s.approvals.Keys + {n}
  {
    UndisturbedReads(s, n, key, user);
    ReadsSpareHistory(s, n, key, user);
    RunApproval(s, ApprovalReads(n, key, user), n, RekeyStep(code));
  }

  lemma CallSparesHistory(s: State, n: nat, step: ApprovalStep)
    requires n in s.approvals && !step.RekeyStep?
    ensures AfterApprovalCall(s, n, step).keys == s.keys && AfterApprovalCall(s, n, step).approvals.Keys == s.approvals.Keys
  {
  }

  lemma ReadsSpareHistory(s: State, n: nat, key: string, user: Option<string>)
    requires n !in s.approvals
    ensures var t := Run(s, ApprovalReads(n, key, user));
            t.keys == s.keys && t.approvals.Keys == s.approvals.Keys + {n}
  {
    var one := [BeginApproval(n, key, user)];
    RunBegin(s, one[0]);
    assert Run(s, one).approvals.Keys == s.approvals.Keys + {n};
    CallSparesHistory(Run(s, one), n, ReadSessionStep);
    RunApproval(s, one, n, ReadSessionStep);
    var two := one + [ApprovalCall(n, ReadSessionStep)];
    CallSparesHistory(Run(s, two), n, ReadClaimerStep);
    RunApproval(s, two, n, ReadClaimerStep);
    var three := two + [ApprovalCall(n, ReadClaimerStep)];
    CallSparesHistory(Run(s, three), n, ReadPendingStep);
    RunApproval(s, three, n, ReadPendingStep);
  }

  /**
   The condition of OneCodeIffNeverReapproved can fail: wherever a session has a live code, an approval
   that is passed this code hands out a second one, and the row moves to it.
   */
  lemma ReapprovalMovesTheCode(s: State, n: nat, session: string, key: string, user: Option<string>, code: string)
    requires n !in s.approvals && code !in s.minted && s.keys.Keys <= s.minted && session in s.minted
    requires CodeOf(s, session, key) && key in s.db.codes && s.db.codes[key].expiresAt >= s.now
    ensures var t := Run(s, ApprovalCalls(n, key, user, code));
            && n in t.approvals && t.approvals[n].pc == HandedOut(code)
            && key !in t.db.codes && code in t.db.codes && t.db.codes[code].expiresAt == s.now + CODE_EXPIRY_SECONDS
            && CodeOf(t, session, key) && CodeOf(t, session, code) && !AtMostOneCode(t, session)
  {
    UndisturbedApproval(s, n, key, user, code);
    UndisturbedRekey(s, n, key, user, code);
    var t := Run(s, ApprovalCalls(n, key, user, code));
    assert CodeOf(t, session, key) && CodeOf(t, session, code) && key != code;
  }

  lemma {:induction false} RunInTwoParts(s: State, first: seq<Event>, next: seq<Event>)
    ensures Run(s, first + next) == Run(Run(s, first), next)
  {
    if next == [] {
      assert first + next == first;
    } else {
      RunInTwoParts(s, first, next[..|next| - 1]);
      assert (first + next)[..|first + next| - 1] == first + next[..|next| - 1];
    }
  }

  /** A session, an approval of it, and an approval of the code the first one handed out. */
  function ReapprovalRun(session: string, terms: Terms, first: string, second: string, user: Option<string>): seq<Event> {
    [NewSession(session, terms)] + ApprovalCalls(1, session, user, first) + ApprovalCalls(2, first, user, second)
  }

  /** The first approval of a fresh session: one code, live under it. */
  lemma FirstApproval(s: State, session: string, terms: Terms, first: string, user: Option<string>)
    requires Init(s) && terms.client in s.minted && session !in s.minted && first !in s.minted + {session}
    ensures var t := Run(s, [NewSession(session, terms)] + ApprovalCalls(1, session, user, first));
            && t.minted == s.minted + {session, first} && t.approvals.Keys == {1} && t.keys.Keys <= t.minted
            && CodeOf(t, session, first) && first in t.db.codes && t.db.codes[first].expiresAt >= t.now
  {
    var begun := [NewSession(session, terms)];
    RunBegin(s, begun[0]);
    var s1 := Run(s, begun);
    assert s1.keys == map[session := Key(session, None, None, None)];
    assert s1.db.codes == map[session := SessionRow(terms, s.now)];
    UndisturbedApproval(s1, 1, session, user, first);
    UndisturbedRekey(s1, 1, session, user, first);
    RunInTwoParts(s, begun, ApprovalCalls(1, session, user, first));
  }

  /** From the start of a run: two codes for one session, each redeemable in its time. */
  lemma ReapprovalHandsOutTwoCodes(s: State, session: string, terms: Terms, first: string, second: string, user: Option<string>)
    requires Init(s) && terms.client in s.minted
    requires session !in s.minted && first !in s.minted + {session} && second !in s.minted + {session, first}
    ensures !AtMostOneCode(Run(s, ReapprovalRun(session, terms, first, second, user)), session)
  {
    var approved := [NewSession(session, terms)] + ApprovalCalls(1, session, user, first);
    FirstApproval(s, session, terms, first, user);
    ReapprovalMovesTheCode(Run(s, approved), 2, session, first, user, second);
    RunInTwoParts(s, approved, ApprovalCalls(2, first, user, second));
  }
}
