/**
 What becomes of an approval or an exchange of CodeExchange when others have moved in between its calls:
 the branches no undisturbed handler takes.
 */
module ExchangeSteps {
  import opened Prelude
  import opened OAuthTables
  import opened OAuthGrants
  import opened CodeExchange

  /** A call of one exchange leaves all others where they are. */
  lemma OthersWait(s: State, n: nat, step: ExchangeStep, m: nat)
    requires m in s.exchanges && m != n
    ensures var t := Step(s, ExchangeCall(n, step)); m in t.exchanges && t.exchanges[m] == s.exchanges[m]
  {
  }

  /** The delete decides: whoever finds the row takes it, and any other exchange of that code is refused and changes nothing. */
  lemma DeleteDecides(s: State, n: nat)
    requires n in s.exchanges && s.exchanges[n].pc.DeleteCode?
    ensures var x, t := s.exchanges[n], Step(s, ExchangeCall(n, DeleteCodeStep));
            && n in t.exchanges
            && (x.code in s.db.codes ==>
                  t.db == s.db.(codes := s.db.codes - {x.code}) && t.exchanges[n].pc == ReadOwner(x.pc.row))
            && (x.code !in s.db.codes ==> t.db == s.db && t.exchanges[n].pc == Rejected(AlreadyUsed))
  {
    if s.exchanges[n].code !in s.db.codes {
      assert Step(s, ExchangeCall(n, DeleteCodeStep)) == ExchangeGoto(s, n, Rejected(AlreadyUsed));
    }
  }

  /** An exchange goes on with the row it read first, whatever has become of it since. */
  lemma ReadPassesIff(s: State, n: nat)
    requires n in s.exchanges && s.exchanges[n].pc.ReadCode?
    ensures var x, t := s.exchanges[n], Step(s, ExchangeCall(n, ReadCodeStep));
            && t.db == s.db && n in t.exchanges
            && (t.exchanges[n].pc.DeleteCode? <==>
                  && x.code in s.db.codes && s.db.codes[x.code].client == x.client && s.now <= s.db.codes[x.code].expiresAt
                  && var challenge := s.db.codes[x.code].challenge;
                     (challenge.None? || challenge == Some(OtherText(""))
                      || (x.verifier.Some? && x.verifier.value != "" && challenge == Some(S256(x.verifier.value)))))
            && (t.exchanges[n].pc.DeleteCode? ==> t.exchanges[n].pc.row == s.db.codes[x.code])
  {
  }

  /**
   After the code is gone: a public client without a consenting user gets nothing; everyone else goes
   on, bound to the user as the client table stands now.
   */
  lemma OwnerIsReadLate(s: State, n: nat)
    requires n in s.exchanges && s.exchanges[n].pc.ReadOwner?
    ensures var x, t := s.exchanges[n], Step(s, ExchangeCall(n, ReadOwnerStep));
            var row := x.pc.row;
            var consented := row.user.Some? && row.user.value != "";
            && t.db == s.db && n in t.exchanges
            && (!consented && x.client in s.db.clients && s.db.clients[x.client].isPublic ==>
                  t.exchanges[n].pc == Rejected(MissingUserBinding))
            && (consented ==> t.exchanges[n].pc == InsertAccess(row, row.user))
            && (!consented && x.client in s.db.clients && !s.db.clients[x.client].isPublic ==>
                  t.exchanges[n].pc == InsertAccess(row, s.db.clients[x.client].owner))
            && (!consented && x.client !in s.db.clients ==> t.exchanges[n].pc == InsertAccess(row, None))
  {
  }

  /** An insert that fails ends the exchange with the code gone and without its token. */
  lemma FailedInsertIssuesNothing(s: State, n: nat)
    requires n in s.exchanges && (s.exchanges[n].pc.InsertAccess? || s.exchanges[n].pc.InsertRefresh?)
    ensures var t := Step(s, ExchangeCall(n, InsertFails));
            t.db == s.db && n in t.exchanges && t.exchanges[n].pc == InsertFailed
  {
  }

  /** The two reads of an approval refuse a session that is gone, has expired, or belongs to another client by then. */
  lemma ApprovalReadsAgain(s: State, n: nat)
    requires n in s.approvals && s.approvals[n].pc.ReadPending?
    ensures var a, t := s.approvals[n], Step(s, ApprovalCall(n, ReadPendingStep));
            && t.db == s.db && n in t.approvals
            && (a.key !in s.db.codes || s.db.codes[a.key].expiresAt < s.now ==> t.approvals[n].pc == Refused(Expired))
            && (a.key in s.db.codes && s.now <= s.db.codes[a.key].expiresAt ==>
                  if s.db.codes[a.key].client != a.pc.client then t.approvals[n].pc == Refused(ClientMismatch)
                  else t.approvals[n].pc == Rekey(a.pc.user, match s.db.codes[a.key].resource case Session(r) => r case Plain(_) => None))
  {
  }

  /** An approval whose row has gone since its last read hands out a code that no row has. */
  lemma LateRekeyHandsOutDeadCode(s: State, n: nat, code: string)
    requires n in s.approvals && s.approvals[n].pc.Rekey? && code !in s.minted
    ensures var a, t := s.approvals[n], Step(s, ApprovalCall(n, RekeyStep(code)));
            && n in t.approvals && t.approvals[n].pc == HandedOut(code)
            && (a.key !in s.db.codes ==> t.db == s.db)
            && (a.key in s.db.codes ==>
                  && code in t.db.codes && t.db.codes.Keys == s.db.codes.Keys - {a.key} + {code}
                  && var was, row := s.db.codes[a.key], t.db.codes[code];
                     && row.client == was.client && row.scopes == was.scopes && row.challenge == was.challenge
                     && row.redirectUri == was.redirectUri && row.resource == Plain(a.pc.resource)
                     && row.expiresAt == s.now + 600 && row.user == if a.pc.user.Some? then a.pc.user else was.user)
  {
  }

  // ---------------------------------------------------------------------------------------------
  // What happens around the calls
  // ---------------------------------------------------------------------------------------------

  /** No approval and no exchange moves, and the history of keys and tokens stays. */
  ghost predicate CallsWait(s: State, t: State) {
    && t.approvals == s.approvals && t.exchanges == s.exchanges && t.keys == s.keys && t.sessions == s.sessions
    && t.redeemed == s.redeemed && t.accessOf == s.accessOf && t.refreshOf == s.refreshOf
  }

  /** Time passes, and clients are registered, whatever the calls are at. */
  lemma ClientsCome(s: State, seconds: nat, client: string, row: ClientRow)
    ensures Step(s, Tick(seconds)) == s.(now := s.now + seconds)
    ensures client !in s.minted && (row.isPublic ==> row.owner.None?) ==>
              Step(s, Register(client, row))
              == s.(db := s.db.(clients := s.db.clients[client := row]), minted := s.minted + {client})
  {
  }

  /** Clients that are not public and have no owner are claimed, and any are deleted. */
  lemma ClientsMove(s: State, client: string, owner: string)
    ensures client in s.db.clients && !s.db.clients[client].isPublic && s.db.clients[client].owner.None? ==>
              Step(s, ClaimOwner(client, owner))
              == s.(db := s.db.(clients := s.db.clients[client := s.db.clients[client].(owner := Some(owner))]))
    ensures client !in s.db.clients || s.db.clients[client].isPublic || s.db.clients[client].owner.Some? ==>
              Step(s, ClaimOwner(client, owner)) == s
    ensures Step(s, RemoveClient(client)) == s.(db := s.db.(clients := s.db.clients - {client}))
  {
  }

  /** The statements of a deletion: each takes the client's rows out of one table, at any time. */
  lemma CodesGo(s: State, client: string)
    ensures var t := Step(s, RemoveCodes(client));
            && CallsWait(s, t) && t.now == s.now && t.minted == s.minted && t.db == s.db.(codes := t.db.codes)
            && (forall k :: k in t.db.codes <==> k in s.db.codes && s.db.codes[k].client != client)
            && forall k :: k in t.db.codes ==> t.db.codes[k] == s.db.codes[k]
  {
  }

  lemma AccessTokensGo(s: State, client: string)
    ensures var t := Step(s, RemoveAccess(client));
            && CallsWait(s, t) && t.now == s.now && t.minted == s.minted && t.db == s.db.(access := t.db.access)
            && (forall h :: h in t.db.access <==> h in s.db.access && s.db.access[h].client != client)
            && forall h :: h in t.db.access ==> t.db.access[h] == s.db.access[h]
  {
  }

  lemma RefreshTokensGo(s: State, client: string)
    ensures var t := Step(s, RemoveRefresh(client));
            && CallsWait(s, t) && t.now == s.now && t.minted == s.minted && t.db == s.db.(refresh := t.db.refresh)
            && (forall h :: h in t.db.refresh <==> h in s.db.refresh && s.db.refresh[h].client != client)
            && forall h :: h in t.db.refresh ==> t.db.refresh[h] == s.db.refresh[h]
  {
  }

  /** A denial takes the row at its key, whatever handler is at work on it. */
  lemma DenialTakesRow(s: State, key: string)
    ensures var t := Step(s, DenySession(key));
            CallsWait(s, t) && t.now == s.now && t.minted == s.minted && t.db == s.db.(codes := s.db.codes - {key})
  {
  }

  /** Anyone may begin an approval or an exchange with any text, at any time. */
  lemma CallsBegin(s: State, n: nat, key: string, user: Option<string>, client: string, verifier: Option<string>)
    ensures n !in s.approvals ==>
              Step(s, BeginApproval(n, key, user)) == s.(approvals := s.approvals[n := Approval(key, user, ReadSession)])
    ensures n !in s.exchanges ==>
              Step(s, BeginExchange(n, key, client, verifier)) == s.(exchanges := s.exchanges[n := Exchange(key, client, verifier, ReadCode)])
  {
  }
}
