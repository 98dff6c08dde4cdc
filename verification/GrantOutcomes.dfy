/**
 When each step from a pending session to a token pair succeeds, which error it raises otherwise, and
 what it writes: said of the rows themselves.
 */
module GrantOutcomes {
  import opened Prelude
  import opened OAuthTables
  import opened OAuthGrants

  /** The same rows, but for one key of the code table. */
  ghost predicate OnlyCodeChanges(before: Tables, after: Tables, key: string) {
    && after.clients == before.clients && after.access == before.access && after.refresh == before.refresh
    && forall k :: k != key ==> (k in after.codes <==> k in before.codes) && (k in before.codes ==> after.codes[k] == before.codes[k])
  }

  /** A pending session keeps the request's terms for half an hour, with its resource apart and no user. */
  lemma AuthorizeStores(db: Tables, session: string, terms: Terms, now: int)
    ensures var after := Authorize(db, session, terms, now);
            && OnlyCodeChanges(db, after, session) && session in after.codes
            && var row := after.codes[session];
               && row.client == terms.client && row.redirectUri == terms.redirectUri && row.scopes == terms.scopes
               && row.challenge == terms.challenge && row.resource == Session(terms.resource)
               && row.expiresAt == now + 1800 && row.user.None?
  {
  }

  /** The user an approval leaves on the row: the one named, else the owner of a client that is not public, else the one there. */
  ghost predicate ApprovalUser(db: Tables, row: CodeRow, named: Option<string>, user: Option<string>) {
    if named.Some? then user == named
    else if row.client in db.clients && !db.clients[row.client].isPublic && db.clients[row.client].owner.Some? then
      user == db.clients[row.client].owner
    else user == row.user
  }

  /**
   An approval succeeds if and only if the key is stored and its second of expiry has not passed; the
   row then moves to the code for ten minutes.
   */
  lemma ApproveIff(db: Tables, key: string, named: Option<string>, code: string, now: int)
    requires code !in db.codes
    ensures var (after, answer) := Approve(db, key, named, code, now);
            && (answer.Ok? <==> key in db.codes && now <= db.codes[key].expiresAt)
            && (answer.Err? ==> after == db && answer == Err(if key in db.codes then Expired else NotFound))
            && (answer.Ok? ==>
                  && answer == Ok(code) && after.clients == db.clients && after.access == db.access && after.refresh == db.refresh
                  && key !in after.codes && code in after.codes && after.codes.Keys == db.codes.Keys - {key} + {code}
                  && (forall k :: k in db.codes && k != key ==> after.codes[k] == db.codes[k])
                  && var was, row := db.codes[key], after.codes[code];
                     && row.client == was.client && row.redirectUri == was.redirectUri && row.scopes == was.scopes
                     && row.challenge == was.challenge && row.expiresAt == now + 600
                     && row.resource == Plain(match was.resource case Session(r) => r case Plain(_) => None)
                     && ApprovalUser(db, was, named, row.user))
  {
  }

  /** A denial removes exactly the row at the key. */
  lemma DenyRemoves(db: Tables, key: string)
    ensures OnlyCodeChanges(db, Deny(db, key), key) && key !in Deny(db, key).codes
  {
  }

  /** The verifier matches: the row has no challenge, or an empty one, or the S256 image of the verifier (section 4.6 of RFC 7636). */
  ghost predicate Matches(challenge: Option<Challenge>, verifier: Option<string>) {
    || challenge.None? || challenge == Some(OtherText(""))
    || exists v :: verifier == Some(v) && v != "" && challenge == Some(S256(v))
  }

  ghost predicate Public(db: Tables, client: string) {
    client in db.clients && db.clients[client].isPublic
  }

  /** The key can be exchanged by the client with that verifier: the conditions of the row. */
  ghost predicate Redeemable(db: Tables, key: string, client: string, verifier: Option<string>, now: int) {
    && key in db.codes && db.codes[key].client == client && now <= db.codes[key].expiresAt
    && Matches(db.codes[key].challenge, verifier)
  }

  ghost predicate HasUser(db: Tables, key: string)
    requires key in db.codes
  {
    db.codes[key].user.Some? && db.codes[key].user.value != ""
  }

  /**
   A pair is issued if and only if the key is stored for that client, has not expired, its challenge is
   met by the verifier, and, for a public client, a user has consented.
   */
  lemma ExchangeIff(db: Tables, key: string, client: string, verifier: Option<string>, pair: TokenPair, now: int)
    ensures Exchange(db, key, client, verifier, pair, now).1.None?
            <==> Redeemable(db, key, client, verifier, now) && (Public(db, client) ==> HasUser(db, key))
  {
  }

  /** The error of every other case, in the order of the checks; only the last is raised with the key gone. */
  lemma ExchangeRefusals(db: Tables, key: string, client: string, verifier: Option<string>, pair: TokenPair, now: int)
    ensures var (after, refusal) := Exchange(db, key, client, verifier, pair, now);
            && (key !in db.codes ==> refusal == Some(NotFound))
            && (key in db.codes ==>
                  var row := db.codes[key];
                  && (row.client != client ==> refusal == Some(ClientMismatch))
                  && (row.client == client && row.expiresAt < now ==> refusal == Some(Expired))
                  && (row.client == client && now <= row.expiresAt && !Matches(row.challenge, verifier) ==> refusal == Some(PkceFailed)))
            && (!Redeemable(db, key, client, verifier, now) ==> after == db)
            && (Redeemable(db, key, client, verifier, now) && Public(db, client) && !HasUser(db, key) ==>
                  refusal == Some(MissingUserBinding) && OnlyCodeChanges(db, after, key) && key !in after.codes)
  {
  }

  /** The user of the new tokens: the one who consented, else the client's owner. */
  ghost predicate BindsUser(db: Tables, key: string, client: string, user: Option<string>)
    requires key in db.codes
  {
    if HasUser(db, key) then user == db.codes[key].user
    else user == if client in db.clients then db.clients[client].owner else None
  }

  /** An exchange takes the key and inserts two rows with the session's client, scopes and user, for their lifetimes from now. */
  lemma ExchangeIssues(db: Tables, key: string, client: string, verifier: Option<string>, pair: TokenPair, now: int)
    requires Exchange(db, key, client, verifier, pair, now).1.None?
    ensures var after := Exchange(db, key, client, verifier, pair, now).0;
            var a, r := Sha256(pair.access), Sha256(pair.refresh);
            && after.clients == db.clients && key !in after.codes && after.codes == db.codes - {key}
            && after.access.Keys == db.access.Keys + {a} && after.refresh.Keys == db.refresh.Keys + {r}
            && (forall h :: h in db.access && h != a ==> after.access[h] == db.access[h])
            && (forall h :: h in db.refresh && h != r ==> after.refresh[h] == db.refresh[h])
            && var row, access, refresh := db.codes[key], after.access[a], after.refresh[r];
               && access.client == client == refresh.client && access.scopes == row.scopes == refresh.scopes
               && BindsUser(db, key, client, access.user) && refresh.user == access.user
               && access.resource == row.resource && refresh.access == Some(a)
               && access.expiresAt == Some(now + pair.ttl) && refresh.expiresAt == Some(now + pair.refreshTtl)
               && !access.revoked && !refresh.revoked
  {
    ExchangeIff(db, key, client, verifier, pair, now);
  }
}
