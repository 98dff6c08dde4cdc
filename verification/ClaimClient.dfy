/**
 `claim_unclaimed_client` of src/oauth/provider.py, run as a whole: an unclaimed client is bound to
 its first user and the user's older devices of that name are deactivated.
 */
module ClaimClient {
  import opened Prelude
  import opened OAuthTables

  datatype ClaimError = ClientNotFound | PublicClient | ClaimedByOther

  /** An active client of the user with that name: what the claim takes for an older device. */
  predicate Duplicate(row: ClientRow, user: string, name: string) {
    row.owner == Some(user) && row.name == name && row.active
  }

  function WithoutDuplicates(clients: Clients, user: string, name: string): Clients {
    map c | c in clients ::
      if name != "" && Duplicate(clients[c], user, name) then clients[c].(active := false) else clients[c]
  }

  function Claim(clients: Clients, client: string, user: string): (Clients, Result<bool, ClaimError>) {
    if client !in clients then (clients, Err(ClientNotFound))
    else if clients[client].isPublic then (clients, Err(PublicClient))
    else if clients[client].owner == Some(user) then (clients, Ok(false))
    else if clients[client].owner.Some? then (clients, Err(ClaimedByOther))
    else
      var tidy := WithoutDuplicates(clients, user, clients[client].name);
      (tidy[client := clients[client].(owner := Some(user))], Ok(true))
  }

  class ClientTable {
    var clients: Clients

    constructor (clients: Clients)
      ensures this.clients == clients
    {
      this.clients := clients;
    }

    method ClaimUnclaimedClient(client: string, user: string) returns (result: Result<bool, ClaimError>)
      modifies this
      ensures (clients, result) == Claim(old(clients), client, user)
    {
      if client !in clients {
        return Err(ClientNotFound);
      }
      var row := clients[client];
      if row.isPublic {
        return Err(PublicClient);
      }
      if row.owner == Some(user) {
        return Ok(false);
      }
      if row.owner.Some? {
        return Err(ClaimedByOther);
      }
      if row.name != "" {
        var dups := set c | c in clients && Duplicate(clients[c], user, row.name);
        while dups != {}
          invariant clients.Keys == old(clients).Keys
          invariant dups <= clients.Keys
          invariant forall c :: c in dups ==> clients[c] == old(clients)[c] && Duplicate(clients[c], user, row.name)
          invariant forall c :: c in clients && c !in dups ==>
                      clients[c] == WithoutDuplicates(old(clients), user, row.name)[c]
          decreases |dups|
        {
          var dup :| dup in dups;
          clients := clients[dup := clients[dup].(active := false)];
          dups := dups - {dup};
        }
      }
      assert clients == WithoutDuplicates(old(clients), user, row.name);
      assert clients[client] == row;
      clients := clients[client := clients[client].(owner := Some(user))];
      return Ok(true);
    }
  }

  /** A claim that succeeds leaves the user no other active client of the same non-empty name. */
  lemma ClaimLeavesOneActiveDevice(clients: Clients, client: string, user: string, other: string)
    requires Claim(clients, client, user).1 == Ok(true) && clients[client].name != ""
    requires other in clients && other != client
    ensures !Duplicate(Claim(clients, client, user).0[other], user, clients[client].name)
    ensures Claim(clients, client, user).0[other] == clients[other]
            || Duplicate(clients[other], user, clients[client].name)
  {
  }

  /** A claim wins if and only if the client exists, is not public and has no owner; otherwise no row changes. */
  lemma ClaimIff(clients: Clients, client: string, user: string)
    ensures var (after, result) := Claim(clients, client, user);
            && (result == Ok(true) <==> client in clients && !clients[client].isPublic && clients[client].owner.None?)
            && (result == Ok(false) <==> client in clients && !clients[client].isPublic && clients[client].owner == Some(user))
            && (result == Err(ClientNotFound) <==> client !in clients)
            && (result == Err(PublicClient) <==> client in clients && clients[client].isPublic)
            && (result != Ok(true) ==> after == clients)
  {
  }

  /** A claim that wins sets the owner, and deactivates exactly the user's active clients of the same name, none if the name is empty. */
  lemma ClaimWrites(clients: Clients, client: string, user: string, other: string)
    requires Claim(clients, client, user).1 == Ok(true) && other in clients
    ensures var after, name := Claim(clients, client, user).0, clients[client].name;
            && after.Keys == clients.Keys
            && after[client] == clients[client].(owner := Some(user))
            && (other != client ==>
                  after[other] == if name != "" && clients[other].owner == Some(user) && clients[other].name == name
                                  then clients[other].(active := false) else clients[other])
  {
  }
}
