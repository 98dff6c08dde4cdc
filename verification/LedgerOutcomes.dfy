/**
 What each handler of the Ledger leaves in the tables and replies, case by case, and the refund of a
 checkout through the payment intent the checkout stored.
 */
module LedgerOutcomes {
  import opened Prelude
  import opened Users
  import opened Ledger
  import ResolveUser

  /** One balance moves by the amount; nothing else in the users table changes. */
  ghost predicate Moves(before: UserTable, after: UserTable, user: string, amount: real) {
    && user in before && after.Keys == before.Keys
    && (forall u :: u in before && u != user ==> after[u] == before[u])
    && after[user] == before[user].(balance := before[user].balance + amount)
  }

  ghost predicate AddsLog(before: Books, after: Books, requestId: string, log: Log) {
    && requestId in after.logs && after.logs[requestId] == log && after.logs.Keys == before.logs.Keys + {requestId}
    && forall r :: r in before.logs && r != requestId ==> after.logs[r] == before.logs[r]
  }

  /** A repeated request id charges nothing and answers the present balance; a fresh one is charged and logged once. */
  lemma DebitOutcome(b: Books, user: string, requestId: string, charge: real)
    ensures var (after, reply) := Handle(b, Debit(user, requestId, charge));
            && after.topups == b.topups
            && (requestId in b.logs ==>
                  after == b && reply == Answer(if user in b.users then b.users[user].balance else 0.0, 0.0, true))
            && (requestId !in b.logs && charge > 0.0 && user !in b.users ==> after == b && reply == Refused)
            && (requestId !in b.logs && charge > 0.0 && user in b.users ==>
                  && Moves(b.users, after.users, user, -charge) && AddsLog(b, after, requestId, Debited(user, charge))
                  && reply == Answer(b.users[user].balance - charge, charge, false))
            && (requestId !in b.logs && charge <= 0.0 ==>
                  after.users == b.users && AddsLog(b, after, requestId, Debited(user, charge)) && reply == Answer(0.0, charge, false))
  {
  }

  /** A grant resolves its identity first; then a repeated id grants nothing, and a fresh one is credited and logged. */
  lemma GrantOutcome(b: Books, sid: string, email: string, newId: string, amount: real, requestId: string)
    requires Constraints(b.users)
    ensures var (users, who) := ResolveUser.Resolve(b.users, sid, email, newId);
            var (after, reply) := Handle(b, Grant(sid, email, newId, amount, requestId));
            && after.topups == b.topups
            && (who.Err? ==> after.users == users && after.logs == b.logs && reply == Refused)
            && (who.Ok? ==>
                  && who.value in users
                  && (requestId in b.logs ==>
                        && after.users == users && after.logs == b.logs
                        && reply == Answer(users[who.value].balance, 0.0, true))
                  && (requestId !in b.logs ==>
                        && Moves(users, after.users, who.value, amount) && AddsLog(b, after, requestId, Granted(who.value, amount))
                        && reply == Answer(users[who.value].balance + amount, amount, false)))
  {
    ResolveUser.ResolveKeepsTable(b.users, sid, email, newId);
  }

  /** One row changes its status; nothing else in the top-up table changes. */
  ghost predicate Marks(before: Topups, after: Topups, id: string, status: Status) {
    && id in before && after.Keys == before.Keys
    && (forall t :: t in before && t != id ==> after[t] == before[t])
    && after[id] == before[id].(status := status)
  }

  /** Only a pending request with a wallet is credited and approved. */
  lemma ApprovalOutcome(b: Books, id: string)
    ensures var (after, reply) := Handle(b, ApproveTopup(id));
            && after.logs == b.logs
            && (id !in b.topups ==> after == b && reply == Refused)
            && (id in b.topups && b.topups[id].status != Status.Pending ==> after == b && reply == AlreadyDone)
            && (id in b.topups && b.topups[id].status == Status.Pending ==>
                  if b.topups[id].user !in b.users then after == b && reply == Refused
                  else
                    && Moves(b.users, after.users, b.topups[id].user, b.topups[id].amount)
                    && Marks(b.topups, after.topups, id, Status.Approved) && reply == Done)
  {
  }

  /** Telegram rejects a pending request only; the admin page rejects any. */
  lemma RejectionOutcome(b: Books, id: string)
    ensures var (after, reply) := Handle(b, Op.RejectTopup(id));
            && after.users == b.users && after.logs == b.logs
            && (id !in b.topups ==> after == b && reply == Refused)
            && (id in b.topups && b.topups[id].status != Status.Pending ==> after == b && reply == AlreadyDone)
            && (id in b.topups && b.topups[id].status == Status.Pending ==>
                  Marks(b.topups, after.topups, id, Status.Rejected) && reply == Done)
    ensures var (after, reply) := Handle(b, Op.AdminRejectTopup(id));
            && after.users == b.users && after.logs == b.logs && reply == Done
            && (if id in b.topups then Marks(b.topups, after.topups, id, Status.Rejected) else after == b)
  {
  }

  /** A new row, and nothing else in the top-up table. */
  ghost predicate Inserts(before: Topups, after: Topups, id: string, row: Topup) {
    && id in after && after[id] == row && after.Keys == before.Keys + {id}
    && forall t :: t in before && t != id ==> after[t] == before[t]
  }

  lemma RequestOutcome(b: Books, user: string, id: string, amount: real)
    ensures var (after, reply) := Handle(b, RequestTopup(user, id, amount));
            if user in b.users then
              && after.users == b.users && after.logs == b.logs && reply == Done
              && Inserts(b.topups, after.topups, id, Topup(user, amount, Status.Pending, None, None))
            else after == b && reply == Refused
  {
  }

  ghost predicate SessionStored(topups: Topups, session: string) {
    exists t :: t in topups && topups[t].session == Some(session)
  }

  /**
   A checkout is credited and stored, with its session and payment intent, unless its session is stored
   already, or payer or amount is missing.
   */
  lemma CheckoutOutcome(b: Books, session: string, payer: Option<string>, amount: real, intent: Option<string>, id: string)
    ensures var (after, reply) := Handle(b, StripeCompleted(session, payer, amount, intent, id));
            && after.logs == b.logs
            && (SessionStored(b.topups, session) ==> after == b && reply == AlreadyDone)
            && (!SessionStored(b.topups, session) ==>
                  if payer.Some? && payer.value != "" && payer.value in b.users && amount > 0.0 then
                    && Moves(b.users, after.users, payer.value, amount) && reply == Done
                    && Inserts(b.topups, after.topups, id,
                               Topup(payer.value, amount, AutoApproved, Some(session), if intent == Some("") then None else intent))
                  else after == b && reply == Refused)
  {
  }

  /** The signup grant is made once, to a user without the mark, of a pack with credits. */
  lemma SignupOutcome(b: Books, user: string, pack: Option<real>)
    ensures var (after, reply) := Handle(b, SignupGrant(user, pack));
            && after.topups == b.topups && after.logs == b.logs
            && if user in b.users && !b.users[user].signupGranted && pack.Some? && pack.value > 0.0 then
                 && after.users == b.users[user := after.users[user]] && reply == Done
                 && after.users[user] == b.users[user].(balance := b.users[user].balance + pack.value, signupGranted := true)
               else after == b && reply == Refused
  {
  }

  /** A gateway call is charged unless it failed or costs nothing, and an admin's credit reaches an existing user. */
  lemma ChargeOutcome(b: Books, user: string, charge: real, isError: bool)
    ensures var (after, reply) := Handle(b, GatewayCharge(user, charge, isError));
            && reply == Done
            && if !isError && charge > 0.0 && user in b.users then
                 Moves(b.users, after.users, user, -charge) && after.topups == b.topups && after.logs == b.logs
               else after == b
    ensures var (after, reply) := Handle(b, AdminCredit(user, charge));
            if user in b.users then
              Moves(b.users, after.users, user, charge) && after.topups == b.topups && after.logs == b.logs && reply == Done
            else after == b && reply == Refused
  {
  }

  /** An account is created unless its email is taken: active only once set up, without a Supabase id or grant. */
  lemma CreationOutcome(b: Books, id: string, email: string, balance: real)
    ensures var (after, reply) := Handle(b, CreateUser(id, email, balance));
            && after.topups == b.topups && after.logs == b.logs
            && if id in b.users || exists u :: u in b.users && b.users[u].email == email then after == b && reply == Refused
               else
                 && reply == Done && after.users.Keys == b.users.Keys + {id}
                 && (forall u :: u in b.users ==> after.users[u] == b.users[u])
                 && after.users[id] == UserRow(email, None, false, balance, false)
  {
  }

  // ---------------------------------------------------------------------------------------------
  // A refund through its payment intent
  // ---------------------------------------------------------------------------------------------

  /** What the lookup of a refund event may answer: some row with that payment intent, or none if there is none. */
  ghost predicate LooksUp(topups: Topups, intent: string, found: Option<string>) {
    match found
    case Some(id) => id in topups && topups[id].intent == Some(intent)
    case None => forall id :: id in topups ==> topups[id].intent != Some(intent)
  }

  /**
   A checkout that was credited is found again by its payment intent, if no other row has it, and the
   refund takes back exactly what the checkout gave; the row stays.
   */
  lemma RefundUndoesCheckout(b: Books, session: string, payer: string, amount: real, intent: string, id: string, found: Option<string>)
    requires Handle(b, StripeCompleted(session, Some(payer), amount, Some(intent), id)).1 == Done
    requires id !in b.topups && intent != "" && LooksUp(b.topups, intent, None)
    requires LooksUp(Handle(b, StripeCompleted(session, Some(payer), amount, Some(intent), id)).0.topups, intent, found)
    ensures found == Some(id)
    ensures var paid := Handle(b, StripeCompleted(session, Some(payer), amount, Some(intent), id)).0;
            var (after, reply) := Handle(paid, StripeRefunded(found));
            after.users == b.users && after.topups == paid.topups && after.logs == b.logs && reply == Done
  {
    CheckoutOutcome(b, session, Some(payer), amount, Some(intent), id);
    var paid := Handle(b, StripeCompleted(session, Some(payer), amount, Some(intent), id)).0;
    assert paid.topups[id].intent == Some(intent);
    assert Handle(paid, StripeRefunded(found)).0.users == b.users;
  }

  /** A checkout without a payment intent is never found by one: the column stays empty. */
  lemma NoIntentNoRefund(b: Books, session: string, payer: string, amount: real, id: string, intent: string)
    requires Handle(b, StripeCompleted(session, Some(payer), amount, Some(""), id)).1 == Done
    requires id !in b.topups && LooksUp(b.topups, intent, None)
    ensures LooksUp(Handle(b, StripeCompleted(session, Some(payer), amount, Some(""), id)).0.topups, intent, None)
  {
  }

  /** A refund that finds nothing changes nothing; one that finds a row takes its whole amount from its user. */
  lemma RefundOutcome(b: Books, found: Option<string>)
    ensures var (after, reply) := Handle(b, StripeRefunded(found));
            && after.topups == b.topups && after.logs == b.logs
            && (found.None? || found.value !in b.topups ==> after == b && reply == Refused)
            && (found.Some? && found.value in b.topups ==>
                  && reply == Done
                  && if b.topups[found.value].user in b.users then
                       Moves(b.users, after.users, b.topups[found.value].user, -b.topups[found.value].amount)
                     else after.users == b.users)
  {
  }

  /** Resolving an identity touches the users only. */
  lemma ResolutionOutcome(b: Books, sid: string, email: string, newId: string)
    ensures var (after, reply) := Handle(b, Resolve(sid, email, newId));
            && after.users == ResolveUser.Resolve(b.users, sid, email, newId).0 && after.topups == b.topups && after.logs == b.logs
            && reply == if ResolveUser.Resolve(b.users, sid, email, newId).1.Ok? then Done else Refused
  {
  }
}
