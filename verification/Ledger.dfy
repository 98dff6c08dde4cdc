/**
 Every handler that moves credits, run as a whole with writes that succeed: manual top-ups, the Stripe
 webhook, the debit and grant APIs, the signup grant, gateway settlement and the admin's credit form.

 The usage log is kept as the rows that carry a request id; rows without one decide nothing.  Stripe's
 refund lookup may return any row of the payment intent.
 */
module Ledger {
  import opened Prelude
  import opened Users
  import ResolveUser

  datatype Status = Pending | Approved | Rejected | AutoApproved

  datatype Topup = Topup(user: string, amount: real, status: Status, session: Option<string>, intent: Option<string>)

  datatype Log = Debited(user: string, charge: real) | Granted(user: string, amount: real)

  type Topups = map<string, Topup>
  type Logs = map<string, Log>

  datatype Books = Books(users: UserTable, topups: Topups, logs: Logs)

  datatype Op =
    | CreateUser(id: string, email: string, balance: real)
    | Resolve(sid: string, email: string, newId: string)
    | RequestTopup(user: string, id: string, amount: real)
    | ApproveTopup(id: string)
    | RejectTopup(id: string)                                 // Telegram
    | AdminRejectTopup(id: string)                            // admin page
    | Debit(user: string, requestId: string, charge: real)
    | Grant(sid: string, email: string, newId: string, amount: real, requestId: string)
    | StripeCompleted(session: string, payer: Option<string>, amount: real, intent: Option<string>, id: string)
    | StripeRefunded(found: Option<string>)                   // the top-up row the lookup by payment intent returns
    | SignupGrant(user: string, pack: Option<real>)
    | GatewayCharge(user: string, charge: real, isError: bool)
    | AdminCredit(user: string, amount: real)

  datatype Reply =
    | Done
    | AlreadyDone
    | Refused                                                 // an error, or an event that is ignored
    | Answer(balance: real, amount: real, idempotent: bool)   // of the debit and grant APIs

  function BalanceOf(users: UserTable, user: string): real {
    if user in users then users[user].balance else 0.0
  }

  /** The credit and settle RPCs, and the read-then-write updates: no row, no change. */
  function Adjust(users: UserTable, user: string, amount: real): UserTable {
    if user in users then users[user := users[user].(balance := users[user].balance + amount)] else users
  }

  predicate EmailTaken(users: UserTable, email: string) {
    exists id :: id in users && users[id].email == email
  }

  predicate SessionRecorded(topups: Topups, session: string) {
    exists id :: id in topups && topups[id].session == Some(session)
  }

  function SetStatus(topups: Topups, id: string, status: Status): Topups {
    if id in topups then topups[id := topups[id].(status := status)] else topups
  }

  // ---------------------------------------------------------------------------------------------
  // The handlers
  // ---------------------------------------------------------------------------------------------

  function Approve(b: Books, id: string): (Books, Reply) {
    if id !in b.topups then (b, Refused)
    else if !b.topups[id].status.Pending? then (b, AlreadyDone)
    else if b.topups[id].user !in b.users then (b, Refused)
    else
      (b.(users := Adjust(b.users, b.topups[id].user, b.topups[id].amount),
          topups := SetStatus(b.topups, id, Status.Approved)), Done)
  }

  function DebitOnce(b: Books, user: string, requestId: string, charge: real): (Books, Reply) {
    if requestId in b.logs then (b, Answer(BalanceOf(b.users, user), 0.0, true))
    else if charge > 0.0 then
      if user !in b.users then (b, Refused)
      else
        (b.(users := Adjust(b.users, user, -charge), logs := b.logs[requestId := Debited(user, charge)]),
         Answer(b.users[user].balance - charge, charge, false))
    else
      (b.(logs := b.logs[requestId := Debited(user, charge)]), Answer(0.0, charge, false))
  }

  ghost function GrantOnce(b: Books, sid: string, email: string, newId: string, amount: real, requestId: string): (Books, Reply) {
    var (users, who) := ResolveUser.Resolve(b.users, sid, email, newId);
    if who.Err? then (b.(users := users), Refused)
    else if requestId in b.logs then (b.(users := users), Answer(BalanceOf(users, who.value), 0.0, true))
    else
      (b.(users := Adjust(users, who.value, amount), logs := b.logs[requestId := Granted(who.value, amount)]),
       Answer(BalanceOf(Adjust(users, who.value, amount), who.value), amount, false))
  }

  function Complete(b: Books, session: string, payer: Option<string>, amount: real, intent: Option<string>, id: string): (Books, Reply) {
    if SessionRecorded(b.topups, session) then (b, AlreadyDone)
    else if payer.None? || payer.value == "" || amount <= 0.0 then (b, Refused)
    else if payer.value !in b.users then (b, Refused)
    else
      (b.(users := Adjust(b.users, payer.value, amount),
          topups := b.topups[id := Topup(payer.value, amount, AutoApproved, Some(session),
                                         if intent == Some("") then None else intent)]), Done)
  }

  function Signup(b: Books, user: string, pack: Option<real>): (Books, Reply) {
    if user !in b.users || b.users[user].signupGranted || pack.None? || pack.value <= 0.0 then (b, Refused)
    else
      (b.(users := b.users[user := b.users[user].(balance := b.users[user].balance + pack.value, signupGranted := true)]), Done)
  }

  ghost function Handle(b: Books, op: Op): (Books, Reply) {
    match op
    case CreateUser(id, email, balance) =>
      if EmailTaken(b.users, email) || id in b.users then (b, Refused)
      else (b.(users := b.users[id := UserRow(email, None, false, balance, false)]), Done)
    case Resolve(sid, email, newId) =>
      var (users, who) := ResolveUser.Resolve(b.users, sid, email, newId);
      (b.(users := users), if who.Ok? then Done else Refused)
    case RequestTopup(user, id, amount) =>
      if user !in b.users then (b, Refused)
      else (b.(topups := b.topups[id := Topup(user, amount, Pending, None, None)]), Done)
    case ApproveTopup(id) => Approve(b, id)
    case RejectTopup(id) =>
      if id !in b.topups then (b, Refused)
      else if !b.topups[id].status.Pending? then (b, AlreadyDone)
      else (b.(topups := SetStatus(b.topups, id, Rejected)), Done)
    case AdminRejectTopup(id) => (b.(topups := SetStatus(b.topups, id, Rejected)), Done)
    case Debit(user, requestId, charge) => DebitOnce(b, user, requestId, charge)
    case Grant(sid, email, newId, amount, requestId) => GrantOnce(b, sid, email, newId, amount, requestId)
    case StripeCompleted(session, payer, amount, intent, id) => Complete(b, session, payer, amount, intent, id)
    case StripeRefunded(found) =>
      if found.None? || found.value !in b.topups then (b, Refused)
      else (b.(users := Adjust(b.users, b.topups[found.value].user, -b.topups[found.value].amount)), Done)
    case SignupGrant(user, pack) => Signup(b, user, pack)
    case GatewayCharge(user, charge, isError) =>
      (if isError || charge <= 0.0 then b else b.(users := Adjust(b.users, user, -charge)), Done)
    case AdminCredit(user, amount) =>
      if user !in b.users then (b, Refused) else (b.(users := Adjust(b.users, user, amount)), Done)
  }

  // ---------------------------------------------------------------------------------------------
  // The handlers, statement by statement
  // ---------------------------------------------------------------------------------------------

  class Wallets {
    const directory: ResolveUser.UserDirectory
    var topups: Topups
    var logs: Logs

    constructor (directory: ResolveUser.UserDirectory)
      ensures this.directory == directory && topups == map[] && logs == map[]
    {
      this.directory, topups, logs := directory, map[], map[];
    }

    ghost function View(): Books
      reads this, directory
    {
      Books(directory.users, topups, logs)
    }

    /** The settle RPC: status ok without a balance when there is nothing to settle. */
    method Settle(user: string, amount: real) returns (ok: bool, balance: Option<real>)
      modifies directory
      ensures directory.users == if amount <= 0.0 then old(directory.users) else Adjust(old(directory.users), user, -amount)
      ensures ok <==> amount <= 0.0 || user in old(directory.users)
      ensures balance == if ok && amount > 0.0 then Some(directory.users[user].balance) else None
    {
      if amount <= 0.0 {
        return true, None;
      }
      if user !in directory.users {
        return false, None;
      }
      var row := directory.users[user];
      directory.users := directory.users[user := row.(balance := row.balance - amount)];
      return true, Some(row.balance - amount);
    }

    method PostDebit(user: string, requestId: string, charge: real) returns (reply: Reply)
      modifies this, directory
      ensures (View(), reply) == DebitOnce(old(View()), user, requestId, charge)
    {
      if requestId in logs {
        return Answer(BalanceOf(directory.users, user), 0.0, true);
      }
      var ok, balance := Settle(user, charge);
      if !ok {
        return Refused;
      }
      logs := logs[requestId := Debited(user, charge)];
      return Answer(if balance.Some? then balance.value else 0.0, charge, false);
    }

    method GrantCredits(sid: string, email: string, newId: string, amount: real, requestId: string) returns (reply: Reply)
      requires Constraints(directory.users)
      modifies this, directory
      ensures (View(), reply) == GrantOnce(old(View()), sid, email, newId, amount, requestId)
    {
      var who := directory.ResolveOrCreate(sid, email, newId);
      if who.Err? {
        return Refused;
      }
      if requestId in logs {
        return Answer(BalanceOf(directory.users, who.value), 0.0, true);
      }
      directory.users := Adjust(directory.users, who.value, amount);
      logs := logs[requestId := Granted(who.value, amount)];
      return Answer(BalanceOf(directory.users, who.value), amount, false);
    }

    method ApproveTopup(id: string) returns (reply: Reply)
      modifies this, directory
      ensures (View(), reply) == Approve(old(View()), id)
    {
      if id !in topups {
        return Refused;
      }
      var row := topups[id];
      if !row.status.Pending? {
        return AlreadyDone;
      }
      if row.user !in directory.users {
        return Refused;
      }
      var current := directory.users[row.user].balance;
      directory.users := directory.users[row.user := directory.users[row.user].(balance := current + row.amount)];
      topups := topups[id := row.(status := Status.Approved)];
      return Done;
    }

    method RejectTopup(id: string) returns (reply: Reply)
      modifies this
      ensures (View(), reply) == Handle(old(View()), Op.RejectTopup(id))
    {
      if id !in topups {
        return Refused;
      }
      if !topups[id].status.Pending? {
        return AlreadyDone;
      }
      topups := topups[id := topups[id].(status := Rejected)];
      return Done;
    }

    method AdminRejectTopup(id: string)
      modifies this
      ensures View() == Handle(old(View()), Op.AdminRejectTopup(id)).0
    {
      if id in topups {
        topups := topups[id := topups[id].(status := Rejected)];
      }
    }

    method CheckoutCompleted(session: string, payer: Option<string>, amount: real, intent: Option<string>, id: string) returns (reply: Reply)
      modifies this, directory
      ensures (View(), reply) == Complete(old(View()), session, payer, amount, intent, id)
    {
      if SessionRecorded(topups, session) {
        return AlreadyDone;
      }
      if payer.None? || payer.value == "" || amount <= 0.0 {
        return Refused;
      }
      if payer.value !in directory.users {
        return Refused;
      }
      directory.users := Adjust(directory.users, payer.value, amount);
      topups := topups[id := Topup(payer.value, amount, AutoApproved, Some(session), if intent == Some("") then None else intent)];
      return Done;
    }

    /** `found` answers the select by payment intent. */
    method ChargeRefunded(found: Option<string>) returns (reply: Reply)
      modifies directory
      ensures (View(), reply) == Handle(old(View()), StripeRefunded(found))
    {
      if found.None? || found.value !in topups {
        return Refused;
      }
      directory.users := Adjust(directory.users, topups[found.value].user, -topups[found.value].amount);
      return Done;
    }

    method ApplySignupGrant(user: string, pack: Option<real>) returns (granted: real)
      modifies directory
      ensures View() == Signup(old(View()), user, pack).0
      ensures granted == if Signup(old(View()), user, pack).1.Done? then pack.value else 0.0
    {
      if user !in directory.users {
        return 0.0;
      }
      var row := directory.users[user];
      if row.signupGranted {
        return 0.0;
      }
      if pack.None? || pack.value <= 0.0 {
        return 0.0;
      }
      directory.users := directory.users[user := row.(balance := row.balance + pack.value, signupGranted := true)];
      return pack.value;
    }
  }

  /** A fresh debit reports the true balance if and only if something was charged or the balance is zero. */
  lemma ReportedBalanceIsTrueIff(b: Books, user: string, requestId: string, charge: real)
    requires user in b.users && requestId !in b.logs
    ensures var (after, reply) := DebitOnce(b, user, requestId, charge);
            reply.Answer? && (reply.balance == after.users[user].balance <==> charge > 0.0 || b.users[user].balance == 0.0)
  {
  }
}
