/**
 Conservation over every serial run of the Ledger's handlers: balances are explained by a journal of
 effects, and the journal by the rows of the tables.
 */
module LedgerRuns {
  import opened Prelude
  import opened Users
  import ResolveUser
  import opened Ledger

  /** Why a balance moved. */
  datatype Cause =
    | TopupRequest(id: string)
    | StripeSession(session: string)
    | Refund(id: string)
    | Signup(user: string)
    | RequestKey(requestId: string)
    | GatewaySettlement
    | AdminForm

  datatype Entry = Entry(user: string, amount: real, cause: Cause)

  /** The effect a call is meant to have on wallets: at most one entry. */
  ghost function Effect(b: Books, op: Op): Option<Entry> {
    match op
    case ApproveTopup(id) =>
      if id in b.topups && b.topups[id].status.Pending? && b.topups[id].user in b.users
      then Some(Entry(b.topups[id].user, b.topups[id].amount, TopupRequest(id))) else None
    case Debit(user, requestId, charge) =>
      if requestId !in b.logs && charge > 0.0 && user in b.users then Some(Entry(user, -charge, RequestKey(requestId))) else None
    case Grant(sid, email, newId, amount, requestId) =>
      var who := ResolveUser.Resolve(b.users, sid, email, newId).1;
      if who.Ok? && requestId !in b.logs then Some(Entry(who.value, amount, RequestKey(requestId))) else None
    case StripeCompleted(session, payer, amount, _, _) =>
      if !SessionRecorded(b.topups, session) && payer.Some? && payer.value != "" && payer.value in b.users && amount > 0.0
      then Some(Entry(payer.value, amount, StripeSession(session))) else None
    case StripeRefunded(found) =>
      if found.Some? && found.value in b.topups && b.topups[found.value].user in b.users
      then Some(Entry(b.topups[found.value].user, -b.topups[found.value].amount, Refund(found.value))) else None
    case SignupGrant(user, pack) =>
      if user in b.users && !b.users[user].signupGranted && pack.Some? && pack.value > 0.0
      then Some(Entry(user, pack.value, Signup(user))) else None
    case GatewayCharge(user, charge, isError) =>
      if !isError && charge > 0.0 && user in b.users then Some(Entry(user, -charge, GatewaySettlement)) else None
    case AdminCredit(user, amount) => if user in b.users then Some(Entry(user, amount, AdminForm)) else None
    case _ => None
  }

  function Post(journal: seq<Entry>, e: Option<Entry>): seq<Entry> {
    if e.Some? then journal + [e.value] else journal
  }

  function Share(e: Entry, user: string): real {
    if e.user == user then e.amount else 0.0
  }

  /** The sum of a user's entries. */
  function Total(journal: seq<Entry>, user: string): real {
    if journal == [] then 0.0
    else Total(journal[..|journal| - 1], user) + Share(journal[|journal| - 1], user)
  }

  /** How often a cause has taken effect. */
  function Times(journal: seq<Entry>, cause: Cause): nat {
    if journal == [] then 0
    else Times(journal[..|journal| - 1], cause) + if journal[|journal| - 1].cause == cause then 1 else 0
  }

  /** The entry a call makes has this cause. */
  predicate Hits(e: Option<Entry>, cause: Cause) {
    e.Some? && e.value.cause == cause
  }

  lemma PostAdds(journal: seq<Entry>, e: Option<Entry>, user: string, cause: Cause)
    ensures Total(Post(journal, e), user) == Total(journal, user) + if e.Some? then Share(e.value, user) else 0.0
    ensures Times(Post(journal, e), cause) == Times(journal, cause) + if Hits(e, cause) then 1 else 0
  {
    if e.Some? {
      assert (journal + [e.value])[..|journal + [e.value]| - 1] == journal;
    }
  }

  /** What a row held when it came into being. */
  datatype Opening = Opening(balance: real, granted: bool)

  datatype State = State(books: Books, opening: map<string, Opening>, journal: seq<Entry>)

  /** Opening records of the rows a call creates: those of create_user, and new identities with nothing. */
  ghost function Opened(b: Books, op: Op): map<string, Opening> {
    map id | id in Handle(b, op).0.users && id !in b.users ::
      Opening(if op.CreateUser? then op.balance else 0.0, false)
  }

  /** Generated ids are new; a grant has a positive amount and a key (the request model rejects others). */
  ghost predicate Enabled(b: Books, op: Op) {
    && (op.RequestTopup? || op.StripeCompleted? ==> op.id !in b.topups)
    && (op.Grant? ==> op.amount > 0.0 && op.requestId != "")
  }

  ghost function Step(s: State, op: Op): State {
    if !Enabled(s.books, op) then s
    else State(Handle(s.books, op).0, s.opening + Opened(s.books, op), Post(s.journal, Effect(s.books, op)))
  }

  ghost function Run(s: State, ops: seq<Op>): State {
    if ops == [] then s else Step(Run(s, ops[..|ops| - 1]), ops[|ops| - 1])
  }

  /** Every call happens: a grant with an amount and a key, a request or a checkout under a new id, and any other. */
  lemma EveryCallHappens(s: State, op: Op)
    requires op.Grant? ==> op.amount > 0.0 && op.requestId != ""
    requires op.RequestTopup? || op.StripeCompleted? ==> op.id !in s.books.topups
    ensures Step(s, op).books == Handle(s.books, op).0
    ensures Step(s, op).journal == match Effect(s.books, op) case Some(e) => s.journal + [e] case None => s.journal
  {
  }

  /** Any users table with its indexes; no top-up, log or journal entry yet. */
  ghost predicate Init(s: State) {
    && Constraints(s.books.users) && s.books.topups == map[] && s.books.logs == map[] && s.journal == []
    && s.opening == map u | u in s.books.users :: Opening(s.books.users[u].balance, s.books.users[u].signupGranted)
  }

  // ---------------------------------------------------------------------------------------------
  // Each call
  // ---------------------------------------------------------------------------------------------

  lemma AdjustKeepsConstraints(users: UserTable, user: string, amount: real)
    requires Constraints(users)
    ensures Constraints(Adjust(users, user, amount))
  {
  }

  lemma CreationKeepsConstraints(b: Books, op: Op)
    requires Constraints(b.users) && op.CreateUser?
    ensures Constraints(Handle(b, op).0.users)
  {
  }

  lemma SignupKeepsConstraints(b: Books, op: Op)
    requires Constraints(b.users) && op.SignupGrant?
    ensures Constraints(Handle(b, op).0.users)
  {
  }

  lemma GrantKeepsConstraints(b: Books, op: Op)
    requires Constraints(b.users) && op.Grant?
    ensures Constraints(Handle(b, op).0.users)
  {
    ResolveUser.ResolveKeepsTable(b.users, op.sid, op.email, op.newId);
    var (users, who) := ResolveUser.Resolve(b.users, op.sid, op.email, op.newId);
    if who.Ok? {
      AdjustKeepsConstraints(users, who.value, op.amount);
    }
  }

  lemma HandleKeepsConstraints(b: Books, op: Op)
    requires Constraints(b.users)
    ensures Constraints(Handle(b, op).0.users)
  {
    match op
    case CreateUser(_, _, _) => CreationKeepsConstraints(b, op);
    case Resolve(sid, email, newId) => ResolveUser.ResolveKeepsTable(b.users, sid, email, newId);
    case SignupGrant(_, _) => SignupKeepsConstraints(b, op);
    case Grant(_, _, _, _, _) => GrantKeepsConstraints(b, op);
    case ApproveTopup(id) =>
      if id in b.topups { AdjustKeepsConstraints(b.users, b.topups[id].user, b.topups[id].amount); }
    case Debit(user, _, charge) => AdjustKeepsConstraints(b.users, user, -charge);
    case StripeCompleted(_, payer, amount, _, _) =>
      if payer.Some? { AdjustKeepsConstraints(b.users, payer.value, amount); }
    case StripeRefunded(found) =>
      if found.Some? && found.value in b.topups {
        AdjustKeepsConstraints(b.users, b.topups[found.value].user, -b.topups[found.value].amount);
      }
    case GatewayCharge(user, charge, _) => AdjustKeepsConstraints(b.users, user, -charge);
    case AdminCredit(user, amount) => AdjustKeepsConstraints(b.users, user, amount);
    case _ =>
  }

  /** What one entry adds to a user. */
  function Moved(e: Option<Entry>, user: string): real {
    if e.Some? then Share(e.value, user) else 0.0
  }

  lemma ResolveCreatesEmpty(users: UserTable, sid: string, email: string, newId: string, user: string)
    requires Constraints(users) && user in ResolveUser.Resolve(users, sid, email, newId).0
    ensures var after := ResolveUser.Resolve(users, sid, email, newId).0;
            && after[user].balance == BalanceOf(users, user)
            && after[user].signupGranted == (user in users && users[user].signupGranted)
  {
    ResolveUser.ResolveKeepsTable(users, sid, email, newId);
  }

  /** A call moves each balance by exactly its effect, and no row disappears. */
  lemma HandleMovesEffect(b: Books, op: Op, user: string)
    requires Constraints(b.users) && user in Handle(b, op).0.users
    ensures var after := Handle(b, op).0.users;
            after[user].balance
            == (if user in b.users then b.users[user].balance else Opened(b, op)[user].balance) + Moved(Effect(b, op), user)
  {
    match op
    case CreateUser(_, _, _) =>
    case Resolve(sid, email, newId) => ResolveCreatesEmpty(b.users, sid, email, newId, user);
    case Grant(_, _, _, _, _) => GrantMovesEffect(b, op, user);
    case SignupGrant(_, _) => SignupMovesEffect(b, op, user);
    case ApproveTopup(_) => TopupMovesEffect(b, op, user);
    case StripeCompleted(_, _, _, _, _) => TopupMovesEffect(b, op, user);
    case StripeRefunded(_) => TopupMovesEffect(b, op, user);
    case _ => ChargeMovesEffect(b, op, user);
  }

  lemma SignupMovesEffect(b: Books, op: Op, user: string)
    requires op.SignupGrant? && user in Handle(b, op).0.users
    ensures user in b.users && Handle(b, op).0.users[user].balance == b.users[user].balance + Moved(Effect(b, op), user)
  {
  }

  lemma TopupMovesEffect(b: Books, op: Op, user: string)
    requires (op.ApproveTopup? || op.StripeCompleted? || op.StripeRefunded?) && user in Handle(b, op).0.users
    ensures user in b.users && Handle(b, op).0.users[user].balance == b.users[user].balance + Moved(Effect(b, op), user)
  {
  }

  lemma ChargeMovesEffect(b: Books, op: Op, user: string)
    requires !op.CreateUser? && !op.Resolve? && !op.Grant? && !op.SignupGrant?
    requires !op.ApproveTopup? && !op.StripeCompleted? && !op.StripeRefunded? && user in Handle(b, op).0.users
    ensures user in b.users && Handle(b, op).0.users[user].balance == b.users[user].balance + Moved(Effect(b, op), user)
  {
  }

  lemma GrantMovesEffect(b: Books, op: Op, user: string)
    requires Constraints(b.users) && op.Grant? && user in Handle(b, op).0.users
    ensures Handle(b, op).0.users[user].balance == BalanceOf(b.users, user) + Moved(Effect(b, op), user)
  {
    var users := ResolveUser.Resolve(b.users, op.sid, op.email, op.newId).0;
    ResolveUser.ResolveKeepsTable(b.users, op.sid, op.email, op.newId);
    ResolveCreatesEmpty(b.users, op.sid, op.email, op.newId, user);
  }

  lemma HandleKeepsRows(b: Books, op: Op, user: string)
    requires Constraints(b.users) && user in b.users
    ensures user in Handle(b, op).0.users
  {
    if op.Resolve? || op.Grant? {
      ResolveUser.ResolveKeepsTable(b.users, op.sid, op.email, op.newId);
    }
  }

  // ---------------------------------------------------------------------------------------------
  // Balances
  // ---------------------------------------------------------------------------------------------

  lemma {:induction false} RunKeepsConstraints(s: State, ops: seq<Op>)
    requires Init(s)
    ensures Constraints(Run(s, ops).books.users) && Run(s, ops).opening.Keys == Run(s, ops).books.users.Keys
  {
    if ops != [] {
      var m, op := Run(s, ops[..|ops| - 1]), ops[|ops| - 1];
      RunKeepsConstraints(s, ops[..|ops| - 1]);
      HandleKeepsConstraints(m.books, op);
      forall user | user in m.books.users ensures user in Handle(m.books, op).0.users {
        HandleKeepsRows(m.books, op, user);
      }
    }
  }

  /** Every balance is what the row opened with plus the sum of its journal entries. */
  lemma {:induction false} BalanceIsOpeningPlusJournal(s: State, ops: seq<Op>, user: string)
    requires Init(s)
    ensures var t := Run(s, ops);
            user in t.books.users ==> user in t.opening
                                      && t.books.users[user].balance == t.opening[user].balance + Total(t.journal, user)
    ensures user !in Run(s, ops).books.users ==> Total(Run(s, ops).journal, user) == 0.0
  {
    if ops != [] {
      var before, op := ops[..|ops| - 1], ops[|ops| - 1];
      var m := Run(s, before);
      BalanceIsOpeningPlusJournal(s, before, user);
      RunKeepsConstraints(s, before);
      PostAdds(m.journal, Effect(m.books, op), user, AdminForm);
      if user in Handle(m.books, op).0.users {
        HandleMovesEffect(m.books, op, user);
      } else {
        EffectHasWallet(m.books, op, user);
      }
      if user in m.books.users {
        HandleKeepsRows(m.books, op, user);
      }
    }
  }

  lemma EffectHasWallet(b: Books, op: Op, user: string)
    requires Constraints(b.users) && user !in Handle(b, op).0.users
    ensures user !in b.users && (Effect(b, op).Some? ==> Effect(b, op).value.user != user)
  {
    if user in b.users {
      HandleKeepsRows(b, op, user);
    }
    if op.Grant? {
      ResolveUser.ResolveKeepsTable(b.users, op.sid, op.email, op.newId);
    }
  }

  // ---------------------------------------------------------------------------------------------
  // Each cause takes effect at most once
  // ---------------------------------------------------------------------------------------------

  predicate Settled(status: Status) {
    status.Approved? || status.AutoApproved?
  }

  /** A request is credited at most once; an approved one has been, a pending one has not. */
  predicate TopupFits(topups: Topups, id: string, times: nat) {
    && times <= 1
    && (times == 1 ==> id in topups && topups[id].session.None? && (topups[id].status.Approved? || topups[id].status.Rejected?))
    && (id in topups && topups[id].status.Approved? ==> times == 1)
    && (id in topups && topups[id].status.AutoApproved? ==> topups[id].session.Some?)
    && (id in topups && topups[id].status.Pending? ==> topups[id].session.None?)
  }

  lemma HandleKeepsTopup(b: Books, op: Op, id: string, times: nat)
    requires Enabled(b, op) && TopupFits(b.topups, id, times)
    ensures TopupFits(Handle(b, op).0.topups, id, times + if Hits(Effect(b, op), TopupRequest(id)) then 1 else 0)
  {
    match op
    case RequestTopup(_, _, _) =>
    case ApproveTopup(_) =>
    case StripeCompleted(_, _, _, _, _) =>
    case RejectTopup(_) =>
    case AdminRejectTopup(_) =>
    case _ => OthersSpareTopups(b, op);
  }

  lemma OthersSpareTopups(b: Books, op: Op)
    requires !op.RequestTopup? && !op.ApproveTopup? && !op.StripeCompleted? && !op.RejectTopup? && !op.AdminRejectTopup?
    ensures Handle(b, op).0.topups == b.topups
    ensures Effect(b, op).Some? ==> !Effect(b, op).value.cause.TopupRequest?
  {
  }

  lemma StepKeepsTopup(s: State, op: Op, id: string)
    requires TopupFits(s.books.topups, id, Times(s.journal, TopupRequest(id)))
    ensures TopupFits(Step(s, op).books.topups, id, Times(Step(s, op).journal, TopupRequest(id)))
  {
    if Enabled(s.books, op) {
      PostAdds(s.journal, Effect(s.books, op), "", TopupRequest(id));
      HandleKeepsTopup(s.books, op, id, Times(s.journal, TopupRequest(id)));
    }
  }

  /** Approved twice, by Telegram and by an admin, or rejected in between: a request is credited at most once. */
  lemma {:induction false} TopupTakesEffectOnce(s: State, ops: seq<Op>, id: string)
    requires Init(s)
    ensures TopupFits(Run(s, ops).books.topups, id, Times(Run(s, ops).journal, TopupRequest(id)))
  {
    if ops != [] {
      TopupTakesEffectOnce(s, ops[..|ops| - 1], id);
      StepKeepsTopup(Run(s, ops[..|ops| - 1]), ops[|ops| - 1], id);
    }
  }

  /** Which sessions are on record changes with a completed checkout only. */
  lemma SessionsStay(b: Books, op: Op, session: string)
    requires Enabled(b, op)
    ensures SessionRecorded(Handle(b, op).0.topups, session) <==>
            SessionRecorded(b.topups, session)
            || Hits(Effect(b, op), StripeSession(session))
    ensures Hits(Effect(b, op), StripeSession(session)) ==> !SessionRecorded(b.topups, session)
  {
    var after := Handle(b, op).0.topups;
    forall id | id in b.topups ensures id in after && after[id].session == b.topups[id].session {
    }
    if op.StripeCompleted? && Effect(b, op).Some? {
      assert op.id in after && after[op.id].session == Some(op.session);
    }
  }

  /** Credited exactly when a row records it, and then once. */
  ghost predicate SessionFits(topups: Topups, session: string, times: nat) {
    times == if SessionRecorded(topups, session) then 1 else 0
  }

  lemma StepKeepsSession(s: State, op: Op, session: string)
    requires SessionFits(s.books.topups, session, Times(s.journal, StripeSession(session)))
    ensures SessionFits(Step(s, op).books.topups, session, Times(Step(s, op).journal, StripeSession(session)))
  {
    if Enabled(s.books, op) {
      PostAdds(s.journal, Effect(s.books, op), "", StripeSession(session));
      SessionsStay(s.books, op, session);
    }
  }

  /** A Stripe session has been credited exactly when a row records it, and then once. */
  lemma {:induction false} SessionTakesEffectOnce(s: State, ops: seq<Op>, session: string)
    requires Init(s)
    ensures SessionFits(Run(s, ops).books.topups, session, Times(Run(s, ops).journal, StripeSession(session)))
  {
    if ops != [] {
      SessionTakesEffectOnce(s, ops[..|ops| - 1], session);
      StepKeepsSession(Run(s, ops[..|ops| - 1]), ops[|ops| - 1], session);
    }
  }

  /** What a logged request did to the wallet. */
  function LogAmount(log: Log): real {
    match log
    case Debited(_, charge) => if charge > 0.0 then -charge else 0.0
    case Granted(_, amount) => amount
  }

  /** Only a debit or grant with the key writes its log row, and only such a one has it as a cause. */
  lemma KeyMovesOnce(b: Books, op: Op, requestId: string)
    requires Enabled(b, op)
    ensures var (after, _) := Handle(b, op);
            var hit := Hits(Effect(b, op), RequestKey(requestId));
            && (requestId in b.logs ==> requestId in after.logs && after.logs[requestId] == b.logs[requestId] && !hit)
            && (requestId !in b.logs ==> (hit <==> requestId in after.logs && LogAmount(after.logs[requestId]) != 0.0))
  {
    match op
    case Debit(_, _, _) =>
    case Grant(_, _, _, _, _) =>
    case _ =>
  }

  /** Moved credits exactly when the log row shows an amount, and then once. */
  ghost predicate KeyFits(logs: Logs, requestId: string, times: nat) {
    times == if requestId in logs && LogAmount(logs[requestId]) != 0.0 then 1 else 0
  }

  lemma StepKeepsKey(s: State, op: Op, requestId: string)
    requires KeyFits(s.books.logs, requestId, Times(s.journal, RequestKey(requestId)))
    ensures KeyFits(Step(s, op).books.logs, requestId, Times(Step(s, op).journal, RequestKey(requestId)))
  {
    if Enabled(s.books, op) {
      PostAdds(s.journal, Effect(s.books, op), "", RequestKey(requestId));
      KeyMovesOnce(s.books, op, requestId);
    }
  }

  /** A request id, of a debit or of a grant, has moved credits exactly when its log row shows an amount, and then once. */
  lemma {:induction false} RequestKeyTakesEffectOnce(s: State, ops: seq<Op>, requestId: string)
    requires Init(s)
    ensures KeyFits(Run(s, ops).books.logs, requestId, Times(Run(s, ops).journal, RequestKey(requestId)))
  {
    if ops != [] {
      RequestKeyTakesEffectOnce(s, ops[..|ops| - 1], requestId);
      StepKeepsKey(Run(s, ops[..|ops| - 1]), ops[|ops| - 1], requestId);
    }
  }

  /** The mark of the signup grant is set by the grant and by nothing else. */
  lemma HandleMarksGrant(b: Books, op: Op, user: string)
    requires Constraints(b.users) && user in Handle(b, op).0.users
    ensures Handle(b, op).0.users[user].signupGranted
            <==> (user in b.users && b.users[user].signupGranted) || Hits(Effect(b, op), Signup(user))
  {
    match op
    case Resolve(sid, email, newId) => ResolveCreatesEmpty(b.users, sid, email, newId, user);
    case Grant(_, _, _, _, _) => GrantMarksNothing(b, op, user);
    case SignupGrant(_, _) =>
    case _ => OthersMarkNothing(b, op, user);
  }

  lemma OthersMarkNothing(b: Books, op: Op, user: string)
    requires !op.Resolve? && !op.Grant? && !op.SignupGrant? && user in Handle(b, op).0.users
    ensures Handle(b, op).0.users[user].signupGranted <==> user in b.users && b.users[user].signupGranted
    ensures !Hits(Effect(b, op), Signup(user))
  {
  }

  lemma GrantMarksNothing(b: Books, op: Op, user: string)
    requires Constraints(b.users) && op.Grant? && user in Handle(b, op).0.users
    ensures Handle(b, op).0.users[user].signupGranted <==> user in b.users && b.users[user].signupGranted
  {
    ResolveUser.ResolveKeepsTable(b.users, op.sid, op.email, op.newId);
    ResolveCreatesEmpty(b.users, op.sid, op.email, op.newId, user);
  }

  /** The grant has been made exactly if the row was opened without the mark and has it now; marks stay. */
  ghost predicate SignupFits(s: State, user: string, times: nat) {
    && (user in s.books.users ==> user in s.opening && (s.opening[user].granted ==> s.books.users[user].signupGranted))
    && times == if user in s.books.users && s.books.users[user].signupGranted && !s.opening[user].granted then 1 else 0
  }

  /** Opening records stay; a new row opens without the mark. */
  lemma OpeningStays(s: State, op: Op, user: string)
    requires s.opening.Keys == s.books.users.Keys && Enabled(s.books, op) && user in Handle(s.books, op).0.users
    ensures user in Step(s, op).opening
    ensures user in s.books.users ==> Step(s, op).opening[user] == s.opening[user]
    ensures user !in s.books.users ==> !Step(s, op).opening[user].granted
  {
  }

  lemma StepKeepsSignup(s: State, op: Op, user: string)
    requires Constraints(s.books.users) && s.opening.Keys == s.books.users.Keys && Enabled(s.books, op)
    requires SignupFits(s, user, Times(s.journal, Signup(user)))
    ensures SignupFits(Step(s, op), user, Times(Step(s, op).journal, Signup(user)))
  {
    var b, after, t := s.books, Handle(s.books, op).0, Step(s, op);
    PostAdds(s.journal, Effect(b, op), "", Signup(user));
    assert t.books == after && t.journal == Post(s.journal, Effect(b, op));
    if user in after.users {
      HandleMarksGrant(b, op, user);
      OpeningStays(s, op, user);
    }
    if user in b.users {
      HandleKeepsRows(b, op, user);
    } else {
      assert !Hits(Effect(b, op), Signup(user));
    }
  }

  /** The signup grant reaches a user once if the row is marked since it opened, and never otherwise. */
  lemma {:induction false} SignupTakesEffectOnce(s: State, ops: seq<Op>, user: string)
    requires Init(s)
    ensures SignupFits(Run(s, ops), user, Times(Run(s, ops).journal, Signup(user)))
  {
    if ops != [] {
      var m, op := Run(s, ops[..|ops| - 1]), ops[|ops| - 1];
      SignupTakesEffectOnce(s, ops[..|ops| - 1], user);
      RunKeepsConstraints(s, ops[..|ops| - 1]);
      if Enabled(m.books, op) {
        StepKeepsSignup(m, op, user);
      }
    }
  }

  // ---------------------------------------------------------------------------------------------
  // The journal and the rows
  // ---------------------------------------------------------------------------------------------

  ghost predicate SessionPaid(topups: Topups, session: string, user: string, amount: real) {
    exists id :: id in topups && topups[id].session == Some(session) && topups[id].user == user && topups[id].amount == amount
  }

  /** The row behind an entry shows its user and amount. */
  ghost predicate EntryShown(b: Books, e: Entry) {
    match e.cause
    case TopupRequest(id) => id in b.topups && b.topups[id].user == e.user && b.topups[id].amount == e.amount
    case StripeSession(session) => SessionPaid(b.topups, session, e.user, e.amount)
    case Refund(id) => id in b.topups && b.topups[id].user == e.user && b.topups[id].amount == -e.amount
    case RequestKey(requestId) => requestId in b.logs && b.logs[requestId].user == e.user && LogAmount(b.logs[requestId]) == e.amount
    case Signup(user) => user == e.user && user in b.users && b.users[user].signupGranted
    case _ => true
  }

  lemma HandleKeepsShown(b: Books, op: Op, e: Entry)
    requires Constraints(b.users) && Enabled(b, op) && EntryShown(b, e)
    ensures EntryShown(Handle(b, op).0, e)
  {
    var after := Handle(b, op).0;
    if e.cause.StripeSession? {
      var id :| id in b.topups && b.topups[id].session == Some(e.cause.session) && b.topups[id].user == e.user && b.topups[id].amount == e.amount;
      assert id in after.topups && after.topups[id].session == Some(e.cause.session);
    }
    if e.cause.Signup? {
      HandleKeepsRows(b, op, e.user);
      HandleMarksGrant(b, op, e.user);
    }
    if e.cause.RequestKey? {
      KeyMovesOnce(b, op, e.cause.requestId);
    }
  }

  lemma EffectIsShown(b: Books, op: Op)
    requires Enabled(b, op) && Effect(b, op).Some?
    ensures EntryShown(Handle(b, op).0, Effect(b, op).value)
  {
    if op.StripeCompleted? {
      var after := Handle(b, op).0.topups;
      assert op.id in after && after[op.id].session == Some(op.session) && after[op.id].user == Effect(b, op).value.user;
    }
  }

  /** Every entry of the journal is shown by the row it is about, with its user and amount. */
  lemma {:induction false} EntriesAreShown(s: State, ops: seq<Op>, i: nat)
    requires Init(s) && i < |Run(s, ops).journal|
    ensures EntryShown(Run(s, ops).books, Run(s, ops).journal[i])
  {
    if ops != [] {
      var m, op := Run(s, ops[..|ops| - 1]), ops[|ops| - 1];
      if Enabled(m.books, op) {
        RunKeepsConstraints(s, ops[..|ops| - 1]);
        if i < |m.journal| {
          EntriesAreShown(s, ops[..|ops| - 1], i);
          HandleKeepsShown(m.books, op, m.journal[i]);
        } else {
          EffectIsShown(m.books, op);
        }
      } else {
        EntriesAreShown(s, ops[..|ops| - 1], i);
      }
    }
  }

  // ---------------------------------------------------------------------------------------------
  // Where the tables stop telling the truth
  // ---------------------------------------------------------------------------------------------

  /** The request or the Stripe session of the row has been credited. */
  predicate Credited(s: State, id: string) {
    id in s.books.topups
    && (Times(s.journal, TopupRequest(id)) == 1
        || (s.books.topups[id].session.Some? && Times(s.journal, StripeSession(s.books.topups[id].session.value)) == 1))
  }

  /** The admin page rejects a row that is settled already; nothing in the route prevents it. */
  predicate RejectsSettled(s: State, op: Op, id: string) {
    op.AdminRejectTopup? && op.id == id && id in s.books.topups && Settled(s.books.topups[id].status)
  }

  ghost predicate NeverRejectsSettled(s: State, ops: seq<Op>, id: string) {
    ops != [] ==>
      var before := ops[..|ops| - 1];
      NeverRejectsSettled(s, before, id) && !RejectsSettled(Run(s, before), ops[|ops| - 1], id)
  }

  /** Rejected, and credited all the same. */
  predicate Misstated(s: State, id: string) {
    id in s.books.topups && s.books.topups[id].status.Rejected?
    && (Times(s.journal, TopupRequest(id)) == 1 || s.books.topups[id].session.Some?)
  }

  lemma StepMisstates(s: State, op: Op, id: string)
    requires Enabled(s.books, op) && TopupFits(s.books.topups, id, Times(s.journal, TopupRequest(id)))
    ensures Misstated(Step(s, op), id) <==> Misstated(s, id) || RejectsSettled(s, op, id)
  {
    PostAdds(s.journal, Effect(s.books, op), "", TopupRequest(id));
  }

  lemma {:induction false} MisstatedIffRejected(s: State, ops: seq<Op>, id: string)
    requires Init(s)
    ensures Misstated(Run(s, ops), id) <==> !NeverRejectsSettled(s, ops, id)
  {
    if ops != [] {
      var before, op := ops[..|ops| - 1], ops[|ops| - 1];
      var m := Run(s, before);
      MisstatedIffRejected(s, before, id);
      TopupTakesEffectOnce(s, before, id);
      if Enabled(m.books, op) {
        StepMisstates(m, op, id);
      }
    }
  }

  /**
   The status column tells whether a row has been credited, if and only if the admin page never
   rejected it after it was settled.
   */
  lemma StatusTellsCreditedIff(s: State, ops: seq<Op>, id: string)
    requires Init(s) && id in Run(s, ops).books.topups
    ensures var t := Run(s, ops);
            (Credited(t, id) <==> Settled(t.books.topups[id].status)) <==> NeverRejectsSettled(s, ops, id)
  {
    var t := Run(s, ops);
    MisstatedIffRejected(s, ops, id);
    TopupTakesEffectOnce(s, ops, id);
    if t.books.topups[id].session.Some? {
      SessionTakesEffectOnce(s, ops, t.books.topups[id].session.value);
    }
  }

  lemma HandleKeepsLogs(b: Books, op: Op, requestId: string)
    requires requestId in b.logs
    ensures requestId in Handle(b, op).0.logs
  {
    match op
    case Debit(_, _, _) =>
    case Grant(_, _, _, _, _) =>
    case _ =>
  }

  lemma {:induction false} LogsStay(s: State, ops: seq<Op>, requestId: string)
    requires requestId in s.books.logs
    ensures requestId in Run(s, ops).books.logs
  {
    if ops != [] {
      LogsStay(s, ops[..|ops| - 1], requestId);
      HandleKeepsLogs(Run(s, ops[..|ops| - 1]).books, ops[|ops| - 1], requestId);
    }
  }

  /** Debits and grants share one key space: a key once used by either does nothing more, in either. */
  lemma UsedKeyDoesNothing(s: State, ops: seq<Op>, requestId: string, op: Op)
    requires requestId in s.books.logs
    requires (op.Debit? || op.Grant?) && op.requestId == requestId
    ensures Effect(Run(s, ops).books, op).None?
    ensures Handle(Run(s, ops).books, op).0.logs == Run(s, ops).books.logs
  {
    LogsStay(s, ops, requestId);
  }
}
