/**
 Refund events in every serial run of the Ledger: they carry no key of their own, so each delivery that
 finds its top-up takes the whole amount again.
 */
module LedgerRefunds {
  import opened Prelude
  import opened Users
  import opened Ledger
  import opened LedgerRuns
  import Overdraft

  /** The call is a refund delivery whose lookup answers the stored row `id`. */
  predicate Delivers(b: Books, op: Op, id: string) {
    op == StripeRefunded(Some(id)) && id in b.topups
  }

  ghost function Deliveries(s: State, ops: seq<Op>, id: string): nat {
    if ops == [] then 0
    else
      var before := ops[..|ops| - 1];
      Deliveries(s, before, id) + if Delivers(Run(s, before).books, ops[|ops| - 1], id) then 1 else 0
  }

  /** The sum of the entries with one cause. */
  function Sum(journal: seq<Entry>, cause: Cause): real {
    if journal == [] then 0.0
    else Sum(journal[..|journal| - 1], cause) + Part(journal[|journal| - 1], cause)
  }

  function Part(e: Entry, cause: Cause): real {
    if e.cause == cause then e.amount else 0.0
  }

  lemma PostSums(journal: seq<Entry>, e: Option<Entry>, cause: Cause)
    ensures Sum(Post(journal, e), cause) == Sum(journal, cause) + if e.Some? then Part(e.value, cause) else 0.0
  {
    if e.Some? {
      assert (journal + [e.value])[..|journal + [e.value]| - 1] == journal;
    }
  }

  // ---------------------------------------------------------------------------------------------
  // Top-up rows
  // ---------------------------------------------------------------------------------------------

  ghost predicate TopupsOwned(b: Books) {
    forall id :: id in b.topups ==> b.topups[id].user in b.users
  }

  /** A row keeps its user and amount, and a new one belongs to a user. */
  lemma HandleKeepsTopupRow(b: Books, op: Op, id: string)
    requires Enabled(b, op)
    ensures var after := Handle(b, op).0.topups;
            && (id in b.topups ==> id in after && after[id].user == b.topups[id].user && after[id].amount == b.topups[id].amount)
            && (id in after && id !in b.topups ==> after[id].user in b.users)
  {
    match op
    case RequestTopup(_, _, _) =>
    case ApproveTopup(_) =>
    case RejectTopup(_) =>
    case AdminRejectTopup(_) =>
    case StripeCompleted(_, _, _, _, _) =>
    case _ => OthersSpareTopups(b, op);
  }

  lemma {:induction false} RunKeepsTopupsOwned(s: State, ops: seq<Op>)
    requires Init(s)
    ensures TopupsOwned(Run(s, ops).books)
  {
    if ops != [] {
      var before, op := ops[..|ops| - 1], ops[|ops| - 1];
      var b := Run(s, before).books;
      RunKeepsTopupsOwned(s, before);
      RunKeepsConstraints(s, before);
      if Enabled(b, op) {
        forall id | id in Handle(b, op).0.topups ensures Handle(b, op).0.topups[id].user in Handle(b, op).0.users {
          HandleKeepsTopupRow(b, op, id);
          HandleKeepsRows(b, op, Handle(b, op).0.topups[id].user);
        }
      }
    }
  }

  // ---------------------------------------------------------------------------------------------
  // Refunds
  // ---------------------------------------------------------------------------------------------

  /** A delivery that finds its row makes one entry of minus its amount; nothing else makes one with that cause. */
  lemma DeliveryEffect(b: Books, op: Op, id: string)
    requires TopupsOwned(b)
    ensures Hits(Effect(b, op), Refund(id)) <==> Delivers(b, op, id)
    ensures Delivers(b, op, id) ==> Effect(b, op).value.amount == -b.topups[id].amount
  {
  }

  /** What n deliveries take. */
  ghost predicate Taken(topups: Topups, id: string, n: nat, sum: real) {
    if id in topups then sum == -(n as real * topups[id].amount) else n == 0 && sum == 0.0
  }

  lemma OneMoreTaken(n: nat, amount: real)
    ensures -(n as real * amount) - amount == -((n + 1) as real * amount)
  {
    assert (n + 1) as real * amount == n as real * amount + amount;
  }

  /** One more call, given how its entry adds up. */
  lemma CallTakes(b: Books, op: Op, id: string, n: nat, sum: real)
    requires TopupsOwned(b) && Enabled(b, op) && Taken(b.topups, id, n, sum)
    ensures var e := Effect(b, op);
            Taken(Handle(b, op).0.topups, id, n + if Delivers(b, op, id) then 1 else 0,
                  sum + if e.Some? then Part(e.value, Refund(id)) else 0.0)
  {
    DeliveryEffect(b, op, id);
    HandleKeepsTopupRow(b, op, id);
    var after := Handle(b, op).0.topups;
    if Delivers(b, op, id) {
      OneMoreTaken(n, b.topups[id].amount);
    } else if id in after && id !in b.topups {
      assert 0 as real * after[id].amount == 0.0;
    }
  }

  /**
   Over every run the journal holds exactly one refund entry for each delivery that found the top-up, and
   together they take its amount that many times.
   */
  lemma {:induction false} RefundsAreDeliveries(s: State, ops: seq<Op>, id: string)
    requires Init(s)
    ensures var t := Run(s, ops);
            && Times(t.journal, Refund(id)) == Deliveries(s, ops, id)
            && Taken(t.books.topups, id, Deliveries(s, ops, id), Sum(t.journal, Refund(id)))
  {
    if ops != [] {
      var before, op := ops[..|ops| - 1], ops[|ops| - 1];
      RefundsAreDeliveries(s, before, id);
      RunKeepsTopupsOwned(s, before);
      StepTakes(Run(s, before), op, id, Deliveries(s, before, id));
    }
  }

  lemma StepTakes(s: State, op: Op, id: string, n: nat)
    requires TopupsOwned(s.books) && Times(s.journal, Refund(id)) == n && Taken(s.books.topups, id, n, Sum(s.journal, Refund(id)))
    ensures var m := n + if Delivers(s.books, op, id) then 1 else 0;
            && Times(Step(s, op).journal, Refund(id)) == m
            && Taken(Step(s, op).books.topups, id, m, Sum(Step(s, op).journal, Refund(id)))
  {
    if Enabled(s.books, op) {
      DeliveryEffect(s.books, op, id);
      CallTakes(s.books, op, id, n, Sum(s.journal, Refund(id)));
      PostAdds(s.journal, Effect(s.books, op), "", Refund(id));
      PostSums(s.journal, Effect(s.books, op), Refund(id));
    }
  }

  /** n deliveries of a refund event. */
  function Refunds(id: string, n: nat): seq<Op> {
    if n == 0 then [] else Refunds(id, n - 1) + [StripeRefunded(Some(id))]
  }

  lemma RefundTakes(s: State, id: string)
    requires id in s.books.topups && s.books.topups[id].user in s.books.users
    ensures var user, t := s.books.topups[id].user, Step(s, StripeRefunded(Some(id)));
            && t.books.topups == s.books.topups && user in t.books.users
            && t.books.users[user].balance == s.books.users[user].balance - s.books.topups[id].amount
  {
  }

  /** Delivered n times in a row, from any state, it takes the top-up n times. */
  lemma {:induction false} RefundsAddUp(s: State, id: string, n: nat)
    requires id in s.books.topups && s.books.topups[id].user in s.books.users
    ensures var user, t := s.books.topups[id].user, Run(s, Refunds(id, n));
            && t.books.topups == s.books.topups && user in t.books.users
            && t.books.users[user].balance == s.books.users[user].balance - Overdraft.Charges(n, s.books.topups[id].amount)
  {
    if n > 0 {
      RefundsAddUp(s, id, n - 1);
      RefundTakes(Run(s, Refunds(id, n - 1)), id);
      assert Refunds(id, n)[..|Refunds(id, n)| - 1] == Refunds(id, n - 1);
    }
  }
}
