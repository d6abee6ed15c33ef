/**
 The ledger the way the program runs it: rows are inserted into the tables one
 by one inside a transaction, the balance is summed afterwards, and a failed
 check puts the tables back. Both entry points agree with `Ledger.Execute`.
 */
module LedgerDb {
  import opened Prelude
  import opened Ledger

  /** Net amount of one transaction's postings. */
  function TxSum(ps: seq<Posting>, tx: nat): int {
    if ps == [] then 0
    else TxSum(ps[..|ps| - 1], tx) + (if ps[|ps| - 1].tx == tx then ps[|ps| - 1].amount else 0)
  }

  lemma {:induction false} TxSumNone(ps: seq<Posting>, tx: nat)
    requires forall p :: p in ps ==> p.tx != tx
    ensures TxSum(ps, tx) == 0
  {
    if ps != [] {
      TxSumNone(ps[..|ps| - 1], tx);
    }
  }

  lemma {:induction false} TxSumOfNewEntry(ps: seq<Posting>, call: Call, source: nat, target: nat)
    requires forall p :: p in ps ==> p.tx != call.id
    ensures TxSum(ps + Entry(call, source, target), call.id) == 0
  {
    TxSumNone(ps, call.id);
    var e := Entry(call, source, target);
    assert (ps + e)[..|ps| + 1] == ps + [e[0]];
    assert (ps + [e[0]])[..|ps|] == ps;
  }

  class Database {
    const users: set<nat>
    var wallets: map<Owner, nat>
    var kinds: map<nat, Kind>
    var postings: seq<Posting>

    function View(): Book
      reads this
    {
      Book(wallets, kinds, postings)
    }

    constructor (users: set<nat>)
      ensures View() == EMPTY && this.users == users
    {
      this.users := users;
      wallets, kinds, postings := map[], map[], [];
    }

    /** Insert-or-ignore, then read back; `None` is the foreign-key failure. */
    method EnsureWallet(owner: Owner, row: nat) returns (account: Option<nat>)
      modifies this`wallets
      ensures if Known(users, old(View()), owner)
              then View() == Open(old(View()), owner, row) && account == Some(View().wallets[owner])
              else View() == old(View()) && account == None
    {
      if owner !in wallets {
        if owner.User? && owner.id !in users {
          return None;
        }
        wallets := wallets[owner := row];
      }
      account := Some(wallets[owner]);
    }

    method FetchLegs(tx: nat) returns (legs: seq<Leg>)
      ensures legs == Legs(postings, tx)
    {
      legs := [];
      for i := 0 to |postings|
        invariant legs == Legs(postings[..i], tx)
      {
        assert postings[..i + 1][..i] == postings[..i];
        if postings[i].tx == tx {
          legs := legs + [Leg(postings[i].account, postings[i].amount)];
        }
      }
      assert postings[..|postings|] == postings;
    }

    method SumOfTransaction(tx: nat) returns (total: int)
      ensures total == TxSum(postings, tx)
    {
      total := 0;
      for i := 0 to |postings|
        invariant total == TxSum(postings[..i], tx)
      {
        assert postings[..i + 1][..i] == postings[..i];
        if postings[i].tx == tx {
          total := total + postings[i].amount;
        }
      }
      assert postings[..|postings|] == postings;
    }

    method SumOfAccount(account: nat) returns (total: int)
      ensures total == Sum(postings, {account})
    {
      total := 0;
      for i := 0 to |postings|
        invariant total == Sum(postings[..i], {account})
      {
        assert postings[..i + 1][..i] == postings[..i];
        if postings[i].account == account {
          total := total + postings[i].amount;
        }
      }
      assert postings[..|postings|] == postings;
    }

    /** Derived balance of the caller's own wallet, opened when missing. */
    method ReadBalance(caller: nat, owner: nat, row: nat) returns (answer: BalanceAnswer)
      modifies this`wallets
      ensures (View(), answer) == BalanceOf(users, old(View()), caller, owner, row)
    {
      if caller != owner { return NoBalance(Forbidden); }
      var account := EnsureWallet(User(owner), row);
      if account == None { return NoBalance(UnknownUser); }
      var total := SumOfAccount(account.value);
      answer := if -I64_MAX - 1 <= total <= I64_MAX then Balance(total) else NoBalance(CastOverflow);
    }

    /** The two insertions of a new transaction, source leg first. */
    method InsertLegs(call: Call, source: nat, target: nat)
      modifies this`postings
      ensures postings == old(postings) + Entry(call, source, target)
    {
      var legs := [Leg(source, -call.amount), Leg(target, call.amount)];
      for i := 0 to 2
        invariant postings == old(postings) + Entry(call, source, target)[..i]
      {
        postings := postings + [Posting(call.id, legs[i].account, legs[i].amount)];
      }
    }

    method Rollback(before: Book)
      modifies this
      ensures View() == before
    {
      wallets, kinds, postings := before.wallets, before.kinds, before.postings;
    }

    /** Move credits between two users; the caller must own the source wallet. */
    method Transfer(cmd: Command) returns (out: Outcome)
      requires cmd.call.TransferCall? && ValidBook(View()) && Fresh(View(), cmd)
      modifies this
      ensures (View(), out) == Execute(users, old(View()), cmd)
    {
      var call := cmd.call;
      if call.caller != call.from { return Rejected(Forbidden); }
      if call.amount <= 0 { return Rejected(NotPositive); }
      if call.from == call.to { return Rejected(SelfTransfer); }
      var before := View();
      var source, target: Option<nat>;
      // Wallets are created in user-id order; the result does not depend on it.
      if call.from <= call.to {
        source := EnsureWallet(User(call.from), cmd.freshSource);
        if source == None { return Rejected(UnknownUser); }
        target := EnsureWallet(User(call.to), cmd.freshTarget);
        if target == None { Rollback(before); return Rejected(UnknownUser); }
      } else {
        target := EnsureWallet(User(call.to), cmd.freshTarget);
        if target == None { return Rejected(UnknownUser); }
        source := EnsureWallet(User(call.from), cmd.freshSource);
        if source == None { Rollback(before); return Rejected(UnknownUser); }
      }
      assert View() == Opened(before, cmd);
      out := Record(cmd, source.value, target.value, before);
    }

    /** Issue credits from the treasury. */
    method Mint(cmd: Command) returns (out: Outcome)
      requires cmd.call.MintCall? && ValidBook(View()) && Fresh(View(), cmd)
      modifies this
      ensures (View(), out) == Execute(users, old(View()), cmd)
    {
      var call := cmd.call;
      if call.amount <= 0 { return Rejected(NotPositive); }
      var before := View();
      var treasury := EnsureWallet(Treasury, cmd.freshSource);
      var target := EnsureWallet(User(call.to), cmd.freshTarget);
      if target == None { Rollback(before); return Rejected(UnknownUser); }
      assert View() == Opened(before, cmd);
      out := Record(cmd, treasury.value, target.value, before);
    }

    /** Idempotency lookup, insertion, zero-sum and overdraft checks, in that order. */
    method Record(cmd: Command, source: nat, target: nat, before: Book) returns (out: Outcome)
      requires ValidBook(before) && Fresh(before, cmd) && Validate(cmd.call).None?
      requires Known(users, before, cmd.call.Source()) && Known(users, before, cmd.call.Target())
      requires View() == Opened(before, cmd)
      requires source == wallets[cmd.call.Source()] && target == wallets[cmd.call.Target()]
      modifies this
      ensures (View(), out) == Execute(users, before, cmd)
    {
      var call := cmd.call;
      OpenedFacts(before, cmd);
      if call.id in kinds {
        var actual := FetchLegs(call.id);
        if kinds[call.id] != call.Kind() || multiset(actual) != multiset(Expected(call, source, target)) {
          Rollback(before);
          return Rejected(IdReused);
        }
        return Deduped;
      }
      kinds := kinds[call.id := call.Kind()];
      InsertLegs(call, source, target);
      TxSumOfNewEntry(before.postings, call, source, target);
      var net := SumOfTransaction(call.id);
      if net != 0 {
        // The program's "ledger invariant violated" answer: never reached.
        assert false;
      }
      if call.TransferCall? {
        SumAppendEntry(before.postings, call, source, target, {source});
        var balance := SumOfAccount(source);
        if !(-I64_MAX - 1 <= balance <= I64_MAX) { Rollback(before); return Rejected(CastOverflow); }
        if balance < 0 { Rollback(before); return Rejected(InsufficientFunds); }
      }
      out := Posted;
    }
  }
}
