/**
 The ledger as its users know it: the list of requests posted so far, and
 nothing else. What a request is answered depends on that list alone. The book
 with its wallets, ids and postings, serial or under concurrency, answers every
 request exactly as the list does, and every balance is what the list adds up to.
 */
module LedgerReference {
  import opened Prelude
  import opened Ledger
  import C = LedgerConcurrency

  /** Received minus sent, over the posted requests. */
  function Held(posted: seq<Call>, user: nat): int {
    if posted == [] then 0
    else
      var last := posted[|posted| - 1];
      Held(posted[..|posted| - 1], user)
      + (if last.to == user then last.amount else 0)
      - (if last.TransferCall? && last.from == user then last.amount else 0)
  }

  predicate UsedId(posted: seq<Call>, id: nat) {
    exists p :: p in posted && p.id == id
  }

  function Verdict(users: set<nat>, posted: seq<Call>, call: Call): Outcome {
    if call.TransferCall? && call.caller != call.from then Rejected(Forbidden)
    else if call.amount < 1 then Rejected(NotPositive)
    else if call.TransferCall? && call.from == call.to then Rejected(SelfTransfer)
    else if call.to !in users || (call.TransferCall? && call.from !in users) then Rejected(UnknownUser)
    else if call in posted then Deduped
    else if UsedId(posted, call.id) then Rejected(IdReused)
    else if call.TransferCall? && call.amount > Held(posted, call.from) then Rejected(InsufficientFunds)
    else Posted
  }

  /** The requests a run posts. */
  function Reference(users: set<nat>, calls: seq<Call>): seq<Call> {
    if calls == [] then []
    else
      var before, last := Reference(users, calls[..|calls| - 1]), calls[|calls| - 1];
      if Verdict(users, before, last) == Posted then before + [last] else before
  }

  function Calls(cmds: seq<Command>): seq<Call> {
    seq(|cmds|, i requires 0 <= i < |cmds| => cmds[i].call)
  }

  /** The database's amounts are 64-bit, and so is all the credit ever issued. */
  predicate FitsI64(users: set<nat>, cmds: seq<Command>) {
    Issued(users, cmds) <= I64_MAX && forall cmd :: cmd in cmds ==> cmd.call.amount <= I64_MAX
  }

  // ----- how the book and the list correspond -----

  predicate WalletHolds(b: Book, posted: seq<Call>, user: nat) {
    if User(user) in b.wallets then Sum(b.postings, {b.wallets[User(user)]}) == Held(posted, user)
    else Held(posted, user) == 0
  }

  ghost predicate Linked(users: set<nat>, b: Book, posted: seq<Call>) {
    && (forall id :: id in b.kinds <==> UsedId(posted, id))
    && (forall u: nat :: User(u) in b.wallets ==> u in users)
    && (forall u: nat :: WalletHolds(b, posted, u))
  }

  lemma OpenedHolds(b: Book, cmd: Command, posted: seq<Call>, user: nat)
    requires ValidBook(b) && Fresh(b, cmd) && Validate(cmd.call).None? && WalletHolds(b, posted, user)
    ensures WalletHolds(Opened(b, cmd), posted, user)
  {
    OpenedFacts(b, cmd);
    var o := Opened(b, cmd);
    if User(user) in o.wallets && User(user) !in b.wallets {
      SumOutside(b.postings, {o.wallets[User(user)]});
    }
  }

  lemma PostedHolds(b: Book, call: Call, posted: seq<Call>, user: nat)
    requires Injective(b.wallets) && Ready(b, call) && WalletHolds(b, posted, user)
    ensures WalletHolds(Post(b, call), posted + [call], user)
  {
    assert (posted + [call])[..|posted|] == posted;
    if User(user) in b.wallets {
      SumAppendEntry(b.postings, call, b.wallets[call.Source()], b.wallets[call.Target()], {b.wallets[User(user)]});
    }
  }

  lemma UsedIdAppend(posted: seq<Call>, call: Call, id: nat)
    ensures UsedId(posted + [call], id) <==> UsedId(posted, id) || id == call.id
  {
    assert (posted + [call])[|posted|] == call;
    forall p | p in posted ensures p in posted + [call] {
    }
  }

  lemma OpenedKeepsLinked(users: set<nat>, b: Book, cmd: Command, posted: seq<Call>)
    requires ValidBook(b) && Fresh(b, cmd) && Validate(cmd.call).None? && Linked(users, b, posted)
    requires Known(users, b, cmd.call.Source()) && Known(users, b, cmd.call.Target())
    ensures Linked(users, Opened(b, cmd), posted)
  {
    forall u: nat ensures WalletHolds(Opened(b, cmd), posted, u) {
      OpenedHolds(b, cmd, posted, u);
    }
  }

  lemma PostKeepsLinked(users: set<nat>, b: Book, call: Call, posted: seq<Call>)
    requires Injective(b.wallets) && Ready(b, call) && Linked(users, b, posted)
    ensures Linked(users, Post(b, call), posted + [call])
  {
    forall u: nat ensures WalletHolds(Post(b, call), posted + [call], u) {
      PostedHolds(b, call, posted, u);
    }
    forall id ensures id in Post(b, call).kinds <==> UsedId(posted + [call], id) {
      UsedIdAppend(posted, call, id);
    }
  }

  lemma ExecuteKnows(users: set<nat>, b: Book, cmd: Command)
    requires !Execute(users, b, cmd).1.Rejected?
    ensures Known(users, b, cmd.call.Source()) && Known(users, b, cmd.call.Target())
  {
  }

  lemma ExecuteKeepsLinked(users: set<nat>, b: Book, cmd: Command, posted: seq<Call>)
    requires ValidBook(b) && Fresh(b, cmd) && Linked(users, b, posted)
    ensures var (b', out) := Execute(users, b, cmd);
      Linked(users, b', if out == Posted then posted + [cmd.call] else posted)
  {
    ExecuteShape(users, b, cmd);
    var out := Execute(users, b, cmd).1;
    if !out.Rejected? {
      ExecuteKnows(users, b, cmd);
      OpenedKeepsLinked(users, b, cmd, posted);
      OpenedFacts(b, cmd);
      if out == Posted {
        PostKeepsLinked(users, Opened(b, cmd), cmd.call, posted);
      }
    }
  }

  // ----- every answer -----

  /** The list holds just the calls the run has posted. */
  ghost predicate Lists(users: set<nat>, cmds: seq<Command>, posted: seq<Call>) {
    forall call :: call in posted <==> Repeats(users, cmds, call)
  }

  /** What an unused id needs: a sender who holds the amount; a mint needs nothing. */
  lemma NewIdAnswer(users: set<nat>, b: Book, cmd: Command, posted: seq<Call>)
    requires ValidBook(b) && Fresh(b, cmd) && Linked(users, b, posted) && Validate(cmd.call).None?
    requires Known(users, b, cmd.call.Source()) && Known(users, b, cmd.call.Target()) && cmd.call.id !in b.kinds
    requires Execute(users, b, cmd).1 != Rejected(CastOverflow)
    ensures var short := cmd.call.TransferCall? && cmd.call.amount > Held(posted, cmd.call.from);
      Execute(users, b, cmd).1 == if short then Rejected(InsufficientFunds) else Posted
  {
    if cmd.call.TransferCall? {
      OpenedHolds(b, cmd, posted, cmd.call.from);
    }
  }

  lemma ExecuteIsVerdict(users: set<nat>, cmds: seq<Command>, cmd: Command, posted: seq<Call>)
    requires AllFresh(users, cmds + [cmd]) && FitsI64(users, cmds) && cmd.call.amount <= I64_MAX
    requires Linked(users, Run(users, EMPTY, cmds), posted) && Lists(users, cmds, posted)
    ensures Execute(users, Run(users, EMPTY, cmds), cmd).1 == Verdict(users, posted, cmd.call)
  {
    assert (cmds + [cmd])[..|cmds|] == cmds;
    var b, call := Run(users, EMPTY, cmds), cmd.call;
    RunKeepsValid(users, cmds);
    if Validate(call).None? && Known(users, b, call.Source()) && Known(users, b, call.Target()) {
      DedupedIffRepeat(users, cmds, cmd);
      if call.id !in b.kinds {
        CastIsSafe(users, cmds, cmd);
        NewIdAnswer(users, b, cmd, posted);
        assert call !in posted;
      }
    }
  }

  lemma IssuedGrows(users: set<nat>, cmds: seq<Command>)
    requires cmds != []
    ensures Issued(users, cmds[..|cmds| - 1]) <= Issued(users, cmds)
  {
  }

  lemma RepeatsGrow(users: set<nat>, before: seq<Command>, cmd: Command, call: Call)
    ensures Repeats(users, before + [cmd], call)
      <==> (Repeats(users, before, call)
            || (cmd.call == call && Execute(users, Run(users, EMPTY, before), cmd).1 == Posted))
  {
    var cmds := before + [cmd];
    assert cmds[..|before|] == before;
    if Repeats(users, before, call) {
      var i :| 0 <= i < |before| && PostedAt(users, before, i) && before[i].call == call;
      assert cmds[..i] == before[..i];
      assert PostedAt(users, cmds, i) && cmds[i].call == call;
    }
    if Repeats(users, cmds, call) {
      var i :| 0 <= i < |cmds| && PostedAt(users, cmds, i) && cmds[i].call == call;
      if i < |before| {
        assert cmds[..i] == before[..i];
        assert PostedAt(users, before, i);
      }
    }
    if cmd.call == call && Execute(users, Run(users, EMPTY, before), cmd).1 == Posted {
      assert PostedAt(users, cmds, |before|);
    }
  }

  lemma {:induction false} RunIsLinked(users: set<nat>, cmds: seq<Command>)
    requires AllFresh(users, cmds) && FitsI64(users, cmds)
    ensures Linked(users, Run(users, EMPTY, cmds), Reference(users, Calls(cmds)))
    ensures Lists(users, cmds, Reference(users, Calls(cmds)))
  {
    if cmds != [] {
      var before, last := cmds[..|cmds| - 1], cmds[|cmds| - 1];
      IssuedGrows(users, cmds);
      RunIsLinked(users, before);
      assert before + [last] == cmds;
      assert Calls(cmds)[..|before|] == Calls(before);
      var posted := Reference(users, Calls(before));
      ExecuteIsVerdict(users, before, last, posted);
      RunKeepsValid(users, before);
      ExecuteKeepsLinked(users, Run(users, EMPTY, before), last, posted);
      forall call ensures call in Reference(users, Calls(cmds)) <==> Repeats(users, cmds, call) {
        RepeatsGrow(users, before, last, call);
      }
    }
  }

  /**
   Every answer of the book is the answer of the list: in particular a valid
   transfer with an unused id between known users is posted if and only if its
   sender holds the amount, and such a mint always.
   */
  lemma AnswersAreVerdicts(users: set<nat>, cmds: seq<Command>, cmd: Command)
    requires AllFresh(users, cmds + [cmd]) && FitsI64(users, cmds) && cmd.call.amount <= I64_MAX
    ensures Execute(users, Run(users, EMPTY, cmds), cmd).1 == Verdict(users, Reference(users, Calls(cmds)), cmd.call)
  {
    assert (cmds + [cmd])[..|cmds|] == cmds;
    RunIsLinked(users, cmds);
    ExecuteIsVerdict(users, cmds, cmd, Reference(users, Calls(cmds)));
  }

  /** A balance read answers what the posted requests add up to. */
  lemma BalanceIsHeld(users: set<nat>, cmds: seq<Command>, user: nat, row: nat)
    requires AllFresh(users, cmds) && FitsI64(users, cmds) && row !in Run(users, EMPTY, cmds).wallets.Values
    ensures BalanceOf(users, Run(users, EMPTY, cmds), user, user, row).1
         == if user in users then Balance(Held(Reference(users, Calls(cmds)), user)) else NoBalance(UnknownUser)
  {
    RunIsLinked(users, cmds);
    RunKeepsValid(users, cmds);
    var b := Run(users, EMPTY, cmds);
    assert WalletHolds(b, Reference(users, Calls(cmds)), user);
    if user in users {
      BalanceReadIsSafe(users, cmds, user, row);
      if User(user) !in b.wallets {
        SumOutside(b.postings, {row});
      }
    }
  }

  /** A posted request moves its amount from its source to its target, and no other account. */
  lemma PostedMovesOnce(users: set<nat>, b: Book, cmd: Command, account: nat)
    requires ValidBook(b) && Fresh(b, cmd) && Execute(users, b, cmd).1 == Posted
    ensures var b' := Execute(users, b, cmd).0;
      && cmd.call.Source() in b'.wallets && cmd.call.Target() in b'.wallets
      && Sum(b'.postings, {account})
         == Sum(b.postings, {account}) - (if account == b'.wallets[cmd.call.Source()] then cmd.call.amount else 0)
            + (if account == b'.wallets[cmd.call.Target()] then cmd.call.amount else 0)
  {
    ExecuteShape(users, b, cmd);
    var o := Opened(b, cmd);
    SumAppendEntry(b.postings, cmd.call, o.wallets[cmd.call.Source()], o.wallets[cmd.call.Target()], {account});
  }

  lemma {:induction false} FitsUpTo(users: set<nat>, cmds: seq<Command>, n: nat)
    requires FitsI64(users, cmds) && n <= |cmds|
    ensures FitsI64(users, cmds[..n])
  {
    if n == |cmds| {
      assert cmds[..n] == cmds;
    } else {
      IssuedGrows(users, cmds);
      assert cmds[..|cmds| - 1][..n] == cmds[..n];
      FitsUpTo(users, cmds[..|cmds| - 1], n);
    }
  }

  /** Under concurrency, too: each request got the answer of the list of those answered before it. */
  lemma ConcurrentAnswersAreVerdicts(users: set<nat>, actions: seq<C.Action>, s: C.Sys, i: nat)
    requires C.Reaches(C.Init(users), actions, s) && i < |s.log| && FitsI64(users, C.Commands(s.log))
    ensures s.log[i].outcome == Verdict(users, Reference(users, Calls(C.Commands(s.log[..i]))), s.log[i].cmd.call)
  {
    C.Linearizable(users, actions, s);
    var all := C.Commands(s.log);
    assert C.SerialAnswer(users, s.log, i);
    assert all[..i] == C.Commands(s.log[..i]) && all[..i + 1] == all[..i] + [all[i]];
    FreshBefore(users, all, i + 1);
    FitsUpTo(users, all, i);
    AnswersAreVerdicts(users, all[..i], all[i]);
  }
}
