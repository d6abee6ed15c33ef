/**
 The credit ledger as a serial machine: wallets, transaction ids used as
 idempotency keys, and double-entry postings. `Execute` says what one request
 must answer; class `LedgerDb` does it the way the program does, inserting rows
 one at a time and rolling back, and is proved to agree. The laws (two zero-sum
 legs per transaction, issuance equals minus the treasury, no overdraft,
 retries erase) are about every run of requests.
 */
module Ledger {
  import opened Prelude

  const I64_MAX: int := 0x7FFF_FFFF_FFFF_FFFF

  datatype Owner = Treasury | User(id: nat)

  datatype Kind = Transfer | Mint

  datatype Call =
    | TransferCall(caller: nat, from: nat, to: nat, amount: int, id: nat)
    | MintCall(to: nat, amount: int, id: nat)
  {
    function Kind(): Kind {
      if TransferCall? then Transfer else Mint
    }

    function Source(): Owner {
      if TransferCall? then User(from) else Treasury
    }

    function Target(): Owner {
      User(to)
    }
  }

  datatype Error =
    | Forbidden
    | NotPositive
    | SelfTransfer
    | UnknownUser
    | IdReused
    | InsufficientFunds
    | CastOverflow

  datatype Outcome = Posted | Deduped | Rejected(error: Error)

  datatype Leg = Leg(account: nat, amount: int)

  datatype Posting = Posting(tx: nat, account: nat, amount: int)

  datatype Book = Book(wallets: map<Owner, nat>, kinds: map<nat, Kind>, postings: seq<Posting>)

  const EMPTY := Book(map[], map[], [])

  /** A request together with the fresh row ids it would use for missing wallets. */
  datatype Command = Command(call: Call, freshSource: nat, freshTarget: nat)

  // ----- what one request must answer -----

  function Share(p: Posting, accounts: set<nat>): int {
    if p.account in accounts then p.amount else 0
  }

  /** Derived balance of a set of accounts: there is no cached column. */
  function Sum(ps: seq<Posting>, accounts: set<nat>): int {
    if ps == [] then 0
    else Sum(ps[..|ps| - 1], accounts) + Share(ps[|ps| - 1], accounts)
  }

  /** The legs of one transaction, in insertion order. */
  function Legs(ps: seq<Posting>, tx: nat): seq<Leg> {
    if ps == [] then []
    else
      var last := ps[|ps| - 1];
      Legs(ps[..|ps| - 1], tx) + (if last.tx == tx then [Leg(last.account, last.amount)] else [])
  }

  /** Checks made before any transaction is opened. */
  function Validate(call: Call): Option<Error> {
    if call.TransferCall? && call.caller != call.from then Some(Forbidden)
    else if call.amount <= 0 then Some(NotPositive)
    else if call.TransferCall? && call.from == call.to then Some(SelfTransfer)
    else None
  }

  predicate Known(users: set<nat>, b: Book, owner: Owner) {
    owner in b.wallets || owner.Treasury? || owner.id in users
  }

  function Open(b: Book, owner: Owner, row: nat): Book {
    if owner in b.wallets then b else b.(wallets := b.wallets[owner := row])
  }

  function Opened(b: Book, cmd: Command): (o: Book)
    ensures cmd.call.Source() in o.wallets && cmd.call.Target() in o.wallets
  {
    Open(Open(b, cmd.call.Source(), cmd.freshSource), cmd.call.Target(), cmd.freshTarget)
  }

  function Entry(call: Call, source: nat, target: nat): seq<Posting> {
    [Posting(call.id, source, -call.amount), Posting(call.id, target, call.amount)]
  }

  function Expected(call: Call, source: nat, target: nat): seq<Leg> {
    [Leg(source, -call.amount), Leg(target, call.amount)]
  }

  /** Is the id used by this very request? Both leg lists are sorted, so order is no matter. */
  predicate SameRequest(b: Book, call: Call, source: nat, target: nat)
    requires call.id in b.kinds
  {
    b.kinds[call.id] == call.Kind() && multiset(Legs(b.postings, call.id)) == multiset(Expected(call, source, target))
  }

  /** The overdraft check, made on the sum that already includes the debit. */
  function Funds(call: Call, after: int): Option<Error> {
    if call.MintCall? then None
    else if !(-I64_MAX - 1 <= after <= I64_MAX) then Some(CastOverflow)
    else if after < 0 then Some(InsufficientFunds)
    else None
  }

  /** Record a new transaction: its id and its two legs. */
  function Post(b: Book, call: Call): Book
    requires call.Source() in b.wallets && call.Target() in b.wallets
  {
    Book(b.wallets, b.kinds[call.id := call.Kind()],
         b.postings + Entry(call, b.wallets[call.Source()], b.wallets[call.Target()]))
  }

  function Execute(users: set<nat>, b: Book, cmd: Command): (Book, Outcome) {
    var call := cmd.call;
    if Validate(call).Some? then (b, Rejected(Validate(call).value))
    else if !Known(users, b, call.Source()) || !Known(users, b, call.Target()) then (b, Rejected(UnknownUser))
    else
      var o := Opened(b, cmd);
      var source, target := o.wallets[call.Source()], o.wallets[call.Target()];
      if call.id in b.kinds then
        if SameRequest(b, call, source, target) then (o, Deduped) else (b, Rejected(IdReused))
      else
        var short := Funds(call, Sum(b.postings, {source}) - call.amount);
        if short.Some? then (b, Rejected(short.value))
        else (Post(o, call), Posted)
  }

  datatype BalanceAnswer = Balance(amount: int) | NoBalance(error: Error)

  /** A balance read: the owner alone may ask, and a missing wallet is opened. */
  function BalanceOf(users: set<nat>, b: Book, caller: nat, owner: nat, row: nat): (Book, BalanceAnswer) {
    if caller != owner then (b, NoBalance(Forbidden))
    else if !Known(users, b, User(owner)) then (b, NoBalance(UnknownUser))
    else
      var o := Open(b, User(owner), row);
      var total := Sum(o.postings, {o.wallets[User(owner)]});
      (o, if -I64_MAX - 1 <= total <= I64_MAX then Balance(total) else NoBalance(CastOverflow))
  }

  // ----- runs -----

  predicate Fresh(b: Book, cmd: Command) {
    && cmd.freshSource != cmd.freshTarget
    && cmd.freshSource !in b.wallets.Values && cmd.freshTarget !in b.wallets.Values
  }

  function Run(users: set<nat>, b: Book, cmds: seq<Command>): Book {
    if cmds == [] then b
    else Execute(users, Run(users, b, cmds[..|cmds| - 1]), cmds[|cmds| - 1]).0
  }

  /** Every row id a run allocates is new when it is used (UUIDv7 allocation). */
  predicate AllFresh(users: set<nat>, cmds: seq<Command>) {
    cmds == [] ||
    (AllFresh(users, cmds[..|cmds| - 1]) && Fresh(Run(users, EMPTY, cmds[..|cmds| - 1]), cmds[|cmds| - 1]))
  }

  lemma {:induction false} FreshBefore(users: set<nat>, cmds: seq<Command>, n: nat)
    requires AllFresh(users, cmds) && n <= |cmds|
    ensures AllFresh(users, cmds[..n])
  {
    if n == |cmds| {
      assert cmds[..n] == cmds;
    } else {
      assert cmds[..|cmds| - 1][..n] == cmds[..n];
      FreshBefore(users, cmds[..|cmds| - 1], n);
    }
  }

  /** Credits issued by the mints of a run that were posted. */
  function Issued(users: set<nat>, cmds: seq<Command>): int {
    if cmds == [] then 0
    else
      var before, last := cmds[..|cmds| - 1], cmds[|cmds| - 1];
      Issued(users, before) +
      (if last.call.MintCall? && Execute(users, Run(users, EMPTY, before), last).1 == Posted
       then last.call.amount else 0)
  }

  // ----- sums -----

  lemma SumAppendEntry(ps: seq<Posting>, call: Call, source: nat, target: nat, accounts: set<nat>)
    ensures Sum(ps + Entry(call, source, target), accounts)
         == Sum(ps, accounts) - (if source in accounts then call.amount else 0)
            + (if target in accounts then call.amount else 0)
  {
    var e := Entry(call, source, target);
    assert (ps + e)[..|ps| + 1] == ps + [e[0]];
    assert (ps + [e[0]])[..|ps|] == ps;
  }

  lemma {:induction false} SumSplit(ps: seq<Posting>, a: nat, rest: set<nat>)
    requires a !in rest
    ensures Sum(ps, {a} + rest) == Sum(ps, {a}) + Sum(ps, rest)
  {
    if ps == [] {
    } else {
      SumSplit(ps[..|ps| - 1], a, rest);
    }
  }

  lemma {:induction false} LegsAppendEntry(ps: seq<Posting>, call: Call, source: nat, target: nat, tx: nat)
    ensures Legs(ps + Entry(call, source, target), tx)
         == Legs(ps, tx) + (if tx == call.id then Expected(call, source, target) else [])
  {
    var e := Entry(call, source, target);
    assert (ps + e)[..|ps| + 1] == ps + [e[0]];
    assert (ps + [e[0]])[..|ps|] == ps;
  }

  lemma {:induction false} LegsNone(ps: seq<Posting>, tx: nat)
    requires forall p :: p in ps ==> p.tx != tx
    ensures Legs(ps, tx) == []
  {
    if ps == [] {
    } else {
      LegsNone(ps[..|ps| - 1], tx);
    }
  }

  lemma {:induction false} LegsFrom(ps: seq<Posting>, tx: nat, leg: Leg)
    requires leg in Legs(ps, tx)
    ensures Posting(tx, leg.account, leg.amount) in ps
  {
    if leg in Legs(ps[..|ps| - 1], tx) {
      LegsFrom(ps[..|ps| - 1], tx, leg);
    }
  }

  // ----- the shape of a committed book -----

  /** `amount` moved from one account to a different one, in exactly two legs. */
  predicate Moves(legs: seq<Leg>, source: nat, target: nat, amount: int) {
    amount > 0 && source != target && legs == [Leg(source, -amount), Leg(target, amount)]
  }

  ghost predicate TwoLegged(ps: seq<Posting>, id: nat) {
    exists a, c, x :: Moves(Legs(ps, id), a, c, x)
  }

  ghost predicate OnePerAccount(ps: seq<Posting>) {
    forall i, j :: 0 <= i < j < |ps| && ps[i].tx == ps[j].tx ==> ps[i].account != ps[j].account
  }

  ghost predicate Injective(w: map<Owner, nat>) {
    forall o, o' :: o in w && o' in w && w[o] == w[o'] ==> o == o'
  }

  ghost predicate ValidBook(b: Book) {
    && Injective(b.wallets)
    && (forall p :: p in b.postings ==> p.tx in b.kinds && p.account in b.wallets.Values)
    && (forall id :: id in b.kinds ==> TwoLegged(b.postings, id))
    && OnePerAccount(b.postings)
  }

  ghost predicate Extends(w: map<Owner, nat>, w': map<Owner, nat>) {
    forall o :: o in w ==> o in w' && w'[o] == w[o]
  }

  lemma OpenFacts(b: Book, owner: Owner, row: nat)
    requires Injective(b.wallets) && row !in b.wallets.Values
    ensures var o := Open(b, owner, row); Injective(o.wallets) && Extends(b.wallets, o.wallets)
    ensures var o := Open(b, owner, row); forall r :: r in o.wallets.Values ==> r in b.wallets.Values || r == row
  {
  }

  lemma OpenedFacts(b: Book, cmd: Command)
    requires Injective(b.wallets) && Fresh(b, cmd) && Validate(cmd.call).None?
    ensures var o := Opened(b, cmd);
      && Injective(o.wallets) && Extends(b.wallets, o.wallets)
      && o.wallets[cmd.call.Source()] != o.wallets[cmd.call.Target()]
  {
    OpenFacts(b, cmd.call.Source(), cmd.freshSource);
    OpenFacts(Open(b, cmd.call.Source(), cmd.freshSource), cmd.call.Target(), cmd.freshTarget);
  }

  lemma ValuesGrow(w: map<Owner, nat>, w': map<Owner, nat>, row: nat)
    requires Extends(w, w') && row in w.Values
    ensures row in w'.Values
  {
  }

  lemma OpenedKeepsValid(b: Book, cmd: Command)
    requires ValidBook(b) && Fresh(b, cmd) && Validate(cmd.call).None?
    ensures ValidBook(Opened(b, cmd))
  {
    OpenedFacts(b, cmd);
    var o := Opened(b, cmd);
    forall p | p in b.postings ensures p.account in o.wallets.Values {
      ValuesGrow(b.wallets, o.wallets, p.account);
    }
  }

  predicate Ready(b: Book, call: Call) {
    && call.amount > 0 && call.id !in b.kinds
    && call.Source() in b.wallets && call.Target() in b.wallets
    && b.wallets[call.Source()] != b.wallets[call.Target()]
  }

  lemma PostKeepsBalanced(b: Book, call: Call, id: nat)
    requires ValidBook(b) && Ready(b, call) && id in Post(b, call).kinds
    ensures TwoLegged(Post(b, call).postings, id)
  {
    var source, target := b.wallets[call.Source()], b.wallets[call.Target()];
    LegsAppendEntry(b.postings, call, source, target, id);
    if id == call.id {
      LegsNone(b.postings, id);
      assert Moves(Legs(Post(b, call).postings, id), source, target, call.amount);
    } else {
      var a, c, x :| Moves(Legs(b.postings, id), a, c, x);
      assert Moves(Legs(Post(b, call).postings, id), a, c, x);
    }
  }

  lemma PostKeepsOneEach(b: Book, call: Call)
    requires ValidBook(b) && Ready(b, call)
    ensures forall p :: p in Post(b, call).postings ==> p.tx in Post(b, call).kinds && p.account in b.wallets.Values
    ensures OnePerAccount(Post(b, call).postings)
  {
  }

  lemma PostKeepsValid(b: Book, call: Call)
    requires ValidBook(b) && Ready(b, call)
    ensures ValidBook(Post(b, call))
  {
    PostKeepsOneEach(b, call);
    forall id | id in Post(b, call).kinds ensures TwoLegged(Post(b, call).postings, id) {
      PostKeepsBalanced(b, call, id);
    }
  }

  /** The three shapes an answer can take, for proofs that need no more. */
  lemma ExecuteShape(users: set<nat>, b: Book, cmd: Command)
    requires Injective(b.wallets) && Fresh(b, cmd)
    ensures var (b', out) := Execute(users, b, cmd);
      match out
      case Rejected(_) => b' == b
      case Deduped => Validate(cmd.call).None? && b' == Opened(b, cmd)
      case Posted => Validate(cmd.call).None? && Ready(Opened(b, cmd), cmd.call) && b' == Post(Opened(b, cmd), cmd.call)
                     && Funds(cmd.call,
                       Sum(b.postings, {Opened(b, cmd).wallets[cmd.call.Source()]}) - cmd.call.amount).None?
  {
  }

  lemma ExecuteKeepsValid(users: set<nat>, b: Book, cmd: Command)
    requires ValidBook(b) && Fresh(b, cmd)
    ensures ValidBook(Execute(users, b, cmd).0)
  {
    ExecuteShape(users, b, cmd);
    var out := Execute(users, b, cmd).1;
    if !out.Rejected? {
      OpenedKeepsValid(b, cmd);
      if out == Posted {
        PostKeepsValid(Opened(b, cmd), cmd.call);
      }
    }
  }

  lemma {:induction false} RunKeepsValid(users: set<nat>, cmds: seq<Command>)
    requires AllFresh(users, cmds)
    ensures ValidBook(Run(users, EMPTY, cmds))
  {
    if cmds == [] {
    } else {
      RunKeepsValid(users, cmds[..|cmds| - 1]);
      ExecuteKeepsValid(users, Run(users, EMPTY, cmds[..|cmds| - 1]), cmds[|cmds| - 1]);
    }
  }

  // ----- conservation -----

  /** Accounts that are not the treasury's. */
  predicate Private(b: Book, accounts: set<nat>) {
    Treasury in b.wallets ==> b.wallets[Treasury] !in accounts
  }

  /** No group of users is ever in debt, nor holds more than was issued. */
  ghost predicate Solvent(b: Book, issued: int) {
    && (forall s: set<nat> :: Private(b, s) ==> 0 <= Sum(b.postings, s) <= issued)
    && (if Treasury in b.wallets then Sum(b.postings, {b.wallets[Treasury]}) == -issued else issued == 0)
  }

  lemma {:induction false} SumOutside(ps: seq<Posting>, accounts: set<nat>)
    requires forall p :: p in ps ==> p.account !in accounts
    ensures Sum(ps, accounts) == 0
  {
    if ps == [] {
    } else {
      SumOutside(ps[..|ps| - 1], accounts);
    }
  }

  /** Opening wallets moves nothing: a fresh account has no postings. */
  lemma OpenedKeepsSolvent(b: Book, cmd: Command, issued: int)
    requires ValidBook(b) && Fresh(b, cmd) && Solvent(b, issued) && Validate(cmd.call).None?
    ensures Solvent(Opened(b, cmd), issued)
  {
  }

  /** What a sender holds bounds what any group with or without it holds. */
  lemma SourceCovers(b: Book, source: nat, s: set<nat>, issued: int)
    requires Solvent(b, issued) && Private(b, s) && Private(b, {source})
    ensures if source in s then Sum(b.postings, {source}) <= Sum(b.postings, s)
            else Sum(b.postings, s) + Sum(b.postings, {source}) <= issued
  {
    if source in s {
      SumSplit(b.postings, source, s - {source});
      assert {source} + (s - {source}) == s;
      assert Private(b, s - {source});
    } else {
      SumSplit(b.postings, source, s);
      assert Private(b, {source} + s);
    }
  }

  lemma PostKeepsSolvent(b: Book, call: Call, issued: int)
    requires Solvent(b, issued) && Ready(b, call) && Injective(b.wallets)
    requires call.TransferCall? ==> Sum(b.postings, {b.wallets[call.Source()]}) >= call.amount
    ensures Solvent(Post(b, call), issued + if call.MintCall? then call.amount else 0)
  {
    var b', source, target := Post(b, call), b.wallets[call.Source()], b.wallets[call.Target()];
    if Treasury in b.wallets {
      SumAppendEntry(b.postings, call, source, target, {b.wallets[Treasury]});
    }
    forall s: set<nat> | Private(b', s)
      ensures 0 <= Sum(b'.postings, s) <= issued + if call.MintCall? then call.amount else 0
    {
      SumAppendEntry(b.postings, call, source, target, s);
      assert Private(b, s);
      if call.TransferCall? {
        SourceCovers(b, source, s, issued);
      }
    }
  }

  lemma ExecuteKeepsSolvent(users: set<nat>, b: Book, cmd: Command, issued: int)
    requires ValidBook(b) && Fresh(b, cmd) && Solvent(b, issued)
    ensures var (b', out) := Execute(users, b, cmd);
      Solvent(b', issued + if cmd.call.MintCall? && out == Posted then cmd.call.amount else 0)
  {
    ExecuteShape(users, b, cmd);
    var out := Execute(users, b, cmd).1;
    if !out.Rejected? {
      OpenedKeepsSolvent(b, cmd, issued);
      OpenedKeepsValid(b, cmd);
      if out == Posted {
        PostKeepsSolvent(Opened(b, cmd), cmd.call, issued);
      }
    }
  }

  lemma {:induction false} RunSolvent(users: set<nat>, cmds: seq<Command>)
    requires AllFresh(users, cmds)
    ensures Solvent(Run(users, EMPTY, cmds), Issued(users, cmds))
  {
    if cmds == [] {
    } else {
      var before := cmds[..|cmds| - 1];
      RunSolvent(users, before);
      RunKeepsValid(users, before);
      ExecuteKeepsSolvent(users, Run(users, EMPTY, before), cmds[|cmds| - 1], Issued(users, before));
    }
  }

  /** A user's balance is never negative and never more than what was issued. */
  lemma {:induction false} UserBalanceBounds(users: set<nat>, cmds: seq<Command>, user: nat)
    requires AllFresh(users, cmds) && User(user) in Run(users, EMPTY, cmds).wallets
    ensures var b := Run(users, EMPTY, cmds); 0 <= Sum(b.postings, {b.wallets[User(user)]}) <= Issued(users, cmds)
  {
    RunSolvent(users, cmds);
    RunKeepsValid(users, cmds);
    var b := Run(users, EMPTY, cmds);
    assert Private(b, {b.wallets[User(user)]});
  }

  lemma OpenKeepsSolvent(b: Book, owner: Owner, row: nat, issued: int)
    requires ValidBook(b) && Solvent(b, issued) && owner.User? && row !in b.wallets.Values
    ensures Solvent(Open(b, owner, row), issued)
  {
  }

  lemma CastFits(users: set<nat>, b: Book, cmd: Command, issued: int)
    requires ValidBook(b) && Fresh(b, cmd) && Solvent(b, issued)
    requires issued <= I64_MAX && cmd.call.amount <= I64_MAX
    ensures Execute(users, b, cmd).1 != Rejected(CastOverflow)
  {
  }

  /**
   In every run, while what was issued before fits an i64, the BIGINT cast of
   the overdraft check cannot fail.
   */
  lemma CastIsSafe(users: set<nat>, cmds: seq<Command>, cmd: Command)
    requires AllFresh(users, cmds + [cmd]) && Issued(users, cmds) <= I64_MAX && cmd.call.amount <= I64_MAX
    ensures Execute(users, Run(users, EMPTY, cmds), cmd).1 != Rejected(CastOverflow)
  {
    assert (cmds + [cmd])[..|cmds|] == cmds;
    RunKeepsValid(users, cmds);
    RunSolvent(users, cmds);
    CastFits(users, Run(users, EMPTY, cmds), cmd, Issued(users, cmds));
  }

  /** Nor can the cast of a balance read fail: it answers an amount between zero and what was issued. */
  lemma BalanceReadIsSafe(users: set<nat>, cmds: seq<Command>, user: nat, row: nat)
    requires AllFresh(users, cmds) && Issued(users, cmds) <= I64_MAX && row !in Run(users, EMPTY, cmds).wallets.Values
    requires Known(users, Run(users, EMPTY, cmds), User(user))
    ensures var (_, answer) := BalanceOf(users, Run(users, EMPTY, cmds), user, user, row);
      answer.Balance? && 0 <= answer.amount <= Issued(users, cmds)
  {
    var b := Run(users, EMPTY, cmds);
    RunKeepsValid(users, cmds);
    RunSolvent(users, cmds);
    OpenKeepsSolvent(b, User(user), row, Issued(users, cmds));
    var o := Open(b, User(user), row);
    OpenFacts(b, User(user), row);
    assert Private(o, {o.wallets[User(user)]});
  }

  // ----- idempotency -----

  /** The book holds exactly this request under its id. */
  predicate Remembers(b: Book, call: Call) {
    && Validate(call).None? && call.id in b.kinds
    && call.Source() in b.wallets && call.Target() in b.wallets
    && SameRequest(b, call, b.wallets[call.Source()], b.wallets[call.Target()])
  }

  lemma PostedIsRemembered(users: set<nat>, b: Book, cmd: Command)
    requires ValidBook(b) && Fresh(b, cmd) && Execute(users, b, cmd).1 == Posted
    ensures Remembers(Execute(users, b, cmd).0, cmd.call)
  {
    ExecuteShape(users, b, cmd);
    var o := Opened(b, cmd);
    LegsAppendEntry(b.postings, cmd.call, o.wallets[cmd.call.Source()], o.wallets[cmd.call.Target()], cmd.call.id);
    LegsNone(b.postings, cmd.call.id);
  }

  lemma RememberedOpened(b: Book, cmd: Command, call: Call)
    requires Injective(b.wallets) && Fresh(b, cmd) && Validate(cmd.call).None? && Remembers(b, call)
    ensures Remembers(Opened(b, cmd), call)
    ensures Opened(b, cmd).wallets.Keys >= {cmd.call.Source(), cmd.call.Target()}
  {
    OpenedFacts(b, cmd);
  }

  lemma RememberedStays(users: set<nat>, b: Book, cmd: Command, call: Call)
    requires ValidBook(b) && Fresh(b, cmd) && Remembers(b, call)
    ensures Remembers(Execute(users, b, cmd).0, call)
  {
    ExecuteShape(users, b, cmd);
    if !Execute(users, b, cmd).1.Rejected? {
      RememberedOpened(b, cmd, call);
      var o := Opened(b, cmd);
      LegsAppendEntry(o.postings, cmd.call, o.wallets[cmd.call.Source()], o.wallets[cmd.call.Target()], call.id);
    }
  }

  lemma RememberedIsDeduped(users: set<nat>, b: Book, cmd: Command)
    requires Remembers(b, cmd.call)
    ensures Execute(users, b, cmd) == (b, Deduped)
  {
  }

  predicate PostedAt(users: set<nat>, cmds: seq<Command>, i: nat)
    requires i < |cmds|
  {
    Execute(users, Run(users, EMPTY, cmds[..i]), cmds[i]).1 == Posted
  }

  /** Was this request already posted by an earlier command? */
  predicate Repeats(users: set<nat>, before: seq<Command>, call: Call) {
    exists i :: 0 <= i < |before| && PostedAt(users, before, i) && before[i].call == call
  }

  lemma {:induction false} RepeatIsRemembered(users: set<nat>, cmds: seq<Command>, i: nat)
    requires AllFresh(users, cmds) && i < |cmds| && PostedAt(users, cmds, i)
    ensures Remembers(Run(users, EMPTY, cmds), cmds[i].call)
  {
    var before := cmds[..|cmds| - 1];
    RunKeepsValid(users, before);
    if i == |before| {
      PostedIsRemembered(users, Run(users, EMPTY, before), cmds[i]);
    } else {
      assert before[..i] == cmds[..i];
      RepeatIsRemembered(users, before, i);
      RememberedStays(users, Run(users, EMPTY, before), cmds[|before|], cmds[i].call);
    }
  }

  lemma NewIdIsPosted(users: set<nat>, b: Book, cmd: Command, id: nat)
    requires ValidBook(b) && Fresh(b, cmd) && id !in b.kinds && id in Execute(users, b, cmd).0.kinds
    ensures Execute(users, b, cmd).1 == Posted && cmd.call.id == id
  {
    ExecuteShape(users, b, cmd);
  }

  lemma {:induction false} EveryIdWasPosted(users: set<nat>, cmds: seq<Command>, id: nat) returns (i: nat)
    requires AllFresh(users, cmds) && id in Run(users, EMPTY, cmds).kinds
    ensures i < |cmds| && PostedAt(users, cmds, i) && cmds[i].call.id == id
  {
    i := |cmds| - 1;
    var before, last := cmds[..i], cmds[i];
    if id in Run(users, EMPTY, before).kinds {
      i := EveryIdWasPosted(users, before, id);
      assert before[..i] == cmds[..i];
    } else {
      RunKeepsValid(users, before);
      NewIdIsPosted(users, Run(users, EMPTY, before), last, id);
    }
  }

  /** Equal legs and kind determine the request. */
  lemma LegsDetermineCall(b: Book, call: Call, other: Call)
    requires Injective(b.wallets) && Remembers(b, call) && Remembers(b, other) && call.id == other.id
    ensures call == other
  {
  }

  /** A matching id can only belong to wallets that already exist. */
  lemma DedupedOpensNothing(b: Book, cmd: Command)
    requires ValidBook(b) && Fresh(b, cmd) && Validate(cmd.call).None? && cmd.call.id in b.kinds
    requires var o := Opened(b, cmd);
      SameRequest(b, cmd.call, o.wallets[cmd.call.Source()], o.wallets[cmd.call.Target()])
    ensures Opened(b, cmd) == b
  {
    var o, call := Opened(b, cmd), cmd.call;
    var source, target := o.wallets[call.Source()], o.wallets[call.Target()];
    assert Leg(source, -call.amount) in multiset(Legs(b.postings, call.id));
    assert Leg(target, call.amount) in multiset(Legs(b.postings, call.id));
    LegsFrom(b.postings, call.id, Leg(source, -call.amount));
    LegsFrom(b.postings, call.id, Leg(target, call.amount));
    assert Posting(call.id, source, -call.amount) in b.postings && Posting(call.id, target, call.amount) in b.postings;
  }

  /** A request is answered "already done" exactly when it repeats a posted one. */
  lemma {:induction false} DedupedIffRepeat(users: set<nat>, cmds: seq<Command>, cmd: Command)
    requires AllFresh(users, cmds + [cmd])
    ensures Execute(users, Run(users, EMPTY, cmds), cmd).1 == Deduped <==> Repeats(users, cmds, cmd.call)
  {
    assert (cmds + [cmd])[..|cmds|] == cmds;
    var b := Run(users, EMPTY, cmds);
    RunKeepsValid(users, cmds);
    if Repeats(users, cmds, cmd.call) {
      var i :| 0 <= i < |cmds| && PostedAt(users, cmds, i) && cmds[i].call == cmd.call;
      RepeatIsRemembered(users, cmds, i);
      RememberedIsDeduped(users, b, cmd);
    }
    if Execute(users, b, cmd).1 == Deduped {
      var i := EveryIdWasPosted(users, cmds, cmd.call.id);
      RepeatIsRemembered(users, cmds, i);
      OpenedFacts(b, cmd);
      DedupedOpensNothing(b, cmd);
      LegsDetermineCall(b, cmds[i].call, cmd.call);
    }
  }

  function Erase(users: set<nat>, cmds: seq<Command>): seq<Command> {
    if cmds == [] then []
    else
      var before, last := cmds[..|cmds| - 1], cmds[|cmds| - 1];
      if Repeats(users, before, last.call) then Erase(users, before) else Erase(users, before) + [last]
  }

  /** Deleting every repeat of a posted request from a run leaves the same book. */
  lemma {:induction false} RetriesErase(users: set<nat>, cmds: seq<Command>)
    requires AllFresh(users, cmds)
    ensures Run(users, EMPTY, Erase(users, cmds)) == Run(users, EMPTY, cmds)
  {
    if cmds != [] {
      var before, last := cmds[..|cmds| - 1], cmds[|cmds| - 1];
      RetriesErase(users, before);
      if Repeats(users, before, last.call) {
        var i :| 0 <= i < |before| && PostedAt(users, before, i) && before[i].call == last.call;
        RepeatIsRemembered(users, before, i);
        RememberedIsDeduped(users, Run(users, EMPTY, before), last);
      } else {
        assert (Erase(users, before) + [last])[..|Erase(users, before)|] == Erase(users, before);
      }
    }
  }
}
