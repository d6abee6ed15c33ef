/**
 Any number of transfers and mints in flight at once. Each is a database
 transaction that takes, one step at a time, the unique slots of missing
 wallets, the two account rows in id order, and the slot of its transaction
 id; it reads only committed rows and its own, and can fail at any moment. Two
 results: the committed book is the serial book run in answer order, every
 answer included; and no reachable state is stuck.
 */
module LedgerConcurrency {
  import opened Prelude
  import opened Ledger

  datatype Pc = Slot0 | Slot1 | Row0 | Row1 | Lookup | InsertId | InsertLegs | Check | Ready

  /** What a transaction can wait for: it holds each until it ends. */
  datatype Resource = Slot(owner: Owner) | Row(account: nat) | Id(tx: nat)

  datatype Txn = Txn(cmd: Command, pc: Pc, accounts: map<Owner, nat>, created: set<Owner>,
                     legs: seq<Posting>, outcome: Outcome)

  datatype Answer = Answer(cmd: Command, outcome: Outcome)

  datatype Sys = Sys(users: set<nat>, book: Book, locks: map<Resource, nat>, txns: map<nat, Txn>,
                     taken: set<nat>, log: seq<Answer>)

  datatype Action = Begin(tid: nat, cmd: Command) | Advance(tid: nat) | Crash(tid: nat)

  function Init(users: set<nat>): Sys {
    Sys(users, EMPTY, map[], map[], {}, [])
  }

  // ----- one transaction -----

  /** Wallet slots are visited treasury first, then by user id. */
  function First(call: Call): Owner {
    if call.TransferCall? then User(Min(call.from, call.to)) else Treasury
  }

  function Second(call: Call): Owner {
    if call.TransferCall? then User(Max(call.from, call.to)) else User(call.to)
  }

  function RowFor(cmd: Command, owner: Owner): nat {
    if owner == cmd.call.Source() then cmd.freshSource else cmd.freshTarget
  }

  predicate HasBoth(t: Txn) {
    t.cmd.call.Source() in t.accounts && t.cmd.call.Target() in t.accounts
  }

  function Source(t: Txn): nat requires HasBoth(t) {
    t.accounts[t.cmd.call.Source()]
  }

  function Target(t: Txn): nat requires HasBoth(t) {
    t.accounts[t.cmd.call.Target()]
  }

  function Lo(t: Txn): nat requires HasBoth(t) {
    Min(Source(t), Target(t))
  }

  function Hi(t: Txn): nat requires HasBoth(t) {
    Max(Source(t), Target(t))
  }

  function Rank(pc: Pc): nat {
    match pc
    case Slot0 => 0 case Slot1 => 1 case Row0 => 2 case Row1 => 3 case Lookup => 4
    case InsertId => 5 case InsertLegs => 6 case Check => 7 case Ready => 8
  }

  /** Accounts are resolved once both slots have been visited. */
  predicate WellFormed(t: Txn) {
    Rank(t.pc) >= 2 ==> HasBoth(t)
  }

  /** The resource the next statement of `t` needs, if any. */
  function Wants(book: Book, t: Txn): Option<Resource>
    requires WellFormed(t)
  {
    match t.pc
    case Slot0 => if First(t.cmd.call) in book.wallets then None else Some(Slot(First(t.cmd.call)))
    case Slot1 => if Second(t.cmd.call) in book.wallets then None else Some(Slot(Second(t.cmd.call)))
    case Row0 => Some(Row(Lo(t)))
    case Row1 => Some(Row(Hi(t)))
    case InsertId => Some(Id(t.cmd.call.id))
    case _ => None
  }

  predicate Blocked(s: Sys, tid: nat)
    requires tid in s.txns && WellFormed(s.txns[tid])
  {
    var w := Wants(s.book, s.txns[tid]);
    w.Some? && w.value in s.locks && s.locks[w.value] != tid
  }

  function Unlocked(locks: map<Resource, nat>, tid: nat): map<Resource, nat> {
    map r | r in locks && locks[r] != tid :: locks[r]
  }

  function Release(s: Sys, tid: nat): Sys {
    s.(locks := Unlocked(s.locks, tid), txns := s.txns - {tid})
  }

  /** The book after `t` commits: its wallets and, when it posted, its rows. */
  function Commit(book: Book, t: Txn): Book {
    var wallets := book.wallets + (map o | o in t.created && o in t.accounts :: t.accounts[o]);
    if t.outcome == Posted
    then Book(wallets, book.kinds[t.cmd.call.id := t.cmd.call.Kind()], book.postings + t.legs)
    else book.(wallets := wallets)
  }

  /** What the next statement of a transaction does. */
  datatype Plan =
    | Go(next: Txn, take: Option<Resource>)
    | Refuse(error: Error)
    | Finish

  function EnterSlot(users: set<nat>, book: Book, t: Txn, owner: Owner, next: Pc): Plan {
    if owner in book.wallets then
      Go(t.(pc := next, accounts := t.accounts[owner := book.wallets[owner]]), None)
    else if !Known(users, book, owner) then Refuse(UnknownUser)
    else
      Go(t.(pc := next, accounts := t.accounts[owner := RowFor(t.cmd, owner)], created := t.created + {owner}),
         Some(Slot(owner)))
  }

  /** The id is already committed: compare with what was posted under it. */
  function Compare(book: Book, t: Txn): Plan
    requires HasBoth(t) && t.cmd.call.id in book.kinds
  {
    if SameRequest(book, t.cmd.call, Source(t), Target(t)) then Go(t.(pc := Ready, outcome := Deduped), None)
    else Refuse(IdReused)
  }

  function PlanOf(users: set<nat>, book: Book, t: Txn): Plan
    requires WellFormed(t)
  {
    var call := t.cmd.call;
    match t.pc
    case Slot0 => EnterSlot(users, book, t, First(call), Slot1)
    case Slot1 => EnterSlot(users, book, t, Second(call), Row0)
    case Row0 => Go(t.(pc := Row1), Some(Row(Lo(t))))
    case Row1 => Go(t.(pc := Lookup), Some(Row(Hi(t))))
    case Lookup => if call.id in book.kinds then Compare(book, t) else Go(t.(pc := InsertId), None)
    case InsertId =>
      // A unique violation here is the lost insert race and its fallback.
      if call.id in book.kinds then Compare(book, t) else Go(t.(pc := InsertLegs), Some(Id(call.id)))
    case InsertLegs => Go(t.(pc := Check, legs := Entry(call, Source(t), Target(t))), None)
    case Check =>
      var short := Funds(call, Sum(book.postings + t.legs, {Source(t)}));
      if short.Some? then Refuse(short.value) else Go(t.(pc := Ready, outcome := Posted), None)
    case Ready => Finish
  }

  function Take(locks: map<Resource, nat>, tid: nat, take: Option<Resource>): map<Resource, nat> {
    if take.Some? then locks[take.value := tid] else locks
  }

  /** A rejected request rolls everything back before it answers. */
  function Step(s: Sys, tid: nat): Sys
    requires tid in s.txns && WellFormed(s.txns[tid]) && !Blocked(s, tid)
  {
    var t := s.txns[tid];
    match PlanOf(s.users, s.book, t)
    case Go(next, take) => s.(txns := s.txns[tid := next], locks := Take(s.locks, tid, take))
    case Refuse(error) => Release(s, tid).(log := s.log + [Answer(t.cmd, Rejected(error))])
    case Finish => Release(s, tid).(book := Commit(s.book, t), log := s.log + [Answer(t.cmd, t.outcome)])
  }

  predicate Enabled(s: Sys, a: Action) {
    match a
    case Begin(tid, cmd) => tid !in s.txns && cmd.freshSource != cmd.freshTarget
                            && cmd.freshSource !in s.taken && cmd.freshTarget !in s.taken
    case Advance(tid) => tid in s.txns && WellFormed(s.txns[tid]) && !Blocked(s, tid)
    case Crash(tid) => tid in s.txns
  }

  function Next(s: Sys, a: Action): Sys
    requires Enabled(s, a)
  {
    match a
    case Begin(tid, cmd) =>
      var s' := s.(taken := s.taken + {cmd.freshSource, cmd.freshTarget});
      if Validate(cmd.call).Some? then s'.(log := s.log + [Answer(cmd, Rejected(Validate(cmd.call).value))])
      else s'.(txns := s.txns[tid := Txn(cmd, Slot0, map[], {}, [], Posted)])
    case Advance(tid) => Step(s, tid)
    case Crash(tid) => Release(s, tid)
  }

  ghost predicate Reaches(s: Sys, actions: seq<Action>, s': Sys)
    decreases |actions|
  {
    if actions == [] then s' == s
    else Enabled(s, actions[0]) && Reaches(Next(s, actions[0]), actions[1..], s')
  }

  // ----- what every reachable state keeps -----

  predicate Held(locks: map<Resource, nat>, tid: nat, r: Resource) {
    r in locks && locks[r] == tid
  }

  predicate Untouched(book: Book, id: nat, accounts: set<nat>) {
    forall p :: p in book.postings && p.tx == id ==> p.account !in accounts
  }

  ghost predicate AccountOK(users: set<nat>, book: Book, locks: map<Resource, nat>, tid: nat, t: Txn, o: Owner)
    requires o in t.accounts
  {
    if o in t.created
    then o !in book.wallets && t.accounts[o] == RowFor(t.cmd, o) && Known(users, book, o) && Held(locks, tid, Slot(o))
    else o in book.wallets && t.accounts[o] == book.wallets[o]
  }

  ghost predicate SlotsOK(users: set<nat>, book: Book, locks: map<Resource, nat>, tid: nat, t: Txn) {
    && Validate(t.cmd.call).None?
    && t.accounts.Keys == (if t.pc == Slot0 then {} else if t.pc == Slot1 then {First(t.cmd.call)}
                           else {First(t.cmd.call), Second(t.cmd.call)})
    && t.created <= t.accounts.Keys
    && (forall o :: o in t.accounts ==> AccountOK(users, book, locks, tid, t, o))
  }

  ghost predicate PhaseOK(book: Book, locks: map<Resource, nat>, tid: nat, t: Txn)
    requires HasBoth(t)
  {
    var call := t.cmd.call;
    && (Rank(t.pc) > 2 ==> Held(locks, tid, Row(Lo(t))))
    && (Rank(t.pc) > 3 ==> Held(locks, tid, Row(Hi(t))))
    && (t.pc == InsertId && call.id in book.kinds ==> Untouched(book, call.id, {Source(t), Target(t)}))
    && (t.pc == InsertLegs || t.pc == Check || (t.pc == Ready && t.outcome == Posted)
        ==> call.id !in book.kinds && Held(locks, tid, Id(call.id)))
    && (t.pc == Check || (t.pc == Ready && t.outcome == Posted) ==> t.legs == Entry(call, Source(t), Target(t)))
    && (t.pc == Ready ==> !t.outcome.Rejected?)
    && (t.pc == Ready && t.outcome == Deduped ==>
      call.id in book.kinds && SameRequest(book, call, Source(t), Target(t)))
    && (t.pc == Ready && t.outcome == Posted ==> Funds(call, Sum(book.postings, {Source(t)}) - call.amount).None?)
  }

  ghost predicate TxnOK(users: set<nat>, book: Book, locks: map<Resource, nat>, tid: nat, t: Txn) {
    SlotsOK(users, book, locks, tid, t) && (Rank(t.pc) >= 2 ==> HasBoth(t) && PhaseOK(book, locks, tid, t))
  }

  /** A transaction holds only what its program counter says it has taken. */
  predicate MayHold(t: Txn, r: Resource) {
    match r
    case Slot(o) => o in t.created
    case Row(a) => HasBoth(t) && ((Rank(t.pc) > 2 && a == Lo(t)) || (Rank(t.pc) > 3 && a == Hi(t)))
    case Id(x) => Rank(t.pc) > 5 && x == t.cmd.call.id
  }

  ghost predicate LocksOK(locks: map<Resource, nat>, txns: map<nat, Txn>) {
    forall r :: r in locks ==> locks[r] in txns && MayHold(txns[locks[r]], r)
  }

  predicate Apart(c: Command, d: Command) {
    {c.freshSource, c.freshTarget} !! {d.freshSource, d.freshTarget}
  }

  /** Row ids are allocated once, whatever becomes of the transaction. */
  ghost predicate RowsOK(book: Book, txns: map<nat, Txn>, taken: set<nat>) {
    && (forall o :: o in book.wallets ==> book.wallets[o] in taken)
    && (forall i :: i in txns ==>
      Fresh(book, txns[i].cmd) && {txns[i].cmd.freshSource, txns[i].cmd.freshTarget} <= taken)
    && (forall i, j :: i in txns && j in txns && i != j ==> Apart(txns[i].cmd, txns[j].cmd))
  }

  function Commands(log: seq<Answer>): seq<Command> {
    seq(|log|, i requires 0 <= i < |log| => log[i].cmd)
  }

  predicate SerialAnswer(users: set<nat>, log: seq<Answer>, i: nat)
    requires i < |log|
  {
    log[i].outcome == Execute(users, Run(users, EMPTY, Commands(log[..i])), log[i].cmd).1
  }

  /** The committed book is the serial book, and every answer was the serial answer. */
  ghost predicate Linear(s: Sys) {
    && AllFresh(s.users, Commands(s.log))
    && s.book == Run(s.users, EMPTY, Commands(s.log))
    && forall i :: 0 <= i < |s.log| ==> SerialAnswer(s.users, s.log, i)
  }

  ghost predicate TxnsOK(users: set<nat>, book: Book, locks: map<Resource, nat>, txns: map<nat, Txn>) {
    forall i :: i in txns ==> TxnOK(users, book, locks, i, txns[i])
  }

  ghost predicate Safe(s: Sys) {
    && LocksOK(s.locks, s.txns) && RowsOK(s.book, s.txns, s.taken)
    && TxnsOK(s.users, s.book, s.locks, s.txns) && ValidBook(s.book)
  }

  ghost predicate Inv(s: Sys) {
    Safe(s) && Linear(s)
  }

  // ----- one transaction's next statement -----

  lemma FrameLocks(users: set<nat>, book: Book, locks: map<Resource, nat>, locks': map<Resource, nat>, tid: nat, t: Txn)
    requires TxnOK(users, book, locks, tid, t)
    requires forall r :: Held(locks, tid, r) ==> Held(locks', tid, r)
    ensures TxnOK(users, book, locks', tid, t)
  {
  }

  /** The accounts a transaction resolved are the ones the serial book would open now. */
  lemma Resolved(users: set<nat>, book: Book, locks: map<Resource, nat>, tid: nat, t: Txn)
    requires SlotsOK(users, book, locks, tid, t) && Rank(t.pc) >= 2
    requires Injective(book.wallets) && Fresh(book, t.cmd)
    ensures HasBoth(t) && Source(t) != Target(t)
    ensures var o := Opened(book, t.cmd);
      o.wallets[t.cmd.call.Source()] == Source(t) && o.wallets[t.cmd.call.Target()] == Target(t)
    ensures Known(users, book, t.cmd.call.Source()) && Known(users, book, t.cmd.call.Target())
  {
  }

  lemma EnteredOK(users: set<nat>, book: Book, locks: map<Resource, nat>, tid: nat, t: Txn)
    requires TxnOK(users, book, locks, tid, t) && Rank(t.pc) < 2 && PlanOf(users, book, t).Go?
    ensures var p := PlanOf(users, book, t);
      TxnOK(users, book, Take(locks, tid, p.take), tid, p.next)
  {
    var p := PlanOf(users, book, t);
    var locks' := Take(locks, tid, p.take);
    forall o | o in p.next.accounts ensures AccountOK(users, book, locks', tid, p.next, o) {
      if o in t.accounts {
        assert AccountOK(users, book, locks, tid, t, o);
      }
    }
  }

  /** Slots stay resolved when only the phase changes. */
  lemma SamePlace(users: set<nat>, book: Book, locks: map<Resource, nat>, locks': map<Resource, nat>, tid: nat,
    t: Txn, t': Txn)
    requires SlotsOK(users, book, locks, tid, t) && Rank(t.pc) >= 2 && Rank(t'.pc) >= 2
    requires t'.cmd == t.cmd && t'.accounts == t.accounts && t'.created == t.created
    requires forall r :: Held(locks, tid, r) ==> Held(locks', tid, r)
    ensures SlotsOK(users, book, locks', tid, t')
  {
  }

  lemma PhaseKeeps(users: set<nat>, book: Book, locks: map<Resource, nat>, tid: nat, t: Txn)
    requires HasBoth(t) && PhaseOK(book, locks, tid, t) && Rank(t.pc) >= 2 && PlanOf(users, book, t).Go?
    requires Source(t) != Target(t)
    ensures var p := PlanOf(users, book, t);
      HasBoth(p.next) && PhaseOK(book, Take(locks, tid, p.take), tid, p.next)
  {
    SumAppendEntry(book.postings, t.cmd.call, Source(t), Target(t), {Source(t)});
  }

  lemma LaterPlan(users: set<nat>, book: Book, t: Txn)
    requires WellFormed(t) && Rank(t.pc) >= 2 && PlanOf(users, book, t).Go?
    ensures var t' := PlanOf(users, book, t).next;
      Rank(t'.pc) >= 2 && t'.cmd == t.cmd && t'.accounts == t.accounts && t'.created == t.created
  {
  }

  lemma LaterGoKeeps(users: set<nat>, book: Book, locks: map<Resource, nat>, tid: nat, t: Txn, p: Plan)
    requires SlotsOK(users, book, locks, tid, t) && Rank(t.pc) >= 2 && HasBoth(t) && PhaseOK(book, locks, tid, t)
    requires Injective(book.wallets) && Fresh(book, t.cmd) && p == PlanOf(users, book, t) && p.Go?
    ensures TxnOK(users, book, Take(locks, tid, p.take), tid, p.next)
  {
    Resolved(users, book, locks, tid, t);
    LaterPlan(users, book, t);
    SamePlace(users, book, locks, Take(locks, tid, p.take), tid, t, p.next);
    PhaseKeeps(users, book, locks, tid, t);
  }

  lemma GoKeeps(users: set<nat>, book: Book, locks: map<Resource, nat>, tid: nat, t: Txn)
    requires TxnOK(users, book, locks, tid, t) && Injective(book.wallets) && Fresh(book, t.cmd)
    requires PlanOf(users, book, t).Go?
    ensures var p := PlanOf(users, book, t);
      TxnOK(users, book, Take(locks, tid, p.take), tid, p.next)
  {
    if Rank(t.pc) < 2 {
      EnteredOK(users, book, locks, tid, t);
    } else {
      LaterGoKeeps(users, book, locks, tid, t, PlanOf(users, book, t));
    }
  }

  lemma EntryMayHold(users: set<nat>, book: Book, t: Txn, r: Resource)
    requires WellFormed(t) && Rank(t.pc) < 2 && PlanOf(users, book, t).Go? && t.created <= t.accounts.Keys
    requires MayHold(t, r) || PlanOf(users, book, t).take == Some(r)
    ensures MayHold(PlanOf(users, book, t).next, r)
  {
  }

  lemma GoMayHold(users: set<nat>, book: Book, t: Txn, r: Resource)
    requires WellFormed(t) && PlanOf(users, book, t).Go?
    requires MayHold(t, r) || PlanOf(users, book, t).take == Some(r)
    requires Rank(t.pc) < 2 ==> t.created <= t.accounts.Keys
    ensures MayHold(PlanOf(users, book, t).next, r)
  {
    if Rank(t.pc) < 2 {
      EntryMayHold(users, book, t, r);
    } else {
      LaterPlan(users, book, t);
    }
  }

  /** Every refusal is the serial ledger's refusal at that moment. */
  lemma RefuseIsExecute(users: set<nat>, book: Book, locks: map<Resource, nat>, tid: nat, t: Txn)
    requires TxnOK(users, book, locks, tid, t) && Injective(book.wallets) && Fresh(book, t.cmd)
    requires PlanOf(users, book, t).Refuse?
    ensures Execute(users, book, t.cmd) == (book, Rejected(PlanOf(users, book, t).error))
  {
    if Rank(t.pc) >= 2 {
      Resolved(users, book, locks, tid, t);
      SumAppendEntry(book.postings, t.cmd.call, Source(t), Target(t), {Source(t)});
    }
  }

  lemma CommitOpens(users: set<nat>, book: Book, locks: map<Resource, nat>, tid: nat, t: Txn)
    requires SlotsOK(users, book, locks, tid, t) && t.pc == Ready
    ensures Commit(book, t).wallets == Opened(book, t.cmd).wallets
  {
    var source, target := t.cmd.call.Source(), t.cmd.call.Target();
    assert t.accounts.Keys == {source, target};
    assert AccountOK(users, book, locks, tid, t, source);
    assert AccountOK(users, book, locks, tid, t, target);
    var w, o := Commit(book, t).wallets, Opened(book, t.cmd).wallets;
    assert forall p :: p in w <==> p in o;
  }

  /** What a transaction commits is what the serial ledger answers at that moment. */
  lemma CommitIsExecute(users: set<nat>, book: Book, locks: map<Resource, nat>, tid: nat, t: Txn)
    requires TxnOK(users, book, locks, tid, t) && Injective(book.wallets) && Fresh(book, t.cmd) && t.pc == Ready
    ensures Execute(users, book, t.cmd) == (Commit(book, t), t.outcome)
  {
    Resolved(users, book, locks, tid, t);
    CommitOpens(users, book, locks, tid, t);
  }

  /** The fallback of a lost insert race never finds its own request. */
  lemma FallbackNeverDedupes(users: set<nat>, book: Book, locks: map<Resource, nat>, tid: nat, t: Txn)
    requires TxnOK(users, book, locks, tid, t) && t.pc == InsertId && t.cmd.call.id in book.kinds
    ensures PlanOf(users, book, t) == Refuse(IdReused)
    ensures forall p :: p in book.postings && p.tx == t.cmd.call.id ==> p.account != Source(t) && p.account != Target(t)
  {
    var leg := Leg(Source(t), -t.cmd.call.amount);
    if leg in Legs(book.postings, t.cmd.call.id) {
      LegsFrom(book.postings, t.cmd.call.id, leg);
    }
    assert leg in multiset(Expected(t.cmd.call, Source(t), Target(t)));
  }

  // ----- what a commit leaves alone in the others -----

  lemma CommitFrameSlots(users: set<nat>, book: Book, locks: map<Resource, nat>, mine: nat, tm: Txn, other: nat, t: Txn)
    requires SlotsOK(users, book, locks, mine, tm) && SlotsOK(users, book, locks, other, t) && mine != other
    ensures SlotsOK(users, Commit(book, tm), locks, other, t)
  {
  }

  /** What the other transaction reads of the book survives rows on other accounts. */
  lemma CommitFrameBook(book: Book, tm: Txn, t: Txn)
    requires ValidBook(book) && HasBoth(tm) && HasBoth(t) && tm.outcome == Posted
    requires tm.cmd.call.id !in book.kinds && tm.legs == Entry(tm.cmd.call, Source(tm), Target(tm))
    requires {Source(tm), Target(tm)} !! {Source(t), Target(t)}
    ensures var id, accounts, book' := t.cmd.call.id, {Source(t), Target(t)}, Commit(book, tm);
      && book'.kinds == book.kinds[tm.cmd.call.id := tm.cmd.call.Kind()]
      && Sum(book'.postings, {Source(t)}) == Sum(book.postings, {Source(t)})
      && (id in book.kinds ==> Legs(book'.postings, id) == Legs(book.postings, id))
      && (id !in book.kinds || Untouched(book, id, accounts) ==> Untouched(book', id, accounts))
  {
    LegsAppendEntry(book.postings, tm.cmd.call, Source(tm), Target(tm), t.cmd.call.id);
    SumAppendEntry(book.postings, tm.cmd.call, Source(tm), Target(tm), {Source(t)});
  }

  /** Two transactions past their row locks move different accounts. */
  lemma RowsApart(book: Book, locks: map<Resource, nat>, mine: nat, tm: Txn, other: nat, t: Txn)
    requires mine != other && Rank(tm.pc) > 3 && Rank(t.pc) > 3
    requires HasBoth(tm) && PhaseOK(book, locks, mine, tm) && HasBoth(t) && PhaseOK(book, locks, other, t)
    ensures {Source(tm), Target(tm)} !! {Source(t), Target(t)}
  {
  }

  lemma CommitFramePhase(book: Book, locks: map<Resource, nat>, mine: nat, tm: Txn, other: nat, t: Txn)
    requires ValidBook(book) && mine != other && tm.pc == Ready && tm.outcome == Posted
    requires HasBoth(tm) && PhaseOK(book, locks, mine, tm) && HasBoth(t) && PhaseOK(book, locks, other, t)
    ensures PhaseOK(Commit(book, tm), locks, other, t)
  {
    if Rank(t.pc) > 3 {
      RowsApart(book, locks, mine, tm, other, t);
      CommitFrameBook(book, tm, t);
    }
  }

  lemma SameRowsSamePhase(book: Book, book': Book, locks: map<Resource, nat>, tid: nat, t: Txn)
    requires HasBoth(t) && PhaseOK(book, locks, tid, t) && book'.kinds == book.kinds && book'.postings == book.postings
    ensures PhaseOK(book', locks, tid, t)
  {
  }

  lemma CommitFrame(users: set<nat>, book: Book, locks: map<Resource, nat>, mine: nat, tm: Txn, other: nat, t: Txn)
    requires ValidBook(book) && mine != other && tm.pc == Ready
    requires TxnOK(users, book, locks, mine, tm) && TxnOK(users, book, locks, other, t)
    ensures TxnOK(users, Commit(book, tm), locks, other, t)
  {
    CommitFrameSlots(users, book, locks, mine, tm, other, t);
    if Rank(t.pc) >= 2 {
      if tm.outcome == Posted {
        CommitFramePhase(book, locks, mine, tm, other, t);
      } else {
        SameRowsSamePhase(book, Commit(book, tm), locks, other, t);
      }
    }
  }

  // ----- every action keeps the invariant -----

  lemma GoKeepsTxns(users: set<nat>, book: Book, locks: map<Resource, nat>, txns: map<nat, Txn>, tid: nat, next: Txn,
                    take: Option<Resource>)
    requires TxnsOK(users, book, locks, txns)
    requires take.Some? && take.value in locks ==> locks[take.value] == tid
    requires TxnOK(users, book, Take(locks, tid, take), tid, next)
    ensures TxnsOK(users, book, Take(locks, tid, take), txns[tid := next])
  {
    forall i | i in txns && i != tid ensures TxnOK(users, book, Take(locks, tid, take), i, txns[i]) {
      FrameLocks(users, book, locks, Take(locks, tid, take), i, txns[i]);
    }
  }

  lemma GoKeepsLocks(users: set<nat>, book: Book, locks: map<Resource, nat>, txns: map<nat, Txn>, tid: nat)
    requires LocksOK(locks, txns) && tid in txns && WellFormed(txns[tid]) && PlanOf(users, book, txns[tid]).Go?
    requires Rank(txns[tid].pc) < 2 ==> txns[tid].created <= txns[tid].accounts.Keys
    ensures var p := PlanOf(users, book, txns[tid]); LocksOK(Take(locks, tid, p.take), txns[tid := p.next])
  {
    var p := PlanOf(users, book, txns[tid]);
    var locks' := Take(locks, tid, p.take);
    forall r | r in locks' && locks'[r] == tid ensures MayHold(p.next, r) {
      GoMayHold(users, book, txns[tid], r);
    }
  }

  lemma GoKeepsRows(book: Book, txns: map<nat, Txn>, taken: set<nat>, tid: nat, next: Txn)
    requires RowsOK(book, txns, taken) && tid in txns && next.cmd == txns[tid].cmd
    ensures RowsOK(book, txns[tid := next], taken)
  {
  }

  lemma PlanTakesWanted(users: set<nat>, book: Book, t: Txn)
    requires WellFormed(t) && PlanOf(users, book, t).Go?
    ensures PlanOf(users, book, t).take.Some? ==> Wants(book, t) == PlanOf(users, book, t).take
    ensures PlanOf(users, book, t).next.cmd == t.cmd
  {
  }

  lemma OneOK(s: Sys, tid: nat)
    requires Safe(s) && tid in s.txns
    ensures TxnOK(s.users, s.book, s.locks, tid, s.txns[tid]) && Fresh(s.book, s.txns[tid].cmd)
    ensures Injective(s.book.wallets)
    ensures SlotsOK(s.users, s.book, s.locks, tid, s.txns[tid])
  {
  }

  lemma GoKeepsSafe(s: Sys, tid: nat)
    requires Safe(s) && Enabled(s, Advance(tid)) && PlanOf(s.users, s.book, s.txns[tid]).Go?
    ensures Safe(Step(s, tid))
  {
    var t := s.txns[tid];
    var p := PlanOf(s.users, s.book, t);
    PlanTakesWanted(s.users, s.book, t);
    OneOK(s, tid);
    GoKeeps(s.users, s.book, s.locks, tid, t);
    GoKeepsTxns(s.users, s.book, s.locks, s.txns, tid, p.next, p.take);
    GoKeepsLocks(s.users, s.book, s.locks, s.txns, tid);
    GoKeepsRows(s.book, s.txns, s.taken, tid, p.next);
  }

  lemma ReleaseKeepsTxns(users: set<nat>, book: Book, locks: map<Resource, nat>, locks': map<Resource, nat>,
                         txns: map<nat, Txn>, tid: nat)
    requires TxnsOK(users, book, locks, txns)
    requires forall r :: r in locks && locks[r] != tid ==> r in locks' && locks'[r] == locks[r]
    ensures TxnsOK(users, book, locks', txns - {tid})
  {
    forall i | i in txns && i != tid ensures TxnOK(users, book, locks', i, txns[i]) {
      FrameLocks(users, book, locks, locks', i, txns[i]);
    }
  }

  lemma ReleaseKeepsLocks(locks: map<Resource, nat>, txns: map<nat, Txn>, tid: nat)
    requires LocksOK(locks, txns)
    ensures LocksOK(Unlocked(locks, tid), txns - {tid})
  {
  }

  lemma ReleaseKeepsRows(book: Book, txns: map<nat, Txn>, taken: set<nat>, tid: nat)
    requires RowsOK(book, txns, taken)
    ensures RowsOK(book, txns - {tid}, taken)
  {
  }

  lemma ReleaseKeepsSafe(s: Sys, tid: nat)
    requires Safe(s)
    ensures Safe(Release(s, tid))
  {
    ReleaseKeepsLocks(s.locks, s.txns, tid);
    ReleaseKeepsRows(s.book, s.txns, s.taken, tid);
    ReleaseKeepsTxns(s.users, s.book, s.locks, Unlocked(s.locks, tid), s.txns, tid);
  }

  lemma CommittedRows(s: Sys, tid: nat)
    requires RowsOK(s.book, s.txns, s.taken) && tid in s.txns
    requires SlotsOK(s.users, s.book, s.locks, tid, s.txns[tid]) && s.txns[tid].pc == Ready
    ensures RowsOK(Commit(s.book, s.txns[tid]), s.txns - {tid}, s.taken)
  {
    var t := s.txns[tid];
    var book', txns := Commit(s.book, t), s.txns - {tid};
    forall o | o in book'.wallets
      ensures (o in s.book.wallets && book'.wallets[o] == s.book.wallets[o])
           || book'.wallets[o] in {t.cmd.freshSource, t.cmd.freshTarget}
    {
      if o in t.created {
        assert AccountOK(s.users, s.book, s.locks, tid, t, o);
      }
    }
    forall i | i in txns ensures Fresh(book', txns[i].cmd) {
      assert Fresh(s.book, s.txns[i].cmd) && Apart(t.cmd, s.txns[i].cmd);
    }
  }

  lemma CommitKeepsTxns(s: Sys, tid: nat)
    requires TxnsOK(s.users, s.book, s.locks, s.txns) && ValidBook(s.book) && tid in s.txns && s.txns[tid].pc == Ready
    ensures TxnsOK(s.users, Commit(s.book, s.txns[tid]), s.locks, s.txns - {tid})
  {
    var t := s.txns[tid];
    forall i | i in s.txns && i != tid ensures TxnOK(s.users, Commit(s.book, t), s.locks, i, s.txns[i]) {
      CommitFrame(s.users, s.book, s.locks, tid, t, i, s.txns[i]);
    }
  }

  lemma CommitKeepsValid(s: Sys, tid: nat)
    requires Safe(s) && tid in s.txns && s.txns[tid].pc == Ready
    ensures ValidBook(Commit(s.book, s.txns[tid]))
    ensures Execute(s.users, s.book, s.txns[tid].cmd) == (Commit(s.book, s.txns[tid]), s.txns[tid].outcome)
  {
    OneOK(s, tid);
    CommitIsExecute(s.users, s.book, s.locks, tid, s.txns[tid]);
    ExecuteKeepsValid(s.users, s.book, s.txns[tid].cmd);
  }

  lemma CommitKeepsParts(s: Sys, tid: nat, book': Book)
    requires Safe(s) && tid in s.txns && s.txns[tid].pc == Ready && book' == Commit(s.book, s.txns[tid])
    ensures RowsOK(book', s.txns - {tid}, s.taken)
    ensures TxnsOK(s.users, book', s.locks, s.txns - {tid})
  {
    OneOK(s, tid);
    CommittedRows(s, tid);
    CommitKeepsTxns(s, tid);
  }

  lemma UnlockKeeps(users: set<nat>, book: Book, locks: map<Resource, nat>, txns: map<nat, Txn>, tid: nat)
    requires LocksOK(locks, txns) && TxnsOK(users, book, locks, txns - {tid})
    ensures LocksOK(Unlocked(locks, tid), txns - {tid}) && TxnsOK(users, book, Unlocked(locks, tid), txns - {tid})
  {
    ReleaseKeepsLocks(locks, txns, tid);
    var rest := txns - {tid};
    ReleaseKeepsTxns(users, book, locks, Unlocked(locks, tid), rest, tid);
    assert rest - {tid} == rest;
  }

  lemma CommitKeepsSafe(s: Sys, tid: nat, book': Book)
    requires Safe(s) && tid in s.txns && s.txns[tid].pc == Ready && book' == Commit(s.book, s.txns[tid])
    ensures Safe(Release(s, tid).(book := book'))
  {
    CommitKeepsValid(s, tid);
    CommitKeepsParts(s, tid, book');
    UnlockKeeps(s.users, book', s.locks, s.txns, tid);
  }

  lemma CommandsAppend(log: seq<Answer>, a: Answer)
    ensures Commands(log + [a]) == Commands(log) + [a.cmd]
  {
  }

  lemma AppendLog(s: Sys, s': Sys, a: Answer)
    requires Linear(s) && s'.users == s.users && s'.log == s.log + [a]
    requires Fresh(s.book, a.cmd) && Execute(s.users, s.book, a.cmd) == (s'.book, a.outcome)
    ensures Linear(s')
  {
    CommandsAppend(s.log, a);
    var cmds := Commands(s.log);
    assert (cmds + [a.cmd])[..|cmds|] == cmds;
    forall i | 0 <= i < |s'.log| ensures SerialAnswer(s'.users, s'.log, i) {
      if i < |s.log| {
        assert s'.log[..i] == s.log[..i];
        assert SerialAnswer(s.users, s.log, i);
      } else {
        assert s'.log[..i] == s.log;
      }
    }
  }

  lemma FinishMeansReady(users: set<nat>, book: Book, t: Txn)
    requires WellFormed(t) && PlanOf(users, book, t).Finish?
    ensures t.pc == Ready
  {
  }

  lemma RefuseKeepsSafe(s: Sys, tid: nat)
    requires Safe(s) && Enabled(s, Advance(tid)) && PlanOf(s.users, s.book, s.txns[tid]).Refuse?
    ensures Safe(Step(s, tid))
  {
    ReleaseKeepsSafe(s, tid);
  }

  lemma FinishShape(s: Sys, tid: nat)
    requires Enabled(s, Advance(tid)) && PlanOf(s.users, s.book, s.txns[tid]).Finish?
    ensures s.txns[tid].pc == Ready
    ensures Step(s, tid) == Release(s, tid).(book := Commit(s.book, s.txns[tid]), log := Step(s, tid).log)
  {
  }

  lemma LogIsFree(s: Sys, log: seq<Answer>)
    requires Safe(s)
    ensures Safe(s.(log := log))
  {
  }

  lemma FinishKeepsSafe(s: Sys, tid: nat)
    requires Safe(s) && Enabled(s, Advance(tid)) && PlanOf(s.users, s.book, s.txns[tid]).Finish?
    ensures Safe(Step(s, tid))
  {
    FinishShape(s, tid);
    CommitKeepsSafe(s, tid, Commit(s.book, s.txns[tid]));
    LogIsFree(Release(s, tid).(book := Commit(s.book, s.txns[tid])), Step(s, tid).log);
  }

  lemma StepKeepsSafe(s: Sys, tid: nat)
    requires Safe(s) && Enabled(s, Advance(tid))
    ensures Safe(Step(s, tid))
  {
    match PlanOf(s.users, s.book, s.txns[tid]) {
      case Go(_, _) => GoKeepsSafe(s, tid);
      case Refuse(_) => RefuseKeepsSafe(s, tid);
      case Finish => FinishKeepsSafe(s, tid);
    }
  }

  predicate Serves(s: Sys, s': Sys, a: Answer) {
    && s'.log == s.log + [a] && Fresh(s.book, a.cmd)
    && Execute(s.users, s.book, a.cmd) == (s'.book, a.outcome)
  }

  /** A step that answers answers as the serial ledger would now. */
  lemma StepIsSerial(s: Sys, tid: nat)
    requires Enabled(s, Advance(tid)) && Injective(s.book.wallets) && Fresh(s.book, s.txns[tid].cmd)
    requires TxnOK(s.users, s.book, s.locks, tid, s.txns[tid])
    ensures var s' := Step(s, tid);
      s'.users == s.users && ((s'.log == s.log && s'.book == s.book) || exists a: Answer :: Serves(s, s', a))
  {
    var t := s.txns[tid];
    match PlanOf(s.users, s.book, t) {
      case Go(_, _) =>
      case Refuse(error) =>
        RefuseIsExecute(s.users, s.book, s.locks, tid, t);
        assert Serves(s, Step(s, tid), Answer(t.cmd, Rejected(error)));
      case Finish =>
        FinishMeansReady(s.users, s.book, t);
        CommitIsExecute(s.users, s.book, s.locks, tid, t);
        assert Serves(s, Step(s, tid), Answer(t.cmd, t.outcome));
    }
  }

  lemma StepKeepsLinear(s: Sys, tid: nat, s': Sys)
    requires Linear(s) && s'.users == s.users
    requires (s'.log == s.log && s'.book == s.book) || exists a: Answer :: Serves(s, s', a)
    ensures Linear(s')
  {
    if !(s'.log == s.log && s'.book == s.book) {
      var a: Answer :| Serves(s, s', a);
      AppendLog(s, s', a);
    }
  }

  lemma BeginKeepsRows(book: Book, txns: map<nat, Txn>, taken: set<nat>, tid: nat, t: Txn)
    requires RowsOK(book, txns, taken) && t.cmd.freshSource != t.cmd.freshTarget
    requires t.cmd.freshSource !in taken && t.cmd.freshTarget !in taken
    ensures RowsOK(book, txns[tid := t], taken + {t.cmd.freshSource, t.cmd.freshTarget})
    ensures RowsOK(book, txns, taken + {t.cmd.freshSource, t.cmd.freshTarget})
    ensures Fresh(book, t.cmd)
  {
  }

  lemma BeginKeepsTxns(users: set<nat>, book: Book, locks: map<Resource, nat>, txns: map<nat, Txn>, tid: nat,
    cmd: Command)
    requires TxnsOK(users, book, locks, txns) && LocksOK(locks, txns) && tid !in txns && Validate(cmd.call).None?
    ensures var txns' := txns[tid := Txn(cmd, Slot0, map[], {}, [], Posted)];
      TxnsOK(users, book, locks, txns') && LocksOK(locks, txns')
  {
  }

  lemma BeginKeepsSafe(s: Sys, tid: nat, cmd: Command)
    requires Safe(s) && Enabled(s, Begin(tid, cmd))
    ensures Safe(Next(s, Begin(tid, cmd))) && Fresh(s.book, cmd)
  {
    var s' := Next(s, Begin(tid, cmd));
    BeginKeepsRows(s.book, s.txns, s.taken, tid, Txn(cmd, Slot0, map[], {}, [], Posted));
    if Validate(cmd.call).None? {
      BeginKeepsTxns(s.users, s.book, s.locks, s.txns, tid, cmd);
    }
    assert s'.users == s.users && s'.book == s.book && s'.locks == s.locks;
  }

  lemma NextKeepsInv(s: Sys, a: Action)
    requires Inv(s) && Enabled(s, a)
    ensures Inv(Next(s, a))
  {
    match a {
      case Begin(tid, cmd) =>
        BeginKeepsSafe(s, tid, cmd);
        if Validate(cmd.call).Some? {
          AppendLog(s, Next(s, a), Answer(cmd, Rejected(Validate(cmd.call).value)));
        }
      case Advance(tid) =>
        StepKeepsSafe(s, tid);
        OneOK(s, tid);
        StepIsSerial(s, tid);
        StepKeepsLinear(s, tid, Next(s, a));
      case Crash(tid) =>
        ReleaseKeepsSafe(s, tid);
    }
  }

  lemma {:induction false} ReachesInv(s: Sys, actions: seq<Action>, s': Sys)
    requires Inv(s) && Reaches(s, actions, s')
    ensures Inv(s')
    decreases |actions|
  {
    if actions != [] {
      NextKeepsInv(s, actions[0]);
      ReachesInv(Next(s, actions[0]), actions[1..], s');
    }
  }

  lemma {:induction false} UsersStay(s: Sys, actions: seq<Action>, s': Sys)
    requires Reaches(s, actions, s')
    ensures s'.users == s.users
    decreases |actions|
  {
    if actions != [] {
      UsersStay(Next(s, actions[0]), actions[1..], s');
    }
  }

  /**
   Whatever the interleaving, and whichever transactions fail, the committed
   book is the serial run of the answered requests, in answer order, and each
   request was answered as that serial run answers it.
   */
  lemma Linearizable(users: set<nat>, actions: seq<Action>, s: Sys)
    requires Reaches(Init(users), actions, s)
    ensures s.book == Run(users, EMPTY, Commands(s.log)) && AllFresh(users, Commands(s.log))
    ensures forall i :: 0 <= i < |s.log| ==> SerialAnswer(users, s.log, i)
  {
    ReachesInv(Init(users), actions, s);
    UsersStay(Init(users), actions, s);
  }

  /** So the laws of the serial ledger hold of every committed book. */
  lemma CommittedBookLaws(users: set<nat>, actions: seq<Action>, s: Sys)
    requires Reaches(Init(users), actions, s)
    ensures ValidBook(s.book) && Solvent(s.book, Issued(users, Commands(s.log)))
  {
    Linearizable(users, actions, s);
    RunKeepsValid(users, Commands(s.log));
    RunSolvent(users, Commands(s.log));
  }

  /** A lost insert race is only ever lost to a request on two other accounts. */
  lemma RaceIsBetweenStrangers(users: set<nat>, actions: seq<Action>, s: Sys, tid: nat)
    requires Reaches(Init(users), actions, s) && tid in s.txns
    requires s.txns[tid].pc == InsertId && s.txns[tid].cmd.call.id in s.book.kinds
    ensures HasBoth(s.txns[tid]) && PlanOf(users, s.book, s.txns[tid]) == Refuse(IdReused)
    ensures forall p :: p in s.book.postings && p.tx == s.txns[tid].cmd.call.id ==>
      p.account != Source(s.txns[tid]) && p.account != Target(s.txns[tid])
  {
    ReachesInv(Init(users), actions, s);
    UsersStay(Init(users), actions, s);
    OneOK(s, tid);
    FallbackNeverDedupes(s.users, s.book, s.locks, tid, s.txns[tid]);
  }

  // ----- no deadlock -----

  /** The one global order in which everything is acquired. */
  predicate Below(a: Resource, b: Resource) {
    match (a, b)
    case (Slot(x), Slot(y)) => if x.Treasury? then y.User? else y.User? && x.id < y.id
    case (Row(x), Row(y)) => x < y
    case (Id(x), Id(y)) => x < y
    case (Slot(_), _) => true
    case (Row(_), Id(_)) => true
    case _ => false
  }

  predicate WaitsFor(s: Sys, i: nat, j: nat) {
    && i in s.txns && WellFormed(s.txns[i]) && Blocked(s, i)
    && s.locks[Wants(s.book, s.txns[i]).value] == j
  }

  /** What transaction `i` is about to take (a placeholder when it needs nothing). */
  function Wanted(s: Sys, i: nat): Resource {
    if i in s.txns && WellFormed(s.txns[i]) && Wants(s.book, s.txns[i]).Some?
    then Wants(s.book, s.txns[i]).value else Slot(Treasury)
  }

  /** Whatever a transaction holds comes before what it asks for next. */
  lemma HoldsBelowWanted(s: Sys, i: nat, r: Resource)
    requires Safe(s) && i in s.txns && Held(s.locks, i, r)
    requires WellFormed(s.txns[i]) && Wants(s.book, s.txns[i]).Some?
    ensures Below(r, Wanted(s, i))
  {
    OneOK(s, i);
    var t := s.txns[i];
    assert MayHold(t, r);
    if Rank(t.pc) >= 2 {
      Resolved(s.users, s.book, s.locks, i, t);
    }
  }

  lemma WaitClimbs(s: Sys, i: nat, j: nat, k: nat)
    requires Safe(s) && WaitsFor(s, i, j) && WaitsFor(s, j, k)
    ensures Below(Wanted(s, i), Wanted(s, j))
  {
    HoldsBelowWanted(s, j, Wanted(s, i));
  }

  function After(cycle: seq<nat>, k: nat): nat
    requires k < |cycle|
  {
    if k + 1 == |cycle| then cycle[0] else cycle[k + 1]
  }

  predicate IsWaitCycle(s: Sys, cycle: seq<nat>) {
    |cycle| > 0 && forall k :: 0 <= k < |cycle| ==> WaitsFor(s, cycle[k], After(cycle, k))
  }

  lemma BelowTransitive(a: Resource, b: Resource, c: Resource)
    requires Below(a, b) && Below(b, c)
    ensures Below(a, c)
  {
  }

  lemma {:induction false} WaitsClimb(s: Sys, cycle: seq<nat>, k: nat)
    requires Safe(s) && IsWaitCycle(s, cycle) && 0 < k < |cycle|
    ensures Below(Wanted(s, cycle[0]), Wanted(s, cycle[k]))
  {
    assert WaitsFor(s, cycle[k - 1], After(cycle, k - 1)) && WaitsFor(s, cycle[k], After(cycle, k));
    WaitClimbs(s, cycle[k - 1], cycle[k], After(cycle, k));
    if k > 1 {
      WaitsClimb(s, cycle, k - 1);
      BelowTransitive(Wanted(s, cycle[0]), Wanted(s, cycle[k - 1]), Wanted(s, cycle[k]));
    }
  }

  lemma NoWaitCycle(users: set<nat>, actions: seq<Action>, s: Sys, cycle: seq<nat>)
    requires Reaches(Init(users), actions, s)
    ensures !IsWaitCycle(s, cycle)
  {
    ReachesInv(Init(users), actions, s);
    if IsWaitCycle(s, cycle) {
      var last := |cycle| - 1;
      assert WaitsFor(s, cycle[last], After(cycle, last)) && WaitsFor(s, cycle[0], After(cycle, 0));
      WaitClimbs(s, cycle[last], cycle[0], After(cycle, 0));
      if last > 0 {
        WaitsClimb(s, cycle, last);
        BelowTransitive(Wanted(s, cycle[0]), Wanted(s, cycle[last]), Wanted(s, cycle[0]));
      }
    }
  }

  /** `Below` is a strict total order: nothing is above both of two and their larger. */
  lemma OneAbove(a: Resource, b: Resource, c: Resource)
    ensures !Below(a, a) && !(Below(a, b) && Below(b, a))
    ensures !Below(a, b) && !Below(b, c) ==> !Below(a, c)
  {
  }

  /** Some transaction waits for a resource that no other waits above. */
  lemma {:induction false} TopWaiter(s: Sys, ids: set<nat>) returns (top: nat)
    requires ids != {}
    ensures top in ids
    ensures forall i :: i in ids ==> !Below(Wanted(s, top), Wanted(s, i))
  {
    top :| top in ids;
    var rest := ids - {top};
    if rest == {} {
      assert ids == {top};
      OneAbove(Wanted(s, top), Wanted(s, top), Wanted(s, top));
    } else {
      var first := top;
      var other := TopWaiter(s, rest);
      if Below(Wanted(s, top), Wanted(s, other)) {
        top := other;
      }
      forall i | i in ids ensures !Below(Wanted(s, top), Wanted(s, i)) {
        assert i == first || i in rest;
        OneAbove(Wanted(s, first), Wanted(s, other), Wanted(s, i));
      }
    }
  }

  /** Whenever requests are in flight, one of them can take its next step. */
  lemma NeverStuck(users: set<nat>, actions: seq<Action>, s: Sys)
    requires Reaches(Init(users), actions, s) && s.txns.Keys != {}
    ensures exists tid :: tid in s.txns && Enabled(s, Advance(tid))
  {
    ReachesInv(Init(users), actions, s);
    var top := TopWaiter(s, s.txns.Keys);
    OneOK(s, top);
    if Blocked(s, top) {
      var holder := s.locks[Wanted(s, top)];
      OneOK(s, holder);
      if Blocked(s, holder) {
        WaitClimbs(s, top, holder, s.locks[Wanted(s, holder)]);
      } else {
        assert Enabled(s, Advance(holder));
      }
    } else {
      assert Enabled(s, Advance(top));
    }
  }

  // ----- everybody is answered -----

  /** Phases still ahead of the transactions in flight. */
  function Ahead(txns: map<nat, Txn>): set<(nat, nat)> {
    set i, k | i in txns && k in {1, 2, 3, 4, 5, 6, 7, 8, 9} && Rank(txns[i].pc) < k :: (i, k)
  }

  lemma PlanGoesOn(users: set<nat>, book: Book, t: Txn)
    requires WellFormed(t) && PlanOf(users, book, t).Go?
    ensures Rank(PlanOf(users, book, t).next.pc) > Rank(t.pc)
  {
  }

  lemma {:induction false} SmallerSet(a: set<(nat, nat)>, b: set<(nat, nat)>)
    requires a < b
    ensures |a| < |b|
  {
    var x :| x in b && x !in a;
    if a == {} {
    } else {
      var y :| y in a;
      SmallerSet(a - {y}, b - {y});
    }
  }

  lemma AdvanceShrinks(s: Sys, tid: nat)
    requires Enabled(s, Advance(tid))
    ensures |Ahead(Next(s, Advance(tid)).txns)| < |Ahead(s.txns)|
  {
    var t, s' := s.txns[tid], Next(s, Advance(tid));
    if PlanOf(s.users, s.book, t).Go? {
      PlanGoesOn(s.users, s.book, t);
    }
    var k := Rank(t.pc) + 1;
    assert (tid, k) in Ahead(s.txns) && (tid, k) !in Ahead(s'.txns);
    assert Ahead(s'.txns) <= Ahead(s.txns);
    SmallerSet(Ahead(s'.txns), Ahead(s.txns));
  }

  /** An advancing transaction stays in flight or gets its answer. */
  lemma AdvanceAnswers(s: Sys, tid: nat)
    requires Enabled(s, Advance(tid))
    ensures var s' := Next(s, Advance(tid));
      |s'.log| + |s'.txns| == |s.log| + |s.txns|
  {
    assert (s.txns - {tid}).Keys == s.txns.Keys - {tid};
    assert |(s.txns - {tid}).Keys| == |s.txns| - 1;
  }

  lemma {:induction false} ReachesThen(s: Sys, actions: seq<Action>, s': Sys, a: Action)
    requires Reaches(s, actions, s') && Enabled(s', a)
    ensures Reaches(s, actions + [a], Next(s', a))
    decreases |actions|
  {
    if actions == [] {
      assert [a][1..] == [] && actions + [a] == [a];
    } else {
      assert (actions + [a])[1..] == actions[1..] + [a];
      ReachesThen(Next(s, actions[0]), actions[1..], s', a);
    }
  }

  lemma SomebodyAdvances(users: set<nat>, actions: seq<Action>, s: Sys) returns (tid: nat, s': Sys)
    requires Reaches(Init(users), actions, s) && s.txns.Keys != {}
    ensures Reaches(Init(users), actions + [Advance(tid)], s')
    ensures |Ahead(s'.txns)| < |Ahead(s.txns)| && |s'.log| + |s'.txns| == |s.log| + |s.txns|
  {
    NeverStuck(users, actions, s);
    tid :| tid in s.txns && Enabled(s, Advance(tid));
    s' := Next(s, Advance(tid));
    ReachesThen(Init(users), actions, s, Advance(tid));
    AdvanceShrinks(s, tid);
    AdvanceAnswers(s, tid);
  }

  predicate OnlyAdvances(actions: seq<Action>) {
    forall a :: a in actions ==> a.Advance?
  }

  /** From any reachable state the requests in flight can all be run to their answers, none of them crashing. */
  lemma {:induction false} EverybodyIsAnswered(users: set<nat>, actions: seq<Action>, s: Sys)
    returns (more: seq<Action>, s': Sys)
    requires Reaches(Init(users), actions, s)
    ensures Reaches(Init(users), actions + more, s') && OnlyAdvances(more)
    ensures s'.txns.Keys == {} && |s'.log| == |s.log| + |s.txns|
    decreases |Ahead(s.txns)|
  {
    if s.txns.Keys == {} {
      more, s' := [], s;
      assert actions + [] == actions;
    } else {
      var tid, s1 := SomebodyAdvances(users, actions, s);
      var rest;
      rest, s' := EverybodyIsAnswered(users, actions + [Advance(tid)], s1);
      more := [Advance(tid)] + rest;
      assert actions + [Advance(tid)] + rest == actions + more;
    }
  }

  /** A request is answered at once when it is malformed, and is in flight otherwise. */
  lemma BegunIsInFlight(s: Sys, tid: nat, cmd: Command)
    requires Enabled(s, Begin(tid, cmd))
    ensures var s' := Next(s, Begin(tid, cmd));
      if Validate(cmd.call).Some? then s'.log
        == s.log + [Answer(cmd, Rejected(Validate(cmd.call).value))] && s'.txns == s.txns
      else tid in s'.txns && s'.txns[tid].cmd == cmd && s'.log == s.log
  {
  }
}
