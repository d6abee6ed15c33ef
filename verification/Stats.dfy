/**
 Message counters folded from the outbox. Durable receipts, not a watermark,
 select the work, so events may be committed in any id order, replayed, or
 handled by several workers that crash halfway, and still count exactly once.
 */
module Stats {
  import opened Prelude

  const BATCH := 200

  datatype Scope = Scope(user: nat, conversation: nat)

  /** An outbox row; `scope` is what a well-formed payload names. */
  datatype Event = Event(id: nat, countable: bool, scope: Option<Scope>)

  /** `known` are the scopes whose account and conversation exist. */
  datatype Db = Db(
    outbox: seq<Event>,
    known: set<Scope>,
    receipts: map<nat, Scope>,
    rejected: set<nat>,
    userCount: map<nat, nat>,
    scopeCount: map<Scope, nat>)

  datatype Verdict = Counted | Skipped | BadInput

  predicate Valid(known: set<Scope>, e: Event) {
    e.scope.Some? && e.scope.value in known
  }

  function Of<K>(counts: map<K, nat>, key: K): nat {
    if key in counts then counts[key] else 0
  }

  /** Receipt and both counters, in one transaction. */
  function Count(db: Db, id: nat, scope: Scope): Db {
    db.(receipts := db.receipts[id := scope],
        userCount := db.userCount[scope.user := Of(db.userCount, scope.user) + 1],
        scopeCount := db.scopeCount[scope := Of(db.scopeCount, scope) + 1])
  }

  function Process(db: Db, e: Event): (Db, Verdict) {
    if !e.countable then (db, Skipped)
    else if e.scope == None then (db, BadInput)
    else if e.id in db.receipts then (db, Skipped)
    else if e.scope.value !in db.known then (db, BadInput)
    else (Count(db, e.id, e.scope.value), Counted)
  }

  /** A worker's handling of one row: poison gets a receipt of its own. */
  function Handle(db: Db, e: Event): Db {
    var (db', verdict) := Process(db, e);
    if verdict == BadInput then db'.(rejected := db'.rejected + {e.id}) else db'
  }

  function HandleAll(db: Db, batch: seq<Event>): Db {
    if batch == [] then db else Handle(HandleAll(db, batch[..|batch| - 1]), batch[|batch| - 1])
  }

  function Receipted(db: Db): set<nat> {
    db.receipts.Keys + db.rejected
  }

  /** Countable rows without a receipt, lowest id first. */
  function Pending(outbox: seq<Event>, done: set<nat>): seq<Event> {
    if outbox == [] then []
    else (if outbox[0].countable && outbox[0].id !in done then [outbox[0]] else []) + Pending(outbox[1..], done)
  }

  function Batch(db: Db): seq<Event> {
    Take(Pending(db.outbox, Receipted(db)), BATCH)
  }

  // ----- workers -----

  datatype World = World(db: Db, queues: map<nat, seq<Event>>)

  datatype Step =
    | Publish(event: Event)
    | Poll(worker: nat)
    | Work(worker: nat)
    | Crash(worker: nat)
    | Replay(event: Event)

  predicate HasId(outbox: seq<Event>, id: nat) {
    exists i :: 0 <= i < |outbox| && outbox[i].id == id
  }

  function Place(e: Event, outbox: seq<Event>): seq<Event> {
    if outbox == [] || e.id <= outbox[0].id then [e] + outbox else [outbox[0]] + Place(e, outbox[1..])
  }

  function Next(w: World, step: Step): World {
    match step
    case Publish(e) => if HasId(w.db.outbox, e.id) then w else w.(db := w.db.(outbox := Place(e, w.db.outbox)))
    case Poll(k) => w.(queues := w.queues[k := Batch(w.db)])
    case Work(k) =>
      if k !in w.queues || w.queues[k] == [] then w
      else World(Handle(w.db, w.queues[k][0]), w.queues[k := w.queues[k][1..]])
    case Crash(k) => w.(queues := w.queues - {k})
    case Replay(e) => if e in w.db.outbox then w.(db := Process(w.db, e).0) else w
  }

  function Empty(known: set<Scope>): World {
    World(Db([], known, map[], {}, map[], map[]), map[])
  }

  function Play(known: set<Scope>, steps: seq<Step>): World {
    if steps == [] then Empty(known) else Next(Play(known, steps[..|steps| - 1]), steps[|steps| - 1])
  }

  // ----- counting -----

  /** What a counter counts: a user's messages, everywhere or in one conversation. */
  datatype Key = OfUser(user: nat) | OfScope(scope: Scope)

  predicate Hits(key: Key, scope: Scope) {
    if key.OfUser? then scope.user == key.user else scope == key.scope
  }

  function Counter(db: Db, key: Key): nat {
    if key.OfUser? then Of(db.userCount, key.user) else Of(db.scopeCount, key.scope)
  }

  /** How many outbox rows carry a success receipt for `key`. */
  function Tally(outbox: seq<Event>, receipts: map<nat, Scope>, key: Key): nat {
    if outbox == [] then 0
    else
      var e := outbox[0];
      (if e.id in receipts && Hits(key, receipts[e.id]) then 1 else 0) + Tally(outbox[1..], receipts, key)
  }

  /** How many outbox rows should count for `key`. */
  function Due(outbox: seq<Event>, known: set<Scope>, key: Key): nat {
    if outbox == [] then 0
    else
      var e := outbox[0];
      (if e.countable && Valid(known, e) && Hits(key, e.scope.value) then 1 else 0) + Due(outbox[1..], known, key)
  }

  // ----- invariant -----

  predicate ById(outbox: seq<Event>) {
    forall i, j :: 0 <= i < j < |outbox| ==> outbox[i].id < outbox[j].id
  }

  predicate ReceiptFor(outbox: seq<Event>, known: set<Scope>, id: nat, scope: Scope) {
    Event(id, true, Some(scope)) in outbox && scope in known
  }

  predicate RejectFor(outbox: seq<Event>, known: set<Scope>, id: nat) {
    exists e :: e in outbox && e.id == id && e.countable && !Valid(known, e)
  }

  predicate ReceiptsSound(db: Db) {
    && (forall id :: id in db.receipts ==> ReceiptFor(db.outbox, db.known, id, db.receipts[id]))
    && (forall id :: id in db.rejected ==> RejectFor(db.outbox, db.known, id))
  }

  ghost predicate CountersExact(db: Db) {
    forall key :: Counter(db, key) == Tally(db.outbox, db.receipts, key)
  }

  predicate QueuesFromOutbox(queues: map<nat, seq<Event>>, outbox: seq<Event>) {
    forall k :: k in queues ==> forall e :: e in queues[k] ==> e in outbox
  }

  ghost predicate Inv(db: Db) {
    ById(db.outbox) && ReceiptsSound(db) && CountersExact(db)
  }

  lemma {:induction false} TallyIgnores(outbox: seq<Event>, receipts: map<nat, Scope>, id: nat, scope: Scope, key: Key)
    requires !HasId(outbox, id)
    ensures Tally(outbox, receipts[id := scope], key) == Tally(outbox, receipts, key)
  {
    if outbox != [] {
      assert forall i :: 0 <= i < |outbox[1..]| ==> outbox[1..][i] == outbox[i + 1];
      TallyIgnores(outbox[1..], receipts, id, scope, key);
    }
  }

  lemma {:induction false} TallyOfOneMore(outbox: seq<Event>, receipts: map<nat, Scope>, e: Event, scope: Scope,
    key: Key)
    requires ById(outbox) && e in outbox && e.id !in receipts
    ensures Tally(outbox, receipts[e.id := scope], key)
      == Tally(outbox, receipts, key) + (if Hits(key, scope) then 1 else 0)
  {
    var rest := outbox[1..];
    assert outbox == [outbox[0]] + rest;
    if e in rest {
      TallyOfOneMore(rest, receipts, e, scope, key);
    } else {
      assert forall i :: 0 <= i < |rest| ==> rest[i].id > e.id;
      TallyIgnores(rest, receipts, e.id, scope, key);
    }
  }

  lemma {:induction false} PlaceFacts(e: Event, outbox: seq<Event>, receipts: map<nat, Scope>, key: Key)
    requires ById(outbox) && !HasId(outbox, e.id) && e.id !in receipts
    ensures ById(Place(e, outbox))
    ensures forall x :: x in Place(e, outbox) <==> x == e || x in outbox
    ensures Tally(Place(e, outbox), receipts, key) == Tally(outbox, receipts, key)
  {
    if outbox != [] && e.id > outbox[0].id {
      var rest := outbox[1..];
      assert outbox == [outbox[0]] + rest;
      assert forall i :: 0 <= i < |rest| ==> rest[i] == outbox[i + 1];
      PlaceFacts(e, rest, receipts, key);
      var placed := Place(e, rest);
      forall j | 0 <= j < |placed| ensures outbox[0].id < placed[j].id {
        assert placed[j] in placed;
      }
    } else {
      assert outbox != [] ==> outbox[0].id != e.id;
      assert Place(e, outbox)[1..] == outbox;
    }
  }

  lemma ProcessKeeps(db: Db, e: Event)
    requires Inv(db) && e in db.outbox
    ensures Inv(Process(db, e).0)
  {
    var db' := Process(db, e).0;
    if db' != db {
      assert e == Event(e.id, true, Some(e.scope.value));
      forall key ensures Counter(db', key) == Tally(db'.outbox, db'.receipts, key) {
        assert Counter(db, key) == Tally(db.outbox, db.receipts, key);
        TallyOfOneMore(db.outbox, db.receipts, e, e.scope.value, key);
      }
    }
  }

  lemma RejectKeeps(db: Db, e: Event)
    requires Inv(db) && e in db.outbox && e.countable && !Valid(db.known, e)
    ensures Inv(db.(rejected := db.rejected + {e.id}))
  {
  }

  lemma HandleKeeps(db: Db, e: Event)
    requires Inv(db) && e in db.outbox
    ensures Inv(Handle(db, e)) && Handle(db, e).outbox == db.outbox && Handle(db, e).known == db.known
  {
    ProcessKeeps(db, e);
    if Process(db, e).1 == BadInput {
      RejectKeeps(db, e);
    }
  }

  lemma PublishKeeps(db: Db, e: Event)
    requires Inv(db) && !HasId(db.outbox, e.id)
    ensures Inv(db.(outbox := Place(e, db.outbox)))
    ensures forall x :: x in db.outbox ==> x in Place(e, db.outbox)
  {
    var db' := db.(outbox := Place(e, db.outbox));
    forall id | id in db.receipts ensures id != e.id {
      assert ReceiptFor(db.outbox, db.known, id, db.receipts[id]);
    }
    forall key ensures Counter(db', key) == Tally(db'.outbox, db'.receipts, key) {
      assert Counter(db, key) == Tally(db.outbox, db.receipts, key);
      PlaceFacts(e, db.outbox, db.receipts, key);
    }
    PlaceFacts(e, db.outbox, db.receipts, OfUser(0));
    forall id | id in db.rejected ensures RejectFor(db'.outbox, db.known, id) {
      assert RejectFor(db.outbox, db.known, id);
    }
  }

  lemma {:induction false} PendingFacts(outbox: seq<Event>, done: set<nat>)
    ensures forall e :: e in Pending(outbox, done) <==> e in outbox && e.countable && e.id !in done
    ensures ById(outbox) ==> ById(Pending(outbox, done))
  {
    if outbox != [] {
      PendingFacts(outbox[1..], done);
      assert outbox == [outbox[0]] + outbox[1..];
      var rest := Pending(outbox[1..], done);
      if ById(outbox) {
        forall j | 0 <= j < |rest| ensures outbox[0].id < rest[j].id {
          assert rest[j] in rest && rest[j] in outbox[1..];
        }
      }
    }
  }

  ghost predicate WorldInv(w: World) {
    Inv(w.db) && QueuesFromOutbox(w.queues, w.db.outbox)
  }

  lemma NextKeeps(w: World, step: Step)
    requires WorldInv(w)
    ensures WorldInv(Next(w, step)) && Next(w, step).db.known == w.db.known
  {
    match step
    case Publish(e) =>
      if !HasId(w.db.outbox, e.id) {
        PublishKeeps(w.db, e);
      }
    case Poll(k) => PendingFacts(w.db.outbox, Receipted(w.db));
    case Work(k) =>
      if k in w.queues && w.queues[k] != [] {
        assert w.queues[k][0] in w.queues[k];
        HandleKeeps(w.db, w.queues[k][0]);
      }
    case Crash(k) =>
    case Replay(e) =>
      if e in w.db.outbox {
        ProcessKeeps(w.db, e);
      }
  }

  lemma {:induction false} PlayKeeps(known: set<Scope>, steps: seq<Step>)
    ensures WorldInv(Play(known, steps)) && Play(known, steps).db.known == known
  {
    if steps != [] {
      PlayKeeps(known, steps[..|steps| - 1]);
      NextKeeps(Play(known, steps[..|steps| - 1]), steps[|steps| - 1]);
    } else {
      var db := Empty(known).db;
      forall key ensures Counter(db, key) == Tally(db.outbox, db.receipts, key) {
      }
    }
  }

  // ----- results -----

  lemma SameIdSameEvent(outbox: seq<Event>, a: Event, b: Event)
    requires ById(outbox) && a in outbox && b in outbox && a.id == b.id
    ensures a == b
  {
  }

  /** Every counter is the number of receipted events, and each receipt belongs to one valid event. */
  lemma CountersAreReceipts(known: set<Scope>, steps: seq<Step>, key: Key)
    ensures var db := Play(known, steps).db;
      && Counter(db, key) == Tally(db.outbox, db.receipts, key)
      && (forall id :: id in db.receipts ==> ReceiptFor(db.outbox, known, id, db.receipts[id]))
      && db.receipts.Keys !! db.rejected
  {
    PlayKeeps(known, steps);
    var db := Play(known, steps).db;
    forall id | id in db.receipts ensures id !in db.rejected {
      if id in db.rejected {
        assert RejectFor(db.outbox, known, id) && ReceiptFor(db.outbox, known, id, db.receipts[id]);
        var e :| e in db.outbox && e.id == id && e.countable && !Valid(known, e);
        SameIdSameEvent(db.outbox, e, Event(id, true, Some(db.receipts[id])));
        assert false;
      }
    }
  }

  lemma {:induction false} TallyIsDue(outbox: seq<Event>, receipts: map<nat, Scope>, known: set<Scope>, key: Key)
    requires forall e :: e in outbox ==> (e.id in receipts <==> e.countable && Valid(known, e))
    requires forall e :: e in outbox && e.id in receipts ==> e.scope == Some(receipts[e.id])
    ensures Tally(outbox, receipts, key) == Due(outbox, known, key)
  {
    if outbox != [] {
      assert outbox[0] in outbox;
      TallyIsDue(outbox[1..], receipts, known, key);
    }
  }

  /** With nothing pending, every counter is the number of valid events published for it. */
  lemma DrainedCountsAll(known: set<Scope>, steps: seq<Step>, key: Key)
    requires var db := Play(known, steps).db; Pending(db.outbox, Receipted(db)) == []
    ensures var db := Play(known, steps).db; Counter(db, key) == Due(db.outbox, known, key)
  {
    PlayKeeps(known, steps);
    var db := Play(known, steps).db;
    assert Counter(db, key) == Tally(db.outbox, db.receipts, key);
    forall e | e in db.outbox ensures e.id in db.receipts <==> e.countable && Valid(known, e)
                              ensures e.id in db.receipts ==> e.scope == Some(db.receipts[e.id]) {
      PendingFacts(db.outbox, Receipted(db));
      if e.id in db.receipts {
        SameIdSameEvent(db.outbox, e, Event(e.id, true, Some(db.receipts[e.id])));
      } else if e.countable {
        assert e !in Pending(db.outbox, Receipted(db)) && e.id in db.rejected;
        assert RejectFor(db.outbox, known, e.id);
        var r :| r in db.outbox && r.id == e.id && r.countable && !Valid(known, r);
        SameIdSameEvent(db.outbox, e, r);
      }
    }
    TallyIsDue(db.outbox, db.receipts, known, key);
  }

  // ----- the user total is the sum over conversations -----

  function SumBelow(outbox: seq<Event>, receipts: map<nat, Scope>, user: nat, n: nat): nat {
    if n == 0 then 0 else SumBelow(outbox, receipts, user, n - 1) + Tally(outbox, receipts, OfScope(Scope(user, n - 1)))
  }

  function ConversationSum(db: Db, user: nat, n: nat): nat {
    if n == 0 then 0 else ConversationSum(db, user, n - 1) + Counter(db, OfScope(Scope(user, n - 1)))
  }

  lemma {:induction false} SumOfCons(outbox: seq<Event>, receipts: map<nat, Scope>, user: nat, n: nat)
    requires outbox != []
    ensures var e := outbox[0];
      SumBelow(outbox, receipts, user, n) == SumBelow(outbox[1..], receipts, user, n) +
        (if e.id in receipts && receipts[e.id].user == user && receipts[e.id].conversation < n then 1 else 0)
  {
    if n > 0 {
      SumOfCons(outbox, receipts, user, n - 1);
    }
  }

  lemma {:induction false} EmptySum(receipts: map<nat, Scope>, user: nat, n: nat)
    ensures SumBelow([], receipts, user, n) == 0
  {
    if n > 0 {
      EmptySum(receipts, user, n - 1);
    }
  }

  lemma {:induction false} UserTallyIsSum(outbox: seq<Event>, receipts: map<nat, Scope>, user: nat, n: nat)
    requires forall id :: id in receipts ==> receipts[id].conversation < n
    ensures Tally(outbox, receipts, OfUser(user)) == SumBelow(outbox, receipts, user, n)
  {
    if outbox == [] {
      EmptySum(receipts, user, n);
    } else {
      UserTallyIsSum(outbox[1..], receipts, user, n);
      SumOfCons(outbox, receipts, user, n);
    }
  }

  lemma {:induction false} CountersSum(db: Db, user: nat, n: nat)
    requires CountersExact(db)
    ensures ConversationSum(db, user, n) == SumBelow(db.outbox, db.receipts, user, n)
  {
    if n > 0 {
      CountersSum(db, user, n - 1);
      assert Counter(db, OfScope(Scope(user, n - 1))) == Tally(db.outbox, db.receipts, OfScope(Scope(user, n - 1)));
    }
  }

  /** A user's total is the sum of that user's conversation counters. */
  lemma TotalIsSumOfConversations(known: set<Scope>, steps: seq<Step>, user: nat, n: nat)
    requires forall s :: s in known ==> s.conversation < n
    ensures var db := Play(known, steps).db; Counter(db, OfUser(user)) == ConversationSum(db, user, n)
  {
    PlayKeeps(known, steps);
    var db := Play(known, steps).db;
    CountersSum(db, user, n);
    forall id | id in db.receipts ensures db.receipts[id].conversation < n {
      assert ReceiptFor(db.outbox, known, id, db.receipts[id]);
    }
    UserTallyIsSum(db.outbox, db.receipts, user, n);
    assert Counter(db, OfUser(user)) == Tally(db.outbox, db.receipts, OfUser(user));
  }

  // ----- a static outbox is drained -----

  function Round(db: Db): Db {
    HandleAll(db, Batch(db))
  }

  function Rounds(db: Db, n: nat): Db {
    if n == 0 then db else Round(Rounds(db, n - 1))
  }

  lemma {:induction false} PendingIgnores(outbox: seq<Event>, done: set<nat>, id: nat)
    requires forall i :: 0 <= i < |outbox| ==> outbox[i].id != id
    ensures Pending(outbox, done + {id}) == Pending(outbox, done)
  {
    if outbox != [] {
      PendingIgnores(outbox[1..], done, id);
    }
  }

  lemma {:induction false} PendingWithout(outbox: seq<Event>, done: set<nat>)
    requires ById(outbox) && Pending(outbox, done) != []
    ensures Pending(outbox, done + {Pending(outbox, done)[0].id}) == Pending(outbox, done)[1..]
  {
    var e := outbox[0];
    if e.countable && e.id !in done {
      PendingIgnores(outbox[1..], done, e.id);
    } else {
      PendingWithout(outbox[1..], done);
      PendingFacts(outbox[1..], done);
      var first := Pending(outbox[1..], done)[0];
      assert first in outbox[1..];
    }
  }

  lemma HandleReceipts(db: Db, e: Event)
    requires e.countable
    ensures Receipted(Handle(db, e)) == Receipted(db) + {e.id} && Handle(db, e).outbox == db.outbox
  {
  }

  lemma {:induction false} HandledIsGone(db: Db, n: nat)
    requires ById(db.outbox) && n <= |Pending(db.outbox, Receipted(db))|
    ensures var after := HandleAll(db, Pending(db.outbox, Receipted(db))[..n]);
      after.outbox == db.outbox && Pending(db.outbox, Receipted(after)) == Pending(db.outbox, Receipted(db))[n..]
  {
    var pending := Pending(db.outbox, Receipted(db));
    if n > 0 {
      HandledIsGone(db, n - 1);
      var before := HandleAll(db, pending[..n - 1]);
      assert pending[..n][..n - 1] == pending[..n - 1];
      PendingFacts(db.outbox, Receipted(before));
      assert pending[n - 1..][0] in Pending(db.outbox, Receipted(before));
      HandleReceipts(before, pending[n - 1]);
      PendingWithout(db.outbox, Receipted(before));
    }
  }

  /** Each failure-free round receipts a full batch, poison included. */
  lemma {:induction false} RoundsDrain(db: Db, n: nat)
    requires ById(db.outbox)
    ensures var pending := Pending(db.outbox, Receipted(db));
      && Rounds(db, n).outbox == db.outbox
      && Pending(db.outbox, Receipted(Rounds(db, n))) == pending[Min(|pending|, n * BATCH)..]
  {
    if n > 0 {
      RoundsDrain(db, n - 1);
      var before, pending := Rounds(db, n - 1), Pending(db.outbox, Receipted(db));
      var rest := Pending(before.outbox, Receipted(before));
      var q := Min(|pending|, (n - 1) * BATCH);
      var m := Min(|rest|, BATCH);
      assert rest == pending[q..] && Batch(before) == rest[..m];
      HandledIsGone(before, m);
      assert q + m == Min(|pending|, n * BATCH);
      assert pending[q..][m..] == pending[q + m..];
    }
  }

  /** A batch is the first 200 pending rows, or all of them. */
  lemma BatchIsFirst(db: Db)
    ensures Batch(db) <= Pending(db.outbox, Receipted(db))
    ensures |Batch(db)| == Min(200, |Pending(db.outbox, Receipted(db))|)
  {
  }

  /** So ceil(P / 200) rounds leave nothing of P pending events. */
  lemma CeilingRoundsSuffice(db: Db)
    requires ById(db.outbox)
    ensures var p := |Pending(db.outbox, Receipted(db))|;
      Pending(db.outbox, Receipted(Rounds(db, (p + 199) / 200))) == []
  {
    var p := |Pending(db.outbox, Receipted(db))|;
    RoundsDrain(db, (p + 199) / 200);
    assert (p + 199) / 200 * BATCH >= p;
  }

  lemma PendingFrom(outbox: seq<Event>, i: nat, done: set<nat>, rows: seq<Event>)
    requires i < |outbox|
    ensures var taken := if outbox[i].countable && outbox[i].id !in done then rows + [outbox[i]] else rows;
      rows + Pending(outbox[i..], done) == taken + Pending(outbox[i + 1..], done)
  {
  }

  // ----- workers and rounds -----

  function WorkedOff(w: World, worker: nat, n: nat): World {
    if n == 0 then w else Next(WorkedOff(w, worker, n - 1), Work(worker))
  }

  lemma {:induction false} WorkHandles(w: World, worker: nat, rows: seq<Event>, n: nat)
    requires worker in w.queues && w.queues[worker] == rows && n <= |rows|
    ensures WorkedOff(w, worker, n).db == HandleAll(w.db, rows[..n])
    ensures WorkedOff(w, worker, n).queues == w.queues[worker := rows[n..]]
  {
    if n > 0 {
      WorkHandles(w, worker, rows, n - 1);
      assert rows[..n][..n - 1] == rows[..n - 1];
      assert rows[n - 1..][1..] == rows[n..];
    }
  }

  /** A worker that polls and works its queue off has done exactly one round. */
  lemma PollAndWorkIsRound(w: World, worker: nat)
    ensures var polled := Next(w, Poll(worker));
      polled.db == w.db && WorkedOff(polled, worker, |Batch(w.db)|).db == Round(w.db)
  {
    var rows := Batch(w.db);
    WorkHandles(Next(w, Poll(worker)), worker, rows, |rows|);
    assert rows[..|rows|] == rows;
  }

  lemma {:induction false} PlacedIsThere(e: Event, outbox: seq<Event>)
    ensures forall x :: x in Place(e, outbox) <==> x == e || x in outbox
  {
    if outbox != [] && e.id > outbox[0].id {
      PlacedIsThere(e, outbox[1..]);
      assert outbox == [outbox[0]] + outbox[1..];
    }
  }

  /** Publishing adds one row, a replay counts what a worker would, and a crash loses a queue and no row. */
  lemma OtherSteps(w: World, e: Event, worker: nat)
    requires ById(w.db.outbox)
    ensures var w' := Next(w, Publish(e));
      && HasId(w'.db.outbox, e.id) && (!HasId(w.db.outbox, e.id) ==> e in w'.db.outbox)
      && (forall x :: x in w.db.outbox ==> x in w'.db.outbox) && w' == w.(db := w.db.(outbox := w'.db.outbox))
    ensures e in w.db.outbox && e.countable && Valid(w.db.known, e) ==> e.id in Next(w, Replay(e)).db.receipts
    ensures Next(w, Replay(e)).queues == w.queues
    ensures worker !in Next(w, Crash(worker)).queues && Next(w, Crash(worker)).db == w.db
  {
    PlacedIsThere(e, w.db.outbox);
    if !HasId(w.db.outbox, e.id) {
      assert e in Place(e, w.db.outbox);
      var k :| 0 <= k < |Place(e, w.db.outbox)| && Place(e, w.db.outbox)[k] == e;
    }
  }

  lemma HandleOneMore(db: Db, rows: seq<Event>, k: nat)
    requires k < |rows|
    ensures HandleAll(db, rows[..k + 1]) == Handle(HandleAll(db, rows[..k]), rows[k])
  {
    assert rows[..k + 1][..k] == rows[..k];
  }

  // ----- the tables -----

  class StatsDb {
    var outbox: seq<Event>
    var known: set<Scope>
    var receipts: map<nat, Scope>
    var rejected: set<nat>
    var userCount: map<nat, nat>
    var scopeCount: map<Scope, nat>
    var lastSeen: Option<nat>

    function View(): Db
      reads this
    {
      Db(outbox, known, receipts, rejected, userCount, scopeCount)
    }

    constructor (known: set<Scope>)
      ensures View() == Empty(known).db
    {
      outbox, receipts, rejected, userCount, scopeCount, lastSeen := [], map[], {}, map[], map[], None;
      this.known := known;
    }

    /** The receipt goes first: of concurrent duplicates exactly one gets past it. */
    method RecordMessage(id: nat, scope: Scope) returns (verdict: Verdict)
      modifies this`receipts, this`userCount, this`scopeCount
      ensures (View(), verdict) == Process(old(View()), Event(id, true, Some(scope)))
    {
      if id in receipts { return Skipped; }
      if scope !in known { return BadInput; }
      receipts := receipts[id := scope];
      userCount := userCount[scope.user := if scope.user in userCount then userCount[scope.user] + 1 else 1];
      scopeCount := scopeCount[scope := if scope in scopeCount then scopeCount[scope] + 1 else 1];
      verdict := Counted;
    }

    method ProcessEvent(e: Event) returns (verdict: Verdict)
      modifies this`receipts, this`userCount, this`scopeCount
      ensures (View(), verdict) == Process(old(View()), e)
    {
      if !e.countable { return Skipped; }
      if e.scope == None { return BadInput; }
      assert e == Event(e.id, true, Some(e.scope.value));
      verdict := RecordMessage(e.id, e.scope.value);
    }

    method Select() returns (rows: seq<Event>)
      ensures rows == Batch(View())
    {
      rows := [];
      var i := 0;
      ghost var done := Receipted(View());
      while i < |outbox| && |rows| < BATCH
        invariant 0 <= i <= |outbox| && |rows| <= BATCH
        invariant Pending(outbox, done) == rows + Pending(outbox[i..], done)
      {
        PendingFrom(outbox, i, done, rows);
        if outbox[i].countable && outbox[i].id !in receipts && outbox[i].id !in rejected {
          rows := rows + [outbox[i]];
        }
        i := i + 1;
      }
      assert i == |outbox| ==> outbox[i..] == [];
    }

    /** One row of a batch; 1 when it was newly counted. */
    method FoldOne(e: Event) returns (counted: nat)
      modifies this`receipts, this`rejected, this`userCount, this`scopeCount, this`lastSeen
      ensures View() == Handle(old(View()), e) && lastSeen == Some(e.id)
      ensures |receipts| == |old(receipts)| + counted
    {
      var verdict := ProcessEvent(e);
      counted := if verdict == Counted then 1 else 0;
      if verdict == BadInput {
        rejected := rejected + {e.id};
      }
      lastSeen := Some(e.id);
    }

    /** One poll; after `budget` rows the database fails and the rest stays eligible. */
    method FoldNewEvents(budget: nat) returns (folded: Option<nat>)
      modifies this`receipts, this`rejected, this`userCount, this`scopeCount, this`lastSeen
      ensures View() == HandleAll(old(View()), Take(Batch(old(View())), budget))
      ensures folded == None <==> budget < |Batch(old(View()))|
      ensures folded.Some? ==> |receipts| == |old(receipts)| + folded.value
      ensures var handled := Take(Batch(old(View())), budget);
        lastSeen == if handled == [] then old(lastSeen) else Some(handled[|handled| - 1].id)
    {
      ghost var start := View();
      var rows := Select();
      var n := 0;
      for k := 0 to |rows|
        invariant k <= budget
        invariant View() == HandleAll(start, rows[..k])
        invariant |receipts| == |old(receipts)| + n
        invariant lastSeen == if k == 0 then old(lastSeen) else Some(rows[k - 1].id)
      {
        if k == budget {
          return None;
        }
        HandleOneMore(start, rows, k);
        var counted := FoldOne(rows[k]);
        n := n + counted;
      }
      assert rows[..|rows|] == rows;
      folded := Some(n);
    }
  }
}
