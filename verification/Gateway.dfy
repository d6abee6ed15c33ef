/**
 Event delivery: outbox rows are committed in any order, workers claim,
 broadcast and mark them, and a gateway connection subscribes, replays the
 retained rows page by page up to a ceiling, then goes live, rescanning
 everything when its bounded receiver lagged. Ids are ordered by allocation,
 not by commit, so no watermark is sound; the result is that nothing a member
 may see is lost, except rows at or below the resume position that had been
 broadcast before the subscription (history reconciliation covers those).
 */
module Gateway {
  import opened Prelude

  /** Event ids are naturals in allocation order; `NOWHERE` is the absent id. */
  const NOWHERE := -1

  const PAGE := 100
  const SEEN := 1024
  const HUB := 1024
  const BATCH := 50

  // ----- outbox pages -----

  predicate IsLeast(rows: set<nat>, after: int, m: nat) {
    m in rows && m > after && forall x :: x in rows && x > after ==> m <= x
  }

  lemma {:induction false} LeastExists(rows: set<nat>, after: int, x: nat) returns (m: nat)
    requires x in rows && x > after
    ensures IsLeast(rows, after, m)
    decreases x
  {
    if y :| y in rows && after < y < x {
      m := LeastExists(rows, after, y);
    } else {
      m := x;
    }
  }

  function Least(rows: set<nat>, after: int): (m: nat)
    requires exists x :: x in rows && x > after
    ensures IsLeast(rows, after, m)
  {
    assert exists m: nat :: IsLeast(rows, after, m) by {
      var x :| x in rows && x > after;
      var m := LeastExists(rows, after, x);
    }
    var m: nat :| m in rows && IsLeast(rows, after, m);
    m
  }

  /** Rows after a position, in id order, at most `limit`. */
  function EventsAfter(rows: set<nat>, after: int, limit: nat): seq<nat>
    decreases limit
  {
    if limit == 0 || forall x :: x in rows ==> x <= after then []
    else
      var m := Least(rows, after);
      [m] + EventsAfter(rows, m, limit - 1)
  }

  predicate Ascending(ids: seq<nat>) {
    forall i, j :: 0 <= i < j < |ids| ==> ids[i] < ids[j]
  }

  predicate Passed(page: seq<nat>, x: nat) {
    forall y :: y in page ==> y < x
  }

  /** A page lists rows beyond the position, and skips none before its end. */
  predicate IsPage(page: seq<nat>, rows: set<nat>, after: int, limit: nat) {
    && |page| <= limit && Ascending(page)
    && (forall x :: x in page ==> x in rows && x > after)
    && (forall x :: x in rows && x > after ==> x in page || (|page| == limit && Passed(page, x)))
  }

  lemma PrependLeast(m: nat, rest: seq<nat>, rows: set<nat>, after: int, limit: nat)
    requires IsLeast(rows, after, m) && IsPage(rest, rows, m, limit)
    ensures IsPage([m] + rest, rows, after, limit + 1)
  {
    var page := [m] + rest;
    assert forall x :: x in page <==> x == m || x in rest;
    assert Ascending(page) by {
      forall i, j | 0 <= i < j < |page| ensures page[i] < page[j] {
        assert page[j] in rest;
      }
    }
    forall x | x in rows && x > after && x !in page ensures |page| == limit + 1 && Passed(page, x) {
      assert Passed(rest, x);
    }
  }

  lemma {:induction false} EventsAfterIsPage(rows: set<nat>, after: int, limit: nat)
    ensures IsPage(EventsAfter(rows, after, limit), rows, after, limit)
    decreases limit
  {
    if limit == 0 || forall x :: x in rows ==> x <= after {
    } else {
      var m := Least(rows, after);
      EventsAfterIsPage(rows, m, limit - 1);
      PrependLeast(m, EventsAfter(rows, m, limit - 1), rows, after, limit - 1);
    }
  }

  predicate IsNewest(rows: set<nat>, m: nat) {
    m in rows && forall x :: x in rows ==> x <= m
  }

  lemma {:induction false} NewestExists(rows: set<nat>)
    requires rows != {}
    ensures exists m: nat :: m in rows && IsNewest(rows, m)
  {
    var x :| x in rows;
    if rows == {x} {
      assert IsNewest(rows, x);
    } else {
      NewestExists(rows - {x});
      var m: nat :| m in rows - {x} && IsNewest(rows - {x}, m);
      forall y | y in rows ensures y <= if x < m then m else x {
        assert y == x || y in rows - {x};
      }
      assert IsNewest(rows, if x < m then m else x);
    }
  }

  /** The newest id in the outbox, whoever may see it. */
  function Newest(rows: set<nat>): (m: int)
    ensures rows == {} ==> m == NOWHERE
    ensures rows != {} ==> m in rows && forall x :: x in rows ==> x <= m
  {
    if rows == {} then NOWHERE
    else
      NewestExists(rows);
      var m :| m in rows && IsNewest(rows, m);
      m
  }

  // ----- the replay scan -----

  datatype Replay = Replay(cursor: int, ceiling: int, pending: seq<nat>, done: bool)

  function Start(cursor: int, outbox: set<nat>): Replay {
    Replay(cursor, Newest(outbox), [], Newest(outbox) == NOWHERE)
  }

  function UpTo(page: seq<nat>, ceiling: int): seq<nat> {
    if page == [] || page[0] > ceiling then [] else [page[0]] + UpTo(page[1..], ceiling)
  }

  /** The next replayed row, if any; `rows` are the member's committed rows now. */
  function Advance(r: Replay, rows: set<nat>): (Replay, Option<nat>) {
    if r.pending != [] then (r.(pending := r.pending[1..]), Some(r.pending[0]))
    else if r.cursor >= r.ceiling then (r.(done := true), None)
    else
      var kept := UpTo(EventsAfter(rows, r.cursor, PAGE), r.ceiling);
      if kept == [] then (r.(done := true), None)
      else (r.(cursor := kept[|kept| - 1], pending := kept[1..]), Some(kept[0]))
  }

  lemma {:induction false} UpToFacts(page: seq<nat>, ceiling: int)
    requires Ascending(page)
    ensures var kept := UpTo(page, ceiling);
      kept <= page && (forall x :: x in kept ==> x <= ceiling) && (forall x :: x in page && x <= ceiling ==> x in kept)
  {
    if page != [] && page[0] <= ceiling {
      assert page == [page[0]] + page[1..];
      UpToFacts(page[1..], ceiling);
    }
  }

  predicate Kept(kept: seq<nat>, rows: set<nat>, cursor: int, ceiling: int) {
    && Ascending(kept)
    && (forall x :: x in kept ==> x in rows && cursor < x <= ceiling)
    && (forall x :: x in rows && cursor < x <= (if kept == [] then ceiling else kept[|kept| - 1]) ==> x in kept)
  }

  /** What one page brings into the buffer: every row up to the new cursor. */
  lemma PageIsKept(page: seq<nat>, rows: set<nat>, cursor: int, ceiling: int)
    requires IsPage(page, rows, cursor, PAGE)
    ensures Kept(UpTo(page, ceiling), rows, cursor, ceiling)
  {
    UpToFacts(page, ceiling);
    var kept := UpTo(page, ceiling);
    forall x | x in rows && cursor < x <= (if kept == [] then ceiling else kept[|kept| - 1]) ensures x in kept {
      var last := if kept == [] then page[0] else kept[|kept| - 1];
      assert kept != [] ==> last in kept;
      assert last in page;
      assert x in page || Passed(page, x);
    }
  }

  /** A scan: calls until it is done, each reading the member's rows of that moment. */
  function Scan(r: Replay, tables: seq<set<nat>>): (Replay, seq<nat>) {
    if tables == [] then (r, [])
    else
      var (before, out) := Scan(r, tables[..|tables| - 1]);
      if before.done then (before, out)
      else
        var (after, entry) := Advance(before, tables[|tables| - 1]);
        (after, if entry.Some? then out + [entry.value] else out)
  }

  /** `rows` were visible when the scan started; `out` has been returned since. */
  ghost predicate ScanOK(start: int, rows: set<nat>, r: Replay, out: seq<nat>) {
    && start <= r.cursor && Ascending(out + r.pending)
    && (forall x :: x in out + r.pending ==> start < x <= r.cursor && x <= r.ceiling)
    && (forall x :: x in rows && start < x <= r.cursor && x <= r.ceiling ==> x in out + r.pending)
    && (r.done ==> r.pending == [] && forall x :: x in rows && start < x <= r.ceiling ==> x in out)
  }

  lemma AscendingAppend(a: seq<nat>, b: seq<nat>, bar: int)
    requires Ascending(a) && Ascending(b)
    requires (forall x :: x in a ==> x <= bar) && (forall x :: x in b ==> bar < x)
    ensures Ascending(a + b)
  {
    forall i, j | 0 <= i < j < |a + b| ensures (a + b)[i] < (a + b)[j] {
      if i < |a| <= j {
        assert (a + b)[i] in a && (a + b)[j] in b;
      }
    }
  }

  lemma PopKeepsScan(start: int, rows: set<nat>, r: Replay, out: seq<nat>)
    requires ScanOK(start, rows, r, out) && !r.done && r.pending != []
    ensures ScanOK(start, rows, r.(pending := r.pending[1..]), out + [r.pending[0]])
  {
    assert out + r.pending == (out + [r.pending[0]]) + r.pending[1..];
  }

  lemma PageKeepsScan(start: int, rows: set<nat>, r: Replay, out: seq<nat>, table: set<nat>, kept: seq<nat>)
    requires ScanOK(start, rows, r, out) && !r.done && r.pending == [] && rows <= table
    requires Kept(kept, table, r.cursor, r.ceiling) && kept != []
    ensures ScanOK(start, rows, r.(cursor := kept[|kept| - 1], pending := kept), out)
  {
    assert out + r.pending == out;
    AscendingAppend(out, kept, r.cursor);
    assert kept[|kept| - 1] in kept;
    var all := out + kept;
    forall x | x in all ensures start < x <= kept[|kept| - 1] && x <= r.ceiling {
      if x in out { assert x in out + r.pending; }
    }
    forall x | x in rows && start < x <= kept[|kept| - 1] && x <= r.ceiling ensures x in all {
      if x <= r.cursor { assert x in out + r.pending; }
    }
  }

  lemma AdvanceKeepsScan(start: int, rows: set<nat>, r: Replay, out: seq<nat>, table: set<nat>)
    requires ScanOK(start, rows, r, out) && !r.done && rows <= table
    ensures var (r', entry) := Advance(r, table);
      && ScanOK(start, rows, r', if entry.Some? then out + [entry.value] else out)
      && (entry == None <==> r'.done) && r'.ceiling == r.ceiling
  {
    if r.pending != [] {
      PopKeepsScan(start, rows, r, out);
    } else {
      assert out + r.pending == out;
      if r.cursor < r.ceiling {
        var kept := UpTo(EventsAfter(table, r.cursor, PAGE), r.ceiling);
        EventsAfterIsPage(table, r.cursor, PAGE);
        PageIsKept(EventsAfter(table, r.cursor, PAGE), table, r.cursor, r.ceiling);
        if kept != [] {
          PageKeepsScan(start, rows, r, out, table, kept);
          PopKeepsScan(start, rows, r.(cursor := kept[|kept| - 1], pending := kept), out);
        }
      }
    }
  }

  function Remaining(r: Replay): nat {
    (if r.cursor < r.ceiling then r.ceiling - r.cursor else 0) + |r.pending|
  }

  lemma {:induction false} AscendingSpan(ids: seq<nat>, low: int)
    requires Ascending(ids) && forall x :: x in ids ==> low < x
    ensures ids != [] ==> ids[|ids| - 1] - low >= |ids|
  {
    if ids != [] {
      assert ids[0] in ids;
      AscendingSpan(ids[1..], ids[0]);
    }
  }

  lemma PageShrinks(r: Replay, kept: seq<nat>)
    requires r.pending == [] && r.cursor < r.ceiling && kept != [] && Ascending(kept)
    requires forall x :: x in kept ==> r.cursor < x <= r.ceiling
    ensures Remaining(r.(cursor := kept[|kept| - 1], pending := kept[1..])) < Remaining(r)
  {
    AscendingSpan(kept, r.cursor);
    assert kept[|kept| - 1] in kept;
  }

  lemma AdvanceShrinks(r: Replay, table: set<nat>)
    ensures var (r', entry) := Advance(r, table); entry.Some? ==> Remaining(r') < Remaining(r)
  {
    if r.pending == [] && r.cursor < r.ceiling {
      var kept := UpTo(EventsAfter(table, r.cursor, PAGE), r.ceiling);
      EventsAfterIsPage(table, r.cursor, PAGE);
      PageIsKept(EventsAfter(table, r.cursor, PAGE), table, r.cursor, r.ceiling);
      if kept != [] {
        PageShrinks(r, kept);
      }
    }
  }

  /** Rows are never withdrawn while a scan runs, only added. */
  predicate OnlyGrows(rows: set<nat>, tables: seq<set<nat>>) {
    forall k :: 0 <= k < |tables| ==> rows <= tables[k]
  }

  lemma {:induction false} ScanKeeps(start: int, rows: set<nat>, r: Replay, tables: seq<set<nat>>)
    requires ScanOK(start, rows, r, []) && OnlyGrows(rows, tables)
    ensures var (r', out) := Scan(r, tables);
      && ScanOK(start, rows, r', out) && r'.ceiling == r.ceiling
      && (!r'.done ==> Remaining(r') + |tables| <= Remaining(r))
  {
    if tables != [] {
      var n := |tables| - 1;
      ScanKeeps(start, rows, r, tables[..n]);
      var (before, out) := Scan(r, tables[..n]);
      if !before.done {
        AdvanceKeepsScan(start, rows, before, out, tables[n]);
        AdvanceShrinks(before, tables[n]);
      }
    }
  }

  /**
   A replay over a growing outbox returns strictly ascending ids beyond the
   resume position and within its ceiling, misses no row that was visible when
   it started, has an empty buffer when done, and is done after finitely many
   calls.
   */
  lemma ReplayIsComplete(resume: int, outbox: set<nat>, mine: set<nat>, tables: seq<set<nat>>)
    requires OnlyGrows(outbox * mine, tables)
    ensures var (r, out) := Scan(Start(resume, outbox), tables);
      && Ascending(out) && (forall x :: x in out ==> resume < x <= Newest(outbox))
      && (r.done ==> r.pending == [] && forall x :: x in outbox && x in mine && x > resume ==> x in out)
      && (|tables| > Remaining(Start(resume, outbox)) ==> r.done)
  {
    var start := Start(resume, outbox);
    assert ScanOK(resume, outbox * mine, start, []);
    ScanKeeps(resume, outbox * mine, start, tables);
    var (r, out) := Scan(start, tables);
    forall x | x in out ensures resume < x <= Newest(outbox) {
      assert x in out + r.pending;
    }
    assert Ascending(out) by {
      forall i, j | 0 <= i < j < |out| ensures out[i] < out[j] {
        assert (out + r.pending)[i] < (out + r.pending)[j];
      }
    }
  }

  // ----- the connection and the world around it -----

  /** Bounded broadcast receiver: the oldest entry goes when the ring is full. */
  datatype Receiver = Receiver(queue: seq<nat>, lagged: bool)

  function Push(rx: Receiver, e: nat): Receiver {
    if |rx.queue| >= HUB then Receiver(rx.queue[1..] + [e], true) else rx.(queue := rx.queue + [e])
  }

  /** The receiver keeps the newest 1024 entries in order, and notes a loss exactly when there is one. */
  lemma PushKeepsNewest(rx: Receiver, e: nat)
    requires |rx.queue| <= 1024
    ensures var rx', all := Push(rx, e), rx.queue + [e];
      && rx'.queue == all[|all| - Min(1024, |all|)..]
      && (rx'.lagged <==> rx.lagged || |all| > 1024)
  {
  }

  datatype Phase = Subscribed | Pumping | Rescanning

  datatype Conn = Conn(resume: int, rx: Receiver, phase: Phase, replay: Replay, inHand: Option<nat>,
                       seen: seq<nat>, sent: seq<nat>)

  /** Fetch the next delivery: replayed rows first, live broadcasts once done. */
  function Fetch(c: Conn, rows: set<nat>): Conn {
    if !c.replay.done then
      var (replay, entry) := Advance(c.replay, rows);
      c.(replay := replay, inHand := entry)
    else if c.rx.lagged then c.(rx := c.rx.(lagged := false), phase := Rescanning)
    else if c.rx.queue == [] then c
    else c.(rx := c.rx.(queue := c.rx.queue[1..]), inHand := Some(c.rx.queue[0]))
  }

  /** Remember the last `SEEN` ids that were sent. */
  function Remember(seen: seq<nat>, e: nat): seq<nat> {
    (if |seen| == SEEN then seen[1..] else seen) + [e]
  }

  function Deliver(c: Conn, mine: set<nat>): Conn
    requires c.inHand.Some?
  {
    var e := c.inHand.value;
    if e in c.seen || e !in mine then c.(inHand := None)
    else c.(inHand := None, seen := Remember(c.seen, e), sent := c.sent + [e])
  }

  /** One turn of the connection's pump, with the outbox as it is now. */
  function Pump(c: Conn, outbox: set<nat>, mine: set<nat>): Conn {
    match c.phase
    case Subscribed => c.(replay := Start(c.resume, outbox), phase := Pumping)
    case Rescanning => c.(replay := Start(NOWHERE, outbox), phase := Pumping)
    case Pumping => if c.inHand.Some? then Deliver(c, mine) else Fetch(c, outbox * mine)
  }

  /** A worker's round: the claimed rows, and how many it has broadcast. */
  datatype Round = Round(claimed: seq<nat>, sent: nat)

  /** `broadcast` and `early` are history: what went through the hub, ever and before the subscription. */
  datatype World = World(mine: set<nat>, committed: set<nat>, published: set<nat>, workers: map<nat, Round>,
                         broadcast: set<nat>, early: set<nat>, conn: Conn)

  datatype Action =
    | Commit(id: nat)
    | Claim(worker: nat, ids: seq<nat>)
    | Broadcast(worker: nat)
    | Mark(worker: nat)
    | Fail(worker: nat)
    | Turn

  predicate Enabled(w: World, a: Action) {
    match a
    case Commit(id) => id !in w.committed
    case Claim(k, ids) => k !in w.workers && |ids| <= BATCH && forall e :: e in ids ==>
      e in w.committed && e !in w.published
    case Broadcast(k) => k in w.workers && w.workers[k].sent < |w.workers[k].claimed|
    case Mark(k) => k in w.workers && w.workers[k].sent == |w.workers[k].claimed|
    case Fail(k) => k in w.workers
    case Turn => true
  }

  function Next(w: World, a: Action): World
    requires Enabled(w, a)
  {
    match a
    case Commit(id) => w.(committed := w.committed + {id})
    case Claim(k, ids) => w.(workers := w.workers[k := Round(ids, 0)])
    case Broadcast(k) =>
      var round := w.workers[k];
      var e := round.claimed[round.sent];
      w.(workers := w.workers[k := round.(sent := round.sent + 1)], broadcast := w.broadcast + {e},
         conn := w.conn.(rx := Push(w.conn.rx, e)))
    case Mark(k) => w.(published := w.published + (set e | e in w.workers[k].claimed), workers := w.workers - {k})
    case Fail(k) => w.(workers := w.workers - {k})
    case Turn => w.(conn := Pump(w.conn, w.committed, w.mine))
  }

  // ----- where every event is -----

  /** Somewhere on its way to the client, or past it. */
  predicate OnItsWay(c: Conn, e: nat) {
    || e in c.sent || c.inHand == Some(e)
    || e in c.rx.queue || c.rx.lagged || c.phase == Rescanning
    || (c.phase == Subscribed && e > c.resume)
    || (c.phase == Pumping && (e in c.replay.pending || (!c.replay.done && c.replay.cursor < e <= c.replay.ceiling)))
  }

  ghost predicate NothingLost(w: World) {
    forall e :: e in w.committed && e in w.mine ==>
      || e !in w.broadcast
      || OnItsWay(w.conn, e)
      || (e in w.early && e <= w.conn.resume)
  }

  predicate RoundOK(round: Round, committed: set<nat>, broadcast: set<nat>) {
    && round.sent <= |round.claimed| && (forall e :: e in round.claimed ==> e in committed)
    && (forall i :: 0 <= i < round.sent ==> round.claimed[i] in broadcast)
  }

  ghost predicate WorkersOK(w: World) {
    && w.broadcast <= w.committed && w.published <= w.broadcast && w.early <= w.broadcast
    && (forall k :: k in w.workers ==> RoundOK(w.workers[k], w.committed, w.broadcast))
  }

  /** `seen` is the tail of what was sent, and repeats are at least that far apart. */
  predicate SeenOK(seen: seq<nat>, sent: seq<nat>) {
    && |seen| == Min(SEEN, |sent|) && seen == sent[|sent| - |seen|..]
    && (forall i, j :: 0 <= i < j < |sent| && j - i <= SEEN ==> sent[i] != sent[j])
  }

  predicate ConnOK(c: Conn) {
    && (c.phase != Pumping ==> c.inHand == None)
    && (c.phase == Pumping && c.replay.done ==> c.replay.pending == [])
    && SeenOK(c.seen, c.sent)
  }

  ghost predicate Inv(w: World) {
    && WorkersOK(w) && ConnOK(w.conn) && NothingLost(w) && w.conn.resume >= NOWHERE
    && (forall e :: e in w.conn.sent ==> e in w.mine)
  }

  /** A connection that has just subscribed, to a server in any condition. */
  ghost predicate Init(w: World) {
    && WorkersOK(w) && w.early == w.broadcast
    && w.conn.phase == Subscribed && w.conn.rx == Receiver([], false)
    && w.conn.inHand == None && w.conn.seen == [] && w.conn.sent == [] && w.conn.resume >= NOWHERE
  }

  lemma FetchLosesNothing(c: Conn, rows: set<nat>, e: nat)
    requires ConnOK(c) && c.phase == Pumping && c.inHand == None && OnItsWay(c, e)
    requires e in rows
    ensures OnItsWay(Fetch(c, rows), e)
  {
    if !c.replay.done && c.replay.pending == [] && c.replay.cursor < c.replay.ceiling {
      EventsAfterIsPage(rows, c.replay.cursor, PAGE);
      PageIsKept(EventsAfter(rows, c.replay.cursor, PAGE), rows, c.replay.cursor, c.replay.ceiling);
    }
  }

  lemma DeliverLosesNothing(c: Conn, mine: set<nat>, e: nat)
    requires ConnOK(c) && c.phase == Pumping && c.inHand.Some? && OnItsWay(c, e) && e in mine
    ensures OnItsWay(Deliver(c, mine), e)
  {
  }

  lemma PumpLosesNothing(c: Conn, outbox: set<nat>, mine: set<nat>, e: nat)
    requires ConnOK(c) && OnItsWay(c, e) && e in outbox && e in mine && c.resume >= NOWHERE
    ensures OnItsWay(Pump(c, outbox, mine), e)
  {
    match c.phase {
      case Subscribed =>
      case Rescanning =>
      case Pumping =>
        if c.inHand.Some? {
          DeliverLosesNothing(c, mine, e);
        } else {
          FetchLosesNothing(c, outbox * mine, e);
        }
    }
  }

  lemma FetchKeepsConn(c: Conn, rows: set<nat>)
    requires ConnOK(c) && c.phase == Pumping && c.inHand == None
    ensures ConnOK(Fetch(c, rows))
  {
  }

  lemma DeliverKeepsConn(c: Conn, mine: set<nat>)
    requires ConnOK(c) && c.phase == Pumping && c.inHand.Some?
    ensures ConnOK(Deliver(c, mine))
  {
  }

  lemma PumpKeepsConn(c: Conn, outbox: set<nat>, mine: set<nat>)
    requires ConnOK(c)
    ensures ConnOK(Pump(c, outbox, mine))
  {
    if c.phase == Pumping {
      if c.inHand.Some? {
        DeliverKeepsConn(c, mine);
      } else {
        FetchKeepsConn(c, outbox * mine);
      }
    }
  }

  lemma PushLosesNothing(c: Conn, e: nat, x: nat)
    requires OnItsWay(c, x) || x == e
    ensures OnItsWay(c.(rx := Push(c.rx, e)), x)
  {
  }

  lemma NextKeepsInv(w: World, a: Action)
    requires Inv(w) && Enabled(w, a)
    ensures Inv(Next(w, a))
  {
    var w' := Next(w, a);
    match a {
      case Commit(id) =>
      case Claim(k, ids) =>
      case Broadcast(k) =>
        var e := w.workers[k].claimed[w.workers[k].sent];
        forall x | x in w.committed && x in w.mine && x in w'.broadcast && !(x in w.early && x <= w.conn.resume)
          ensures OnItsWay(w'.conn, x)
        {
          PushLosesNothing(w.conn, e, x);
        }
      case Mark(k) =>
      case Fail(k) =>
      case Turn =>
        PumpKeepsConn(w.conn, w.committed, w.mine);
        forall x | x in w.committed && x in w.mine && x in w.broadcast && !(x in w.early && x <= w.conn.resume)
          ensures OnItsWay(w'.conn, x)
        {
          PumpLosesNothing(w.conn, w.committed, w.mine, x);
        }
    }
  }

  ghost predicate Reaches(w: World, actions: seq<Action>, w': World)
    decreases |actions|
  {
    if actions == [] then w' == w
    else Enabled(w, actions[0]) && Reaches(Next(w, actions[0]), actions[1..], w')
  }

  lemma {:induction false} ReachesInv(w: World, actions: seq<Action>, w': World)
    requires Inv(w) && Reaches(w, actions, w')
    ensures Inv(w')
    ensures w'.mine == w.mine && w'.early == w.early && w'.conn.resume == w.conn.resume && w.committed <= w'.committed
    decreases |actions|
  {
    if actions != [] {
      NextKeepsInv(w, actions[0]);
      ReachesInv(Next(w, actions[0]), actions[1..], w');
    }
  }

  /** In every reachable state every committed event of the member is accounted for. */
  lemma NoEventIsLost(w0: World, actions: seq<Action>, w: World, e: nat)
    requires Init(w0) && Reaches(w0, actions, w) && e in w.committed && e in w.mine
    ensures || e !in w.broadcast
            || OnItsWay(w.conn, e)
            || (e in w0.broadcast && e <= w0.conn.resume)
  {
    ReachesInv(w0, actions, w);
  }

  /** The pump has nothing to do. */
  predicate Drained(c: Conn) {
    c.phase == Pumping && c.inHand == None && c.replay.done && c.rx == Receiver([], false)
  }

  /** The pump idles exactly when it is drained. */
  lemma IdleIffDrained(c: Conn, outbox: set<nat>, mine: set<nat>)
    requires ConnOK(c)
    ensures Pump(c, outbox, mine) == c <==> Drained(c)
  {
  }

  // ----- what is sent by the time the connection rests -----

  /** The step broadcasts `e`, or overruns the receiver, which then rescans everything. */
  predicate BringsBack(w: World, a: Action, e: nat)
    requires Enabled(w, a)
  {
    a.Broadcast? && (w.workers[a.worker].claimed[w.workers[a.worker].sent] == e || |w.conn.rx.queue| >= HUB)
  }

  predicate BroughtBack(w: World, actions: seq<Action>, e: nat)
    decreases |actions|
  {
    actions != [] && Enabled(w, actions[0]) &&
    (BringsBack(w, actions[0], e) || BroughtBack(Next(w, actions[0]), actions[1..], e))
  }

  /** Broadcast before the subscription, not beyond the resume position, and not brought back since. */
  predicate Missed(w0: World, actions: seq<Action>, e: nat) {
    e in w0.broadcast && e <= w0.conn.resume && !BroughtBack(w0, actions, e)
  }

  lemma OnItsWayStays(w: World, a: Action, e: nat)
    requires Inv(w) && Enabled(w, a) && e in w.committed && e in w.mine
    requires OnItsWay(w.conn, e) || BringsBack(w, a, e)
    ensures OnItsWay(Next(w, a).conn, e)
  {
    if a.Broadcast? {
      var x := w.workers[a.worker].claimed[w.workers[a.worker].sent];
      if OnItsWay(w.conn, e) || x == e {
        PushLosesNothing(w.conn, x, e);
      }
    } else if a.Turn? {
      PumpLosesNothing(w.conn, w.committed, w.mine, e);
    }
  }

  lemma {:induction false} OnItsWayToTheEnd(w: World, actions: seq<Action>, w': World, e: nat)
    requires Inv(w) && Reaches(w, actions, w') && e in w.committed && e in w.mine
    requires OnItsWay(w.conn, e) || BroughtBack(w, actions, e)
    ensures OnItsWay(w'.conn, e)
    decreases |actions|
  {
    if actions != [] {
      var next := Next(w, actions[0]);
      NextKeepsInv(w, actions[0]);
      if OnItsWay(w.conn, e) || BringsBack(w, actions[0], e) {
        OnItsWayStays(w, actions[0], e);
      }
      OnItsWayToTheEnd(next, actions[1..], w', e);
    }
  }

  /** Neither sent nor anywhere on its way. */
  predicate OutOfReach(c: Conn, e: nat) {
    && e <= c.resume && e !in c.sent && c.inHand != Some(e)
    && e !in c.rx.queue && !c.rx.lagged && c.phase != Rescanning
    && (c.phase == Pumping ==> e !in c.replay.pending && c.resume <= c.replay.cursor)
  }

  lemma AdvanceSkipsOld(r: Replay, rows: set<nat>, e: nat)
    requires e !in r.pending && e <= r.cursor
    ensures var (r', entry) := Advance(r, rows); e !in r'.pending && r.cursor <= r'.cursor && entry != Some(e)
  {
    if r.pending == [] && r.cursor < r.ceiling {
      var kept := UpTo(EventsAfter(rows, r.cursor, PAGE), r.ceiling);
      EventsAfterIsPage(rows, r.cursor, PAGE);
      PageIsKept(EventsAfter(rows, r.cursor, PAGE), rows, r.cursor, r.ceiling);
      assert kept != [] ==> kept[|kept| - 1] in kept && kept[0] in kept;
    }
  }

  lemma OutOfReachStays(w: World, a: Action, e: nat)
    requires Enabled(w, a) && OutOfReach(w.conn, e) && !BringsBack(w, a, e)
    ensures OutOfReach(Next(w, a).conn, e)
  {
    if a.Turn? && w.conn.phase == Pumping && w.conn.inHand == None && !w.conn.replay.done {
      AdvanceSkipsOld(w.conn.replay, w.committed * w.mine, e);
    }
  }

  lemma {:induction false} OutOfReachToTheEnd(w: World, actions: seq<Action>, w': World, e: nat)
    requires Reaches(w, actions, w') && OutOfReach(w.conn, e) && !BroughtBack(w, actions, e)
    ensures OutOfReach(w'.conn, e)
    decreases |actions|
  {
    if actions != [] {
      OutOfReachStays(w, actions[0], e);
      OutOfReachToTheEnd(Next(w, actions[0]), actions[1..], w', e);
    }
  }

  /** An early event is never sent while nothing brings it back, at rest or not. */
  lemma MissedIsUnsent(w0: World, actions: seq<Action>, w: World, e: nat)
    requires Init(w0) && Reaches(w0, actions, w) && Missed(w0, actions, e)
    ensures e !in w.conn.sent
  {
    OutOfReachToTheEnd(w0, actions, w, e);
  }

  /** At rest the client has been sent exactly those of the member's events that it has not missed. */
  lemma AtRestAllIsSent(w0: World, actions: seq<Action>, w: World)
    requires Init(w0) && Reaches(w0, actions, w) && Drained(w.conn) && w.published == w.committed
    ensures forall e :: e in w.conn.sent ==> e in w.mine
    ensures forall e :: e in w.committed && e in w.mine ==> (e in w.conn.sent <==> !Missed(w0, actions, e))
  {
    ReachesInv(w0, actions, w);
    forall e | e in w.committed && e in w.mine ensures e in w.conn.sent <==> !Missed(w0, actions, e) {
      if Missed(w0, actions, e) {
        MissedIsUnsent(w0, actions, w, e);
      } else if e in w0.broadcast && BroughtBack(w0, actions, e) {
        OnItsWayToTheEnd(w0, actions, w, e);
      } else {
        NoEventIsLost(w0, actions, w, e);
      }
    }
  }

  // ----- rest is reached -----

  function ScanWork(r: Replay): nat {
    if r.done then 0 else 2 * Remaining(r) + 1
  }

  /** Turns still needed when nothing more is committed or broadcast. */
  function Work(c: Conn, outbox: set<nat>): nat {
    var rescan := ScanWork(Start(NOWHERE, outbox));
    var first := match c.phase
      case Subscribed => 1 + ScanWork(Start(c.resume, outbox))
      case Rescanning => 1 + rescan
      case Pumping => ScanWork(c.replay);
    first + (if c.inHand.Some? then 1 else 0) + 2 * |c.rx.queue| + (if c.rx.lagged then 2 + rescan else 0)
  }

  lemma TurnWorks(c: Conn, outbox: set<nat>, mine: set<nat>)
    requires ConnOK(c) && !Drained(c)
    ensures Work(Pump(c, outbox, mine), outbox) < Work(c, outbox)
  {
    if c.phase == Pumping && c.inHand == None && !c.replay.done {
      AdvanceShrinks(c.replay, outbox * mine);
    }
  }

  /** The world after a number of turns and nothing else. */
  function Turns(w: World, n: nat): World
    decreases n
  {
    if n == 0 then w else Turns(Next(w, Turn), n - 1)
  }

  /** Once the server falls quiet, `Work` turns bring the connection to rest, and it stays there. */
  lemma {:induction false} QuietConnectionRests(w: World, n: nat)
    requires Inv(w) && n >= Work(w.conn, w.committed)
    ensures Reaches(w, seq(n, _ => Turn), Turns(w, n)) && Drained(Turns(w, n).conn)
    decreases n
  {
    var turns := seq(n, _ => Turn);
    if n > 0 {
      var next := Next(w, Turn);
      NextKeepsInv(w, Turn);
      if Drained(w.conn) {
        IdleIffDrained(w.conn, w.committed, w.mine);
      } else {
        TurnWorks(w.conn, w.committed, w.mine);
      }
      QuietConnectionRests(next, n - 1);
      assert turns[1..] == seq(n - 1, _ => Turn);
    }
  }

  // ----- and in which order -----

  /** What sending these ids one after the other makes of `sent`: the visible ones not among the last 1024 sent. */
  function SendAll(sent: seq<nat>, ids: seq<nat>, mine: set<nat>): seq<nat>
    decreases |ids|
  {
    if ids == [] then sent
    else
      var recent := sent[|sent| - Min(1024, |sent|)..];
      SendAll(if ids[0] in mine && ids[0] !in recent then sent + [ids[0]] else sent, ids[1..], mine)
  }

  /** The rows beyond `low` and up to `high`, in id order. */
  function Ascend(rows: set<nat>, low: int, high: int): seq<nat>
    decreases high - low
  {
    if low >= high then []
    else (if low >= NOWHERE && low + 1 in rows then [low + 1] else []) + Ascend(rows, low + 1, high)
  }

  function ToScan(r: Replay, rows: set<nat>): seq<nat> {
    r.pending + Ascend(rows, r.cursor, r.ceiling)
  }

  /** What the scan still brings: the rest of the running one, or all of one about to start. */
  function ScanAhead(c: Conn, outbox: set<nat>, rows: set<nat>): seq<nat> {
    match c.phase
    case Subscribed => Ascend(rows, c.resume, Newest(outbox))
    case Rescanning => Ascend(rows, NOWHERE, Newest(outbox))
    case Pumping => if c.replay.done then [] else ToScan(c.replay, rows)
  }

  /** After that, a rescan when the receiver has lagged, and the live queue. */
  function LiveAhead(rx: Receiver, outbox: set<nat>, rows: set<nat>): seq<nat> {
    (if rx.lagged then Ascend(rows, NOWHERE, Newest(outbox)) else []) + rx.queue
  }

  /** What the connection will consider, in order. */
  function Upcoming(c: Conn, outbox: set<nat>, mine: set<nat>): seq<nat> {
    (if c.inHand.Some? then [c.inHand.value] else [])
    + (ScanAhead(c, outbox, outbox * mine) + LiveAhead(c.rx, outbox, outbox * mine))
  }

  lemma {:induction false} NothingToAscend(rows: set<nat>, low: int, high: int)
    requires forall x :: x in rows ==> !(low < x <= high)
    ensures Ascend(rows, low, high) == []
    decreases high - low
  {
    if low < high {
      NothingToAscend(rows, low + 1, high);
    }
  }

  lemma KeptStarts(kept: seq<nat>, rows: set<nat>, low: int, high: int)
    requires Kept(kept, rows, low, high) && kept != []
    ensures low < kept[0] <= kept[|kept| - 1] <= high && kept[0] in rows
    ensures low + 1 in rows ==> kept[0] == low + 1
    ensures kept[0] != low + 1 ==> Kept(kept, rows, low + 1, high)
  {
    assert kept[0] in kept && kept[|kept| - 1] in kept;
    if low + 1 in rows {
      assert low + 1 in kept;
    }
  }

  lemma KeptRest(kept: seq<nat>, rows: set<nat>, low: int, high: int)
    requires Kept(kept, rows, low, high) && |kept| > 1 && kept[0] == low + 1
    ensures Kept(kept[1..], rows, low + 1, high) && low + 1 < high
  {
    var rest := kept[1..];
    assert kept == [kept[0]] + rest && kept[1] in kept;
    assert forall i :: 0 <= i < |rest| ==> rest[i] == kept[i + 1];
    forall x | x in rest ensures x in rows && low + 1 < x <= high {
      var i :| 0 <= i < |rest| && rest[i] == x;
      assert kept[0] < kept[i + 1] && kept[i + 1] in kept;
    }
    forall x | x in rows && low + 1 < x <= rest[|rest| - 1] ensures x in rest {
      assert x in kept;
    }
  }

  lemma AscendTakes(rows: set<nat>, low: int, high: int)
    requires NOWHERE <= low < high && low + 1 in rows
    ensures Ascend(rows, low, high) == [low + 1] + Ascend(rows, low + 1, high)
  {
  }

  lemma Regroup(kept: seq<nat>, rest: seq<nat>)
    requires kept != []
    ensures [kept[0]] + (kept[1..] + rest) == kept + rest
  {
  }

  lemma AscendJoins(kept: seq<nat>, rows: set<nat>, low: int, high: int)
    requires kept != [] && kept[0] == low + 1 && kept[0] in rows && low < high
    requires |kept| > 1 ==> Ascend(rows, low + 1, high) == kept[1..] + Ascend(rows, kept[|kept| - 1], high)
    ensures Ascend(rows, low, high) == kept + Ascend(rows, kept[|kept| - 1], high)
  {
    AscendTakes(rows, low, high);
    Regroup(kept, Ascend(rows, kept[|kept| - 1], high));
    if |kept| == 1 {
      assert kept[1..] == [];
    }
  }

  lemma AscendSkips(rows: set<nat>, low: int, high: int)
    requires low < high && low + 1 !in rows
    ensures Ascend(rows, low, high) == Ascend(rows, low + 1, high)
  {
  }

  /** A page that skips nothing is how the ascent begins. */
  lemma {:induction false} AscendBegins(kept: seq<nat>, rows: set<nat>, low: int, high: int)
    requires Kept(kept, rows, low, high) && kept != [] && low < high
    ensures Ascend(rows, low, high) == kept + Ascend(rows, kept[|kept| - 1], high)
    decreases high - low
  {
    KeptStarts(kept, rows, low, high);
    if kept[0] == low + 1 {
      if |kept| > 1 {
        KeptRest(kept, rows, low, high);
        AscendBegins(kept[1..], rows, low + 1, high);
      }
      AscendJoins(kept, rows, low, high);
    } else {
      AscendSkips(rows, low, high);
      AscendBegins(kept, rows, low + 1, high);
    }
  }

  /** The next rows of the scan, as one fetched page leaves them. */
  lemma PageFollows(kept: seq<nat>, rows: set<nat>, cursor: int, ceiling: int)
    requires Kept(kept, rows, cursor, ceiling) && cursor < ceiling
    ensures kept == [] ==> Ascend(rows, cursor, ceiling) == []
    ensures kept != [] ==>
      Ascend(rows, cursor, ceiling) == [kept[0]] + (kept[1..] + Ascend(rows, kept[|kept| - 1], ceiling))
  {
    if kept == [] {
      NothingToAscend(rows, cursor, ceiling);
    } else {
      AscendBegins(kept, rows, cursor, ceiling);
      Regroup(kept, Ascend(rows, kept[|kept| - 1], ceiling));
    }
  }

  lemma PopFollows(r: Replay, rows: set<nat>)
    requires r.pending != []
    ensures ToScan(r, rows) == [r.pending[0]] + ToScan(r.(pending := r.pending[1..]), rows)
  {
    Regroup(r.pending, Ascend(rows, r.cursor, r.ceiling));
  }

  lemma AdvanceFollows(r: Replay, rows: set<nat>)
    requires !r.done
    ensures var (r', entry) := Advance(r, rows);
      if entry.Some? then !r'.done && ToScan(r, rows) == [entry.value] + ToScan(r', rows)
      else r'.done && ToScan(r, rows) == []
  {
    if r.pending != [] {
      PopFollows(r, rows);
    } else if r.cursor < r.ceiling {
      var page := EventsAfter(rows, r.cursor, PAGE);
      EventsAfterIsPage(rows, r.cursor, PAGE);
      PageIsKept(page, rows, r.cursor, r.ceiling);
      PageFollows(UpTo(page, r.ceiling), rows, r.cursor, r.ceiling);
    }
  }

  lemma SendOne(sent: seq<nat>, e: nat, rest: seq<nat>, mine: set<nat>)
    ensures var recent := sent[|sent| - Min(1024, |sent|)..];
      SendAll(sent, [e] + rest, mine)
      == SendAll(if e in mine && e !in recent then sent + [e] else sent, rest, mine)
  {
    assert ([e] + rest)[1..] == rest;
  }

  lemma StartAhead(c: Conn, outbox: set<nat>, mine: set<nat>)
    requires c.phase != Pumping && c.resume >= NOWHERE
    ensures ScanAhead(Pump(c, outbox, mine), outbox, outbox * mine) == ScanAhead(c, outbox, outbox * mine)
  {
  }

  lemma StartKeepsUpcoming(c: Conn, outbox: set<nat>, mine: set<nat>)
    requires c.phase != Pumping && c.inHand == None && c.resume >= NOWHERE
    ensures Upcoming(Pump(c, outbox, mine), outbox, mine) == Upcoming(c, outbox, mine)
  {
    StartAhead(c, outbox, mine);
  }

  lemma ScanKeepsUpcoming(c: Conn, outbox: set<nat>, mine: set<nat>)
    requires c.phase == Pumping && c.inHand == None && !c.replay.done
    ensures Upcoming(Fetch(c, outbox * mine), outbox, mine) == Upcoming(c, outbox, mine)
  {
    var rows := outbox * mine;
    var (r', entry) := Advance(c.replay, rows);
    AdvanceFollows(c.replay, rows);
    var live := LiveAhead(c.rx, outbox, rows);
    assert Upcoming(c, outbox, mine) == ToScan(c.replay, rows) + live;
    if entry.Some? {
      assert Upcoming(Fetch(c, rows), outbox, mine) == [entry.value] + (ToScan(r', rows) + live);
    }
  }

  lemma LiveKeepsUpcoming(c: Conn, outbox: set<nat>, mine: set<nat>)
    requires c.phase == Pumping && c.inHand == None && c.replay.done
    ensures Upcoming(Fetch(c, outbox * mine), outbox, mine) == Upcoming(c, outbox, mine)
  {
    if !c.rx.lagged && c.rx.queue != [] {
      assert c.rx.queue == [c.rx.queue[0]] + c.rx.queue[1..];
    }
  }

  lemma SeenIsRecent(seen: seq<nat>, sent: seq<nat>)
    requires SeenOK(seen, sent)
    ensures seen == sent[|sent| - Min(1024, |sent|)..]
  {
  }

  lemma DeliverSends(c: Conn, mine: set<nat>)
    requires c.inHand.Some? && SeenOK(c.seen, c.sent)
    ensures var c', e, recent := Deliver(c, mine), c.inHand.value, c.sent[|c.sent| - Min(1024, |c.sent|)..];
      && c'.sent == (if e in mine && e !in recent then c.sent + [e] else c.sent)
      && c'.inHand == None && c'.rx == c.rx && c'.phase == c.phase && c'.replay == c.replay && c'.resume == c.resume
  {
    SeenIsRecent(c.seen, c.sent);
  }

  lemma HandedOver(c: Conn, c': Conn, outbox: set<nat>, mine: set<nat>)
    requires c.inHand.Some? && c' == c.(inHand := None, seen := c'.seen, sent := c'.sent)
    ensures Upcoming(c, outbox, mine) == [c.inHand.value] + Upcoming(c', outbox, mine)
  {
  }

  lemma DeliverKeepsOrder(c: Conn, outbox: set<nat>, mine: set<nat>)
    requires ConnOK(c) && c.phase == Pumping && c.inHand.Some?
    ensures var c' := Deliver(c, mine);
      SendAll(c'.sent, Upcoming(c', outbox, mine), mine) == SendAll(c.sent, Upcoming(c, outbox, mine), mine)
  {
    var c' := Deliver(c, mine);
    DeliverSends(c, mine);
    HandedOver(c, c', outbox, mine);
    SendOne(c.sent, c.inHand.value, Upcoming(c', outbox, mine), mine);
  }

  /** No turn changes what will have been sent in the end. */
  lemma TurnKeepsOrder(c: Conn, outbox: set<nat>, mine: set<nat>)
    requires ConnOK(c) && c.resume >= NOWHERE
    ensures var c' := Pump(c, outbox, mine);
      SendAll(c'.sent, Upcoming(c', outbox, mine), mine) == SendAll(c.sent, Upcoming(c, outbox, mine), mine)
  {
    if c.phase != Pumping {
      StartKeepsUpcoming(c, outbox, mine);
    } else if c.inHand.Some? {
      DeliverKeepsOrder(c, outbox, mine);
    } else if c.replay.done {
      LiveKeepsUpcoming(c, outbox, mine);
    } else {
      ScanKeepsUpcoming(c, outbox, mine);
    }
  }

  /**
   What a connection has sent once the server is quiet, event by event: first the
   scan in id order, then what was broadcast live in the order of broadcast, with
   a rescan in between after a lag, and repeats left out.
   */
  lemma {:induction false} QuietConnectionSends(w: World, n: nat)
    requires Inv(w) && n >= Work(w.conn, w.committed)
    ensures Turns(w, n).conn.sent == SendAll(w.conn.sent, Upcoming(w.conn, w.committed, w.mine), w.mine)
    decreases n
  {
    if n == 0 {
      QuietConnectionRests(w, 0);
      assert Upcoming(w.conn, w.committed, w.mine) == [];
    } else {
      NextKeepsInv(w, Turn);
      TurnKeepsOrder(w.conn, w.committed, w.mine);
      if Drained(w.conn) {
        IdleIffDrained(w.conn, w.committed, w.mine);
      } else {
        TurnWorks(w.conn, w.committed, w.mine);
      }
      QuietConnectionSends(Next(w, Turn), n - 1);
    }
  }

  /** Live events leave in the order in which they were broadcast, two turns each. */
  lemma LiveEventsKeepOrder(w: World)
    requires Inv(w) && w.conn.phase == Pumping && w.conn.replay.done && w.conn.inHand == None && !w.conn.rx.lagged
    ensures var w' := Turns(w, 2 * |w.conn.rx.queue|);
      w'.conn.sent == SendAll(w.conn.sent, w.conn.rx.queue, w.mine) && w'.conn.rx == Receiver([], false)
  {
    assert Upcoming(w.conn, w.committed, w.mine) == w.conn.rx.queue;
    QuietConnectionSends(w, 2 * |w.conn.rx.queue|);
    QuietConnectionRests(w, 2 * |w.conn.rx.queue|);
  }

  /** The world after an event has been committed and has gone through a worker's round. */
  function Delivered(w: World, e: nat, worker: nat): World
    requires e !in w.committed && e !in w.published && worker !in w.workers
  {
    var w2 := Next(Next(w, Commit(e)), Claim(worker, [e]));
    Next(Next(w2, Broadcast(worker)), Mark(worker))
  }

  lemma ReachesFour(w: World, a: Action, b: Action, c: Action, d: Action)
    requires Enabled(w, a) && Enabled(Next(w, a), b) && Enabled(Next(Next(w, a), b), c)
    requires Enabled(Next(Next(Next(w, a), b), c), d)
    ensures Reaches(w, [a, b, c, d], Next(Next(Next(Next(w, a), b), c), d))
  {
    assert [a, b, c, d][1..] == [b, c, d] && [b, c, d][1..] == [c, d] && [c, d][1..] == [d] && [d][1..] == [];
    var w3 := Next(Next(Next(w, a), b), c);
    assert Reaches(w3, [d], Next(w3, d));
    assert Reaches(Next(Next(w, a), b), [c, d], Next(w3, d));
    assert Reaches(Next(w, a), [b, c, d], Next(w3, d));
  }

  /** Committed, claimed, broadcast and marked, a new event of the member is sent after some turns. */
  lemma NewEventArrives(w: World, e: nat, worker: nat, n: nat)
    requires Inv(w) && e !in w.committed && e !in w.published && e in w.mine && worker !in w.workers
    ensures Reaches(w, [Commit(e), Claim(worker, [e]), Broadcast(worker), Mark(worker)], Delivered(w, e, worker))
    ensures var w' := Delivered(w, e, worker); e in w'.published && w'.workers == w.workers
    ensures var w' := Delivered(w, e, worker); n >= Work(w'.conn, w'.committed) ==> e in Turns(w', n).conn.sent
  {
    var w1 := Next(w, Commit(e));
    var w2 := Next(w1, Claim(worker, [e]));
    var w3 := Next(w2, Broadcast(worker));
    var w4 := Next(w3, Mark(worker));
    NextKeepsInv(w, Commit(e));
    NextKeepsInv(w1, Claim(worker, [e]));
    NextKeepsInv(w2, Broadcast(worker));
    NextKeepsInv(w3, Mark(worker));
    ReachesFour(w, Commit(e), Claim(worker, [e]), Broadcast(worker), Mark(worker));
    PushLosesNothing(w2.conn, e, e);
    assert w4.workers == w.workers;
    if n >= Work(w4.conn, w4.committed) {
      QuietConnectionRests(w4, n);
      ReachesInv(w4, seq(n, _ => Turn), Turns(w4, n));
      OnItsWayToTheEnd(w4, seq(n, _ => Turn), Turns(w4, n), e);
    }
  }

  /** Redelivery is suppressed over the last `SEEN` sends. */
  lemma NoNearDuplicate(w0: World, actions: seq<Action>, w: World, i: nat, j: nat)
    requires Init(w0) && Reaches(w0, actions, w) && i < j < |w.conn.sent| && j - i <= SEEN
    ensures w.conn.sent[i] != w.conn.sent[j]
  {
    ReachesInv(w0, actions, w);
  }

  /**
   Events are missed: 5 was committed and broadcast first and is where the
   client resumes; 3, allocated before it, was committed and broadcast later but
   still before the subscription.
   */
  lemma ExceptionIsReal(w0: World)
    requires w0 == World({3, 5}, {3, 5}, {3, 5}, map[], {3, 5}, {3, 5},
                         Conn(5, Receiver([], false), Subscribed, Replay(NOWHERE, NOWHERE, [], true), None, [], []))
    ensures Init(w0)
    ensures exists w: World ::
      Reaches(w0, [Turn, Turn], w) && Drained(w.conn) && w.published == w.committed && 3 !in w.conn.sent
  {
  }
}
