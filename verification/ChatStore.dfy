/**
 The client's chat store: conversation rows that only move forward, message
 lists, the history cursor kept apart from messages that arrive out of order,
 and gateway event deduplication.
 */
module ChatStore {
  import opened Prelude
  import opened Store

  /** A position field of a row: missing, null, or a number. */
  datatype Field = Absent | Null | At(pos: int)

  datatype Row = Row(id: nat, members: set<nat>, lastRead: Field, lastSeq: Field)

  datatype Info = Info(conversation: nat, message: nat, pos: int)

  /** A gateway event; `info` is what a well-formed `message.created` carries. */
  datatype Event = Event(id: nat, info: Option<Info>)

  /** Spread of `incoming` over `current`, except that two numbers never rewind. */
  function Spread(current: Field, incoming: Field): Field {
    if incoming.Absent? then current
    else if current.At? && incoming.At? then At(Max(current.pos, incoming.pos))
    else incoming
  }

  function Combine(current: Row, incoming: Row): Row {
    Row(current.id, incoming.members, Spread(current.lastRead, incoming.lastRead),
      Spread(current.lastSeq, incoming.lastSeq))
  }

  predicate Listed(rows: seq<Row>, id: nat) {
    exists r :: r in rows && r.id == id
  }

  function Replace(rows: seq<Row>, incoming: Row): seq<Row> {
    if rows == [] then []
    else [if rows[0].id == incoming.id then Combine(rows[0], incoming) else rows[0]] + Replace(rows[1..], incoming)
  }

  function Place(row: Row, rows: seq<Row>): seq<Row> {
    if rows == [] || row.id <= rows[0].id then [row] + rows else [rows[0]] + Place(row, rows[1..])
  }

  function ById(rows: seq<Row>): seq<Row> {
    if rows == [] then [] else Place(rows[0], ById(rows[1..]))
  }

  function Upsert(rows: seq<Row>, incoming: Row): seq<Row> {
    ById(if Listed(rows, incoming.id) then Replace(rows, incoming) else rows + [incoming])
  }

  /** One row per id, in id order: what every list in the store looks like. */
  predicate Tidy(rows: seq<Row>) {
    forall i, j :: 0 <= i < j < |rows| ==> rows[i].id < rows[j].id
  }

  function Find(rows: seq<Row>, id: nat): Option<Row> {
    if rows == [] then None else if rows[0].id == id then Some(rows[0]) else Find(rows[1..], id)
  }

  lemma {:induction false} FindFacts(rows: seq<Row>, id: nat)
    ensures Find(rows, id).Some? <==> Listed(rows, id)
    ensures Find(rows, id).Some? ==> Find(rows, id).value in rows && Find(rows, id).value.id == id
  {
    if rows != [] {
      FindFacts(rows[1..], id);
      assert rows == [rows[0]] + rows[1..];
    }
  }

  function Replaced(row: Option<Row>, incoming: Row): Option<Row> {
    if row.Some? && row.value.id == incoming.id then Some(Combine(row.value, incoming)) else row
  }

  lemma {:induction false} ReplaceFacts(rows: seq<Row>, incoming: Row)
    requires Tidy(rows)
    ensures Tidy(Replace(rows, incoming)) && |Replace(rows, incoming)| == |rows|
    ensures forall i :: 0 <= i < |rows| ==> Replace(rows, incoming)[i].id == rows[i].id
    ensures forall id :: Find(Replace(rows, incoming), id) == Replaced(Find(rows, id), incoming)
  {
    if rows != [] {
      ReplaceFacts(rows[1..], incoming);
    }
  }

  lemma {:induction false} PlaceFacts(row: Row, rows: seq<Row>)
    requires Tidy(rows) && !Listed(rows, row.id)
    ensures Tidy(Place(row, rows))
    ensures forall r :: r in Place(row, rows) <==> r == row || r in rows
    ensures forall id :: Find(Place(row, rows), id) == if id == row.id then Some(row) else Find(rows, id)
  {
    FindFacts(rows, row.id);
    if rows != [] && row.id > rows[0].id {
      assert rows == [rows[0]] + rows[1..];
      assert !Listed(rows[1..], row.id);
      PlaceFacts(row, rows[1..]);
      var rest := Place(row, rows[1..]);
      forall j | 0 <= j < |rest| ensures rows[0].id < rest[j].id {
        assert rest[j] in rest;
      }
    } else if rows != [] {
      assert rows[0] in rows;
    }
  }

  lemma {:induction false} ByIdOfTidy(rows: seq<Row>)
    requires Tidy(rows)
    ensures ById(rows) == rows
  {
    if rows != [] {
      ByIdOfTidy(rows[1..]);
    }
  }

  lemma {:induction false} ByIdOfAppend(rows: seq<Row>, row: Row)
    requires Tidy(rows) && !Listed(rows, row.id)
    ensures ById(rows + [row]) == Place(row, rows)
  {
    if rows == [] {
      assert rows + [row] == [row];
    } else {
      assert rows == [rows[0]] + rows[1..];
      assert (rows + [row])[1..] == rows[1..] + [row];
      assert !Listed(rows[1..], row.id);
      ByIdOfAppend(rows[1..], row);
      PlaceFacts(row, rows[1..]);
      assert rows[0] in rows && rows[0].id != row.id;
      var rest := rows[1..];
      assert rest == [] || rest[0] == rows[1];
      var placed := Place(row, rest);
      assert ById(rows + [row]) == Place(rows[0], placed);
      if row.id < rows[0].id {
        assert placed == [row] + rest && placed[1..] == rest;
        assert Place(rows[0], rest) == [rows[0]] + rest;
        assert Place(rows[0], placed) == [row] + ([rows[0]] + rest);
        assert Place(row, rows) == [row] + rows;
      } else {
        assert placed[0] in placed;
        assert placed[0].id > rows[0].id;
        assert Place(rows[0], placed) == [rows[0]] + placed;
        assert Place(row, rows) == [rows[0]] + placed;
      }
    }
  }

  /** An upsert touches one row only, and no position both sides know goes back. */
  lemma UpsertFacts(rows: seq<Row>, incoming: Row)
    requires Tidy(rows)
    ensures Tidy(Upsert(rows, incoming))
    ensures forall id :: id != incoming.id ==> Find(Upsert(rows, incoming), id) == Find(rows, id)
    ensures Find(Upsert(rows, incoming), incoming.id) ==
      Some(if Find(rows, incoming.id).Some? then Combine(Find(rows, incoming.id).value, incoming) else incoming)
  {
    FindFacts(rows, incoming.id);
    if Listed(rows, incoming.id) {
      forall id ensures Find(rows, id).Some? ==> Find(rows, id).value.id == id {
        FindFacts(rows, id);
      }
      ReplaceFacts(rows, incoming);
      ByIdOfTidy(Replace(rows, incoming));
    } else {
      ByIdOfAppend(rows, incoming);
      PlaceFacts(incoming, rows);
    }
  }

  // ----- the store as a state machine -----

  datatype State = State(
    rows: seq<Row>,
    lists: map<nat, seq<Msg>>,
    cursors: map<nat, int>,
    seen: set<nat>,
    last: Option<nat>)

  const EMPTY := State([], map[], map[], {}, None)

  datatype Op =
    | Add(row: Row)
    | Ensure(id: nat)
    | History(id: nat, incoming: seq<Msg>)
    | Outgoing(message: Msg)
    | HistoryPage(id: nat, incoming: seq<Msg>)
    | ReadMarker(id: nat, pos: int, initialize: bool)
    | Receive(event: Event)
    | Forget(ids: set<nat>)

  function ListOf(lists: map<nat, seq<Msg>>, id: nat): seq<Msg> {
    if id in lists then lists[id] else []
  }

  function Cursor(cursors: map<nat, int>, id: nat): int {
    if id in cursors then cursors[id] else 0
  }

  function Placeholder(id: nat): Row {
    Row(id, {}, Absent, Absent)
  }

  function Ensured(rows: seq<Row>, id: nat): seq<Row> {
    if Find(rows, id).Some? then rows else Upsert(rows, Placeholder(id))
  }

  function Marked(rows: seq<Row>, id: nat, pos: int, initialize: bool): seq<Row> {
    match Find(rows, id)
    case None => rows
    case Some(row) =>
      if (if row.lastRead.At? then pos <= row.lastRead.pos else !initialize) then rows
      else Upsert(rows, row.(lastRead := At(pos)))
  }

  function Announced(rows: seq<Row>, id: nat, pos: int): seq<Row> {
    var ensured := Ensured(rows, id);
    var row := if Find(ensured, id).Some? then Find(ensured, id).value else Placeholder(id);
    if (if row.lastSeq.At? then row.lastSeq.pos else 0) < pos then Upsert(ensured, row.(lastSeq := At(pos)))
    else ensured
  }

  function Kept(rows: seq<Row>, gone: set<nat>): seq<Row> {
    if rows == [] then []
    else (if rows[0].id in gone then [] else [rows[0]]) + Kept(rows[1..], gone)
  }

  function Step(s: State, op: Op): State {
    match op
    case Add(row) => s.(rows := Upsert(s.rows, row))
    case Ensure(id) => s.(rows := Ensured(s.rows, id))
    case History(id, incoming) => s.(lists := s.lists[id := Merge(ListOf(s.lists, id), incoming)])
    case Outgoing(m) => s.(lists := s.lists[m.conversation := Merge(ListOf(s.lists, m.conversation), [m])])
    case HistoryPage(id, incoming) =>
      s.(lists := s.lists[id := Merge(ListOf(s.lists, id), incoming)],
         cursors := s.cursors[id := Highest(incoming, Cursor(s.cursors, id))])
    case ReadMarker(id, pos, initialize) => s.(rows := Marked(s.rows, id, pos, initialize))
    case Receive(event) =>
      if event.id in s.seen then s
      else
        s.(seen := s.seen + {event.id}, last := Some(event.id),
           rows := if event.info.Some? then Announced(s.rows, event.info.value.conversation, event.info.value.pos)
             else s.rows)
    case Forget(ids) =>
      State(Kept(s.rows, ids), s.lists - ids, s.cursors - ids, s.seen, s.last)
  }

  function Run(s: State, ops: seq<Op>): State {
    if ops == [] then s else Step(Run(s, ops[..|ops| - 1]), ops[|ops| - 1])
  }

  /** Rows in id order, one per id; every list sorted and free of duplicates. */
  predicate WellKept(s: State) {
    Tidy(s.rows) && forall id :: id in s.lists ==> Sorted(s.lists[id]) && NoDuplicates(s.lists[id])
  }

  lemma {:induction false} KeptFacts(rows: seq<Row>, gone: set<nat>)
    requires Tidy(rows)
    ensures Tidy(Kept(rows, gone))
    ensures forall r :: r in Kept(rows, gone) <==> r in rows && r.id !in gone
  {
    if rows != [] {
      KeptFacts(rows[1..], gone);
      assert rows == [rows[0]] + rows[1..];
      var rest := Kept(rows[1..], gone);
      forall j | 0 <= j < |rest| ensures rows[0].id < rest[j].id {
        assert rest[j] in rest && rest[j] in rows[1..];
      }
    }
  }

  /** The marker alone moves: up to `pos`, or from missing to `pos` when that is allowed. */
  function MarkedRow(row: Row, pos: int, initialize: bool): Row {
    if row.lastRead.At? then row.(lastRead := At(Max(row.lastRead.pos, pos)))
    else if initialize then row.(lastRead := At(pos)) else row
  }

  lemma MarkedFacts(rows: seq<Row>, id: nat, pos: int, initialize: bool)
    requires Tidy(rows)
    ensures var out := Marked(rows, id, pos, initialize);
      && Tidy(out)
      && (forall k :: k != id ==> Find(out, k) == Find(rows, k))
      && (Find(rows, id) == None ==> out == rows)
      && (Find(rows, id).Some? ==> Find(out, id) == Some(MarkedRow(Find(rows, id).value, pos, initialize)))
  {
    FindFacts(rows, id);
    if Find(rows, id).Some? {
      UpsertFacts(rows, Find(rows, id).value.(lastRead := At(pos)));
    }
  }

  function AnnouncedRow(row: Row, pos: int): Row {
    if row.lastSeq.At? then row.(lastSeq := At(Max(row.lastSeq.pos, pos)))
    else if pos > 0 then row.(lastSeq := At(pos)) else row
  }

  lemma AnnouncedFacts(rows: seq<Row>, id: nat, pos: int)
    requires Tidy(rows)
    ensures var out := Announced(rows, id, pos);
      && Tidy(out)
      && (forall k :: k != id ==> Find(out, k) == Find(rows, k))
      && Find(out, id)
        == Some(AnnouncedRow(if Find(rows, id).Some? then Find(rows, id).value else Placeholder(id), pos))
  {
    FindFacts(rows, id);
    UpsertFacts(rows, Placeholder(id));
    var ensured := Ensured(rows, id);
    FindFacts(ensured, id);
    UpsertFacts(ensured, Find(ensured, id).value.(lastSeq := At(pos)));
  }

  lemma StepKeepsOrder(s: State, op: Op)
    requires WellKept(s)
    ensures WellKept(Step(s, op))
  {
    match op
    case Add(row) => UpsertFacts(s.rows, row);
    case Ensure(id) => UpsertFacts(s.rows, Placeholder(id));
    case History(id, incoming) => MergeFacts(ListOf(s.lists, id), incoming);
    case Outgoing(m) => MergeFacts(ListOf(s.lists, m.conversation), [m]);
    case HistoryPage(id, incoming) => MergeFacts(ListOf(s.lists, id), incoming);
    case ReadMarker(id, pos, initialize) => MarkedFacts(s.rows, id, pos, initialize);
    case Receive(event) =>
      if event.info.Some? {
        AnnouncedFacts(s.rows, event.info.value.conversation, event.info.value.pos);
      }
    case Forget(ids) => KeptFacts(s.rows, ids);
  }

  lemma {:induction false} RunKeepsOrder(s: State, ops: seq<Op>)
    requires WellKept(s)
    ensures WellKept(Run(s, ops))
  {
    if ops != [] {
      RunKeepsOrder(s, ops[..|ops| - 1]);
      StepKeepsOrder(Run(s, ops[..|ops| - 1]), ops[|ops| - 1]);
    }
  }

  /** The newest of two known positions; otherwise what came, unless nothing came. */
  predicate Advanced(before: Field, incoming: Field, after: Field) {
    match incoming
    case Absent => after == before
    case Null => after == Null
    case At(p) =>
      if before.At? then after in {before, incoming} && after.pos >= p && after.pos >= before.pos else after == incoming
  }

  /** A listed conversation takes the members that came and keeps its newest positions. */
  lemma UpsertedRow(rows: seq<Row>, incoming: Row)
    requires Tidy(rows) && Find(rows, incoming.id).Some?
    ensures var before, after := Find(rows, incoming.id).value, Find(Upsert(rows, incoming), incoming.id);
      && after.Some? && after.value.members == incoming.members
      && Advanced(before.lastRead, incoming.lastRead, after.value.lastRead)
      && Advanced(before.lastSeq, incoming.lastSeq, after.value.lastSeq)
  {
    UpsertFacts(rows, incoming);
    FindFacts(rows, incoming.id);
  }

  predicate RowAnnounced(before: Option<Row>, after: Row, pos: int) {
    && (before.Some? ==> after.lastRead == before.value.lastRead && after.members == before.value.members)
    && (before == None ==> after.lastRead == Absent && after.members == {})
    && (pos > 0 ==> after.lastSeq.At? && after.lastSeq.pos >= pos)
    && after.lastSeq in {At(pos), if before.Some? then before.value.lastSeq else Absent}
  }

  /**
   A first-seen event becomes the resume position, lifts the announced position
   of its row, creating the row when it is missing, and touches no other row.
   */
  lemma ReceivedEvent(s: State, event: Event)
    requires WellKept(s) && event.id !in s.seen
    ensures var s' := Step(s, Receive(event));
      && s'.last == Some(event.id) && s'.seen == s.seen + {event.id} && s'.lists == s.lists && s'.cursors == s.cursors
      && (event.info == None ==> s'.rows == s.rows)
      && (event.info.Some? ==>
            var id := event.info.value.conversation;
            && (forall k :: k != id ==> Find(s'.rows, k) == Find(s.rows, k))
            && Find(s'.rows, id).Some? && RowAnnounced(Find(s.rows, id), Find(s'.rows, id).value, event.info.value.pos))
  {
    if event.info.Some? {
      AnnouncedFacts(s.rows, event.info.value.conversation, event.info.value.pos);
    }
  }

  // ----- what each operation achieves -----

  /** A row that was not listed is there as it came; no other row is touched (see `UpsertedRow` for a listed one). */
  lemma AddedRow(s: State, row: Row)
    requires WellKept(s)
    ensures var s' := Step(s, Add(row));
      && s' == s.(rows := s'.rows) && (forall k :: k != row.id ==> Find(s'.rows, k) == Find(s.rows, k))
      && Find(s'.rows, row.id).Some? && (Find(s.rows, row.id) == None ==> Find(s'.rows, row.id) == Some(row))
      && s'.rows == Upsert(s.rows, row)
  {
    UpsertFacts(s.rows, row);
  }

  lemma EnsuredRow(s: State, id: nat)
    requires WellKept(s)
    ensures var s' := Step(s, Ensure(id));
      && s' == s.(rows := s'.rows) && (forall k :: k != id ==> Find(s'.rows, k) == Find(s.rows, k))
      && Find(s'.rows, id) == (if Find(s.rows, id).Some? then Find(s.rows, id) else Some(Row(id, {}, Absent, Absent)))
  {
    UpsertFacts(s.rows, Placeholder(id));
  }

  /** Everything loaded stays, everything incoming is represented, and only what came is new. */
  ghost predicate Loads(s: State, s': State, id: nat, incoming: seq<Msg>) {
    var before, after := ListOf(s.lists, id), ListOf(s'.lists, id);
    && (forall m :: m in before ==> m in after) && (forall m :: m in incoming ==> Known(after, m))
    && (forall m :: m in after ==> m in before || m in incoming)
    && (forall k :: k != id ==> ListOf(s'.lists, k) == ListOf(s.lists, k))
    && s'.rows == s.rows && s'.seen == s.seen && s'.last == s.last
  }

  /** The three ways messages come in; only a history page moves the cursor, to its newest row. */
  lemma LoadedMessages(s: State, id: nat, incoming: seq<Msg>, m: Msg)
    ensures var s' := Step(s, History(id, incoming)); Loads(s, s', id, incoming) && s'.cursors == s.cursors
    ensures var s' := Step(s, Outgoing(m)); Loads(s, s', m.conversation, [m]) && s'.cursors == s.cursors
    ensures var s' := Step(s, HistoryPage(id, incoming));
      && Loads(s, s', id, incoming) && (forall k :: k != id ==> Cursor(s'.cursors, k) == Cursor(s.cursors, k))
      && Cursor(s'.cursors, id) >= Cursor(s.cursors, id) && (forall x :: x in incoming ==>
        x.pos <= Cursor(s'.cursors, id))
      && (Cursor(s'.cursors, id) == Cursor(s.cursors, id) || exists x ::
        x in incoming && x.pos == Cursor(s'.cursors, id))
  {
    MergeFacts(ListOf(s.lists, id), incoming);
    MergeFacts(ListOf(s.lists, m.conversation), [m]);
    HighestFacts(incoming, Cursor(s.cursors, id));
    HighestIsReached(incoming, Cursor(s.cursors, id));
  }

  lemma {:induction false} KeptRow(rows: seq<Row>, gone: set<nat>, id: nat)
    requires id !in gone
    ensures Find(Kept(rows, gone), id) == Find(rows, id)
  {
    if rows != [] {
      KeptRow(rows[1..], gone, id);
      var rest := Kept(rows[1..], gone);
      assert Kept(rows, gone) == if rows[0].id in gone then rest else [rows[0]] + rest;
      assert ([rows[0]] + rest)[1..] == rest;
    }
  }

  lemma {:induction false} GoneRow(rows: seq<Row>, gone: set<nat>, id: nat)
    requires id in gone
    ensures Find(Kept(rows, gone), id) == None
  {
    if rows != [] {
      GoneRow(rows[1..], gone, id);
      var rest := Kept(rows[1..], gone);
      assert Kept(rows, gone) == if rows[0].id in gone then rest else [rows[0]] + rest;
      assert ([rows[0]] + rest)[1..] == rest;
    }
  }

  /** A forgotten conversation loses its row, its messages and its cursor; the others lose nothing. */
  lemma Forgotten(s: State, ids: set<nat>, id: nat)
    ensures var s' := Step(s, Forget(ids));
      && (id in ids ==> Find(s'.rows, id) == None && id !in s'.lists && id !in s'.cursors)
      && (id !in ids ==> Find(s'.rows, id) == Find(s.rows, id) && ListOf(s'.lists, id) == ListOf(s.lists, id))
      && (id !in ids ==> Cursor(s'.cursors, id) == Cursor(s.cursors, id))
      && s'.seen == s.seen && s'.last == s.last
  {
    if id in ids {
      GoneRow(s.rows, ids, id);
    } else {
      KeptRow(s.rows, ids, id);
    }
  }

  /** A marker only rises, an absent one is created only when asked, and nothing else moves. */
  lemma MarkerSet(s: State, id: nat, pos: int, initialize: bool)
    requires WellKept(s)
    ensures var s' := Step(s, ReadMarker(id, pos, initialize));
      var before, after := Find(s.rows, id), Find(s'.rows, id);
      && s' == s.(rows := s'.rows) && (forall k :: k != id ==> Find(s'.rows, k) == Find(s.rows, k))
      && (before == None ==> after == None)
      && (before.Some? ==> after.Some? && after.value == before.value.(lastRead := after.value.lastRead))
      && (before.Some? && before.value.lastRead.At? ==> Advanced(before.value.lastRead, At(pos), after.value.lastRead))
      && (before.Some? && !before.value.lastRead.At? ==>
            after.value.lastRead == if initialize then At(pos) else before.value.lastRead)
  {
    MarkedFacts(s.rows, id, pos, initialize);
  }

  // ----- positions only move forward -----

  /** A known position is still known and no smaller. */
  predicate NoRewind(before: Field, after: Field) {
    before.At? ==> after.At? && after.pos >= before.pos
  }

  predicate RowMovesForward(before: Option<Row>, after: Option<Row>) {
    before.Some? ==>
      after.Some? && NoRewind(before.value.lastRead, after.value.lastRead)
        && NoRewind(before.value.lastSeq, after.value.lastSeq)
  }

  /** A list row rewinds a known position exactly when it carries an explicit null for it. */
  lemma RewindsIffNull(rows: seq<Row>, row: Row)
    requires Tidy(rows) && Find(rows, row.id).Some?
    ensures var current := Find(rows, row.id).value;
      RowMovesForward(Find(rows, row.id), Find(Upsert(rows, row), row.id)) <==>
      !(current.lastRead.At? && row.lastRead.Null?) && !(current.lastSeq.At? && row.lastSeq.Null?)
  {
    UpsertFacts(rows, row);
  }

  lemma NullRewinds()
    ensures var rows := [Row(1, {}, At(4), At(9))];
      Tidy(rows) && !RowMovesForward(Find(rows, 1), Find(Upsert(rows, Row(1, {}, Absent, Null)), 1))
  {
    var rows := [Row(1, {}, At(4), At(9))];
    assert Find(rows, 1) == Some(rows[0]);
    RewindsIffNull(rows, Row(1, {}, Absent, Null));
  }

  predicate Harmless(op: Op) {
    && (op.Add? ==> !op.row.lastRead.Null? && !op.row.lastSeq.Null?)
    && !op.Forget?
  }

  lemma StepMovesForward(s: State, op: Op, id: nat)
    requires WellKept(s) && Harmless(op)
    ensures RowMovesForward(Find(s.rows, id), Find(Step(s, op).rows, id))
    ensures Cursor(s.cursors, id) <= Cursor(Step(s, op).cursors, id)
    ensures forall m :: m in ListOf(s.lists, id) ==> m in ListOf(Step(s, op).lists, id)
  {
    match op
    case Add(row) => UpsertFacts(s.rows, row);
    case Ensure(k) =>
      FindFacts(s.rows, k);
      UpsertFacts(s.rows, Placeholder(k));
    case History(k, incoming) => MergeFacts(ListOf(s.lists, k), incoming);
    case Outgoing(m) => MergeFacts(ListOf(s.lists, m.conversation), [m]);
    case HistoryPage(k, incoming) =>
      MergeFacts(ListOf(s.lists, k), incoming);
      HighestFacts(incoming, Cursor(s.cursors, k));
    case ReadMarker(k, pos, initialize) => MarkedFacts(s.rows, k, pos, initialize);
    case Receive(event) =>
      if event.info.Some? {
        AnnouncedFacts(s.rows, event.info.value.conversation, event.info.value.pos);
      }
    case Forget(ids) =>
  }

  /** No run without null rows and removals rewinds a marker, a position, a cursor or a message. */
  lemma {:induction false} RunMovesForward(s: State, ops: seq<Op>, id: nat)
    requires WellKept(s) && forall op :: op in ops ==> Harmless(op)
    ensures RowMovesForward(Find(s.rows, id), Find(Run(s, ops).rows, id))
    ensures Cursor(s.cursors, id) <= Cursor(Run(s, ops).cursors, id)
    ensures forall m :: m in ListOf(s.lists, id) ==> m in ListOf(Run(s, ops).lists, id)
  {
    if ops != [] {
      var before := ops[..|ops| - 1];
      RunMovesForward(s, before, id);
      RunKeepsOrder(s, before);
      StepMovesForward(Run(s, before), ops[|ops| - 1], id);
    }
  }

  lemma {:induction false} SeenStays(s: State, ops: seq<Op>, id: nat)
    requires id in s.seen
    ensures id in Run(s, ops).seen
  {
    if ops != [] {
      SeenStays(s, ops[..|ops| - 1], id);
    }
  }

  /** Whatever came in between, a redelivered event changes nothing. */
  lemma {:induction false} RedeliveryIsErased(s: State, event: Event, later: seq<Op>)
    ensures var t := Run(Step(s, Receive(event)), later); Step(t, Receive(event)) == t
  {
    SeenStays(Step(s, Receive(event)), later, event.id);
  }

  lemma {:induction false} GapCounts(read: int, latest: int, known: set<int>, pos: int)
    requires read < pos <= latest && pos !in known
    ensures Gaps(read, latest, known) > 0
    decreases latest - read
  {
    if latest > pos {
      GapCounts(read, latest - 1, known, pos);
    }
  }

  /**
   Once an event has announced a position beyond the reader's marker, the
   conversation stays unread until the marker reaches it or the message turns
   out to be the reader's own, even if its fetch never succeeds.
   */
  lemma AnnouncedStaysUnread(s: State, event: Event, later: seq<Op>, me: nat)
    requires WellKept(s) && event.id !in s.seen && event.info.Some? && event.info.value.pos > 0
    requires forall op :: op in later ==> Harmless(op)
    ensures var t := Run(Step(s, Receive(event)), later);
      var row, list := Find(t.rows, event.info.value.conversation), ListOf(t.lists, event.info.value.conversation);
      && row.Some? && row.value.lastSeq.At? && row.value.lastSeq.pos >= event.info.value.pos
      && (row.value.lastRead.At? && row.value.lastRead.pos < event.info.value.pos
          && DistinctPositions(list) && event.info.value.pos !in Own(list, me)
          ==> UnreadCount(Some(row.value.lastRead.pos), Some(row.value.lastSeq.pos), list, me) > 0)
  {
    var id, pos := event.info.value.conversation, event.info.value.pos;
    AnnouncedFacts(s.rows, id, pos);
    StepKeepsOrder(s, Receive(event));
    var first := Step(s, Receive(event));
    RunMovesForward(first, later, id);
    var t := Run(first, later);
    var row, list := Find(t.rows, id).value, ListOf(t.lists, id);
    if row.lastRead.At? && row.lastRead.pos < pos && DistinctPositions(list) && pos !in Own(list, me) {
      var read, lastSeq := row.lastRead.pos, Some(row.lastSeq.pos);
      UnreadIsNotOwn(read, lastSeq, list, me);
      HighestFacts(Newer(list, read), Max(row.lastSeq.pos, read));
      GapCounts(read, Latest(read, lastSeq, list), Own(list, me), pos);
    }
  }

  // ----- the object -----

  class ChatStore {
    var conversations: seq<Row>
    var messages: map<nat, seq<Msg>>
    var historySeq: map<nat, int>
    var seenEventIds: set<nat>
    var lastEventId: Option<nat>

    function View(): State
      reads this
    {
      State(conversations, messages, historySeq, seenEventIds, lastEventId)
    }

    constructor ()
      ensures View() == EMPTY
    {
      conversations, messages, historySeq, seenEventIds, lastEventId := [], map[], map[], {}, None;
    }

    method AddConversation(row: Row)
      modifies this`conversations
      ensures View() == Step(old(View()), Add(row))
    {
      conversations := Upsert(conversations, row);
    }

    method EnsureConversation(id: nat) returns (row: Row)
      requires Tidy(conversations)
      modifies this`conversations
      ensures View() == Step(old(View()), Ensure(id))
      ensures Find(conversations, id) == Some(row)
    {
      var found := Find(conversations, id);
      if found == None {
        UpsertFacts(conversations, Placeholder(id));
        conversations := Upsert(conversations, Placeholder(id));
        found := Some(Placeholder(id));
      }
      row := found.value;
    }

    method MergeHistory(id: nat, incoming: seq<Msg>) returns (merged: seq<Msg>)
      modifies this`messages
      ensures View() == Step(old(View()), History(id, incoming))
      ensures merged == messages[id]
    {
      merged := MergeMessages(ListOf(messages, id), incoming);
      messages := messages[id := merged];
    }

    method MergeOutgoing(message: Msg) returns (merged: seq<Msg>)
      modifies this`messages
      ensures View() == Step(old(View()), Outgoing(message))
      ensures merged == messages[message.conversation]
    {
      merged := MergeHistory(message.conversation, [message]);
    }

    method MergeHistoryPage(id: nat, incoming: seq<Msg>)
      modifies this`messages, this`historySeq
      ensures View() == Step(old(View()), HistoryPage(id, incoming))
    {
      var merged := MergeHistory(id, incoming);
      var cursor := Cursor(historySeq, id);
      for i := 0 to |incoming|
        invariant Highest(incoming, Cursor(historySeq, id)) == Highest(incoming[i..], cursor)
      {
        cursor := Max(cursor, incoming[i].pos);
      }
      historySeq := historySeq[id := cursor];
    }

    method SetReadMarker(id: nat, pos: int, initialize: bool)
      modifies this`conversations
      ensures View() == Step(old(View()), ReadMarker(id, pos, initialize))
    {
      var found := Find(conversations, id);
      if found == None { return; }
      var row := found.value;
      if row.lastRead.At? && pos <= row.lastRead.pos { return; }
      if !row.lastRead.At? && !initialize { return; }
      conversations := Upsert(conversations, row.(lastRead := At(pos)));
    }

    method ApplyGatewayEvent(event: Event) returns (info: Option<Info>)
      requires Tidy(conversations)
      modifies this`conversations, this`seenEventIds, this`lastEventId
      ensures View() == Step(old(View()), Receive(event))
      ensures info == if event.id in old(seenEventIds) then None else event.info
    {
      if event.id in seenEventIds { return None; }
      seenEventIds := seenEventIds + {event.id};
      lastEventId := Some(event.id);
      if event.info == None { return None; }
      info := event.info;
      var row := EnsureConversation(info.value.conversation);
      var known := if row.lastSeq.At? then row.lastSeq.pos else 0;
      if known < info.value.pos {
        conversations := Upsert(conversations, row.(lastSeq := At(info.value.pos)));
      }
    }

    method RemoveConversations(ids: set<nat>)
      modifies this`conversations, this`messages, this`historySeq
      ensures View() == Step(old(View()), Forget(ids))
    {
      conversations := Kept(conversations, ids);
      messages := messages - ids;
      historySeq := historySeq - ids;
    }
  }
}
