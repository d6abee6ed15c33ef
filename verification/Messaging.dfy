/**
 One conversation on the server: sequenced sends with an idempotency key and a
 transactional outbox, private read markers, and history pages. `Apply` says
 what each transaction answers and leaves behind; the laws are about every run
 of sends, marks, arrivals and departures.
 */
module Messaging {
  import opened Prelude

  const MAX_CIPHERTEXT := 1_048_576
  const MAX_HISTORY := 100

  datatype Msg = Msg(id: nat, sender: nat, pos: int, client: nat)

  /** A `message.created` outbox row. */
  datatype Event = Event(id: nat, message: nat, pos: int, actor: nat)

  datatype Conv = Conv(nextSeq: int, messages: seq<Msg>, outbox: seq<Event>, seats: map<nat, int>)

  const EMPTY := Conv(1, [], [], map[])

  datatype Op =
    | Send(sender: nat, client: nat, bytes: nat, messageId: nat, eventId: nat)
    | MarkRead(user: nat, pos: int)
    | Seat(user: nat)
    | Unseat(user: nat)

  datatype Answer =
    | Stored(message: Msg, created: bool)
    | Marker(pos: int)
    | NotMember
    | EmptyCiphertext
    | CiphertextTooLarge
    | Done

  function FindClient(messages: seq<Msg>, client: nat): Option<Msg> {
    if messages == [] then None
    else if messages[0].client == client then Some(messages[0])
    else FindClient(messages[1..], client)
  }

  /** The sequenced row, its event, and the marker of a sender who was caught up. */
  function Store(c: Conv, op: Op): Conv
    requires op.Send? && op.sender in c.seats
  {
    Conv(c.nextSeq + 1,
         c.messages + [Msg(op.messageId, op.sender, c.nextSeq, op.client)],
         c.outbox + [Event(op.eventId, op.messageId, c.nextSeq, op.sender)],
         if c.seats[op.sender] == c.nextSeq - 1 then c.seats[op.sender := c.nextSeq] else c.seats)
  }

  function Apply(c: Conv, op: Op): (Conv, Answer) {
    match op
    case Send(sender, client, bytes, messageId, _) =>
      if bytes == 0 then (c, EmptyCiphertext)
      else if bytes > MAX_CIPHERTEXT then (c, CiphertextTooLarge)
      else if sender !in c.seats then (c, NotMember)
      else if FindClient(c.messages, client).Some? then (c, Stored(FindClient(c.messages, client).value, false))
      else (Store(c, op), Stored(Msg(messageId, sender, c.nextSeq, client), true))
    case MarkRead(user, pos) =>
      if user !in c.seats then (c, NotMember)
      else
        var marker := Max(c.seats[user], Min(Max(pos, 0), c.nextSeq - 1));
        (c.(seats := c.seats[user := marker]), Marker(marker))
    case Seat(user) => (if user in c.seats then c else c.(seats := c.seats[user := 0]), Done)
    case Unseat(user) => (c.(seats := c.seats - {user}), Done)
  }

  function Run(ops: seq<Op>): Conv {
    if ops == [] then EMPTY else Apply(Run(ops[..|ops| - 1]), ops[|ops| - 1]).0
  }

  /** The largest position a user ever asked to be marked read. */
  function Acked(ops: seq<Op>, user: nat): int {
    if ops == [] then 0
    else
      var last, before := ops[|ops| - 1], Acked(ops[..|ops| - 1], user);
      if last.MarkRead? && last.user == user then Max(before, last.pos) else before
  }

  // ----- sequencing -----

  predicate EventOf(e: Event, m: Msg) {
    e.message == m.id && e.pos == m.pos && e.actor == m.sender
  }

  /** Positions 1..nextSeq-1, one message and one event each, one message per client id. */
  predicate Sequenced(c: Conv) {
    && |c.messages| == |c.outbox| == c.nextSeq - 1
    && (forall i :: 0 <= i < |c.messages| ==> c.messages[i].pos == i + 1)
    && (forall i :: 0 <= i < |c.outbox| ==> EventOf(c.outbox[i], c.messages[i]))
    && (forall i, j :: 0 <= i < j < |c.messages| ==> c.messages[i].client != c.messages[j].client)
  }

  lemma {:induction false} FindClientFacts(messages: seq<Msg>, client: nat)
    ensures FindClient(messages, client).Some? ==>
      FindClient(messages, client).value in messages && FindClient(messages, client).value.client == client
    ensures FindClient(messages, client) == None <==> forall m :: m in messages ==> m.client != client
  {
    if messages != [] {
      FindClientFacts(messages[1..], client);
      assert messages == [messages[0]] + messages[1..];
    }
  }

  lemma ApplyKeepsSequenced(c: Conv, op: Op)
    requires Sequenced(c)
    ensures Sequenced(Apply(c, op).0)
  {
    if op.Send? {
      FindClientFacts(c.messages, op.client);
    }
  }

  lemma {:induction false} EveryRunIsSequenced(ops: seq<Op>)
    ensures Sequenced(Run(ops))
  {
    if ops != [] {
      EveryRunIsSequenced(ops[..|ops| - 1]);
      ApplyKeepsSequenced(Run(ops[..|ops| - 1]), ops[|ops| - 1]);
    }
  }

  /** A send creates a row exactly when its client id is new to the conversation. */
  lemma CreatedIffNewClient(c: Conv, op: Op)
    requires op.Send? && op.sender in c.seats && 0 < op.bytes <= MAX_CIPHERTEXT
    ensures Apply(c, op).1.Stored?
    ensures Apply(c, op).1.created <==> forall m :: m in c.messages ==> m.client != op.client
    ensures !Apply(c, op).1.created ==> Apply(c, op).0 == c
  {
    FindClientFacts(c.messages, op.client);
  }

  lemma {:induction false} FindClientAppend(messages: seq<Msg>, m: Msg, client: nat)
    ensures FindClient(messages + [m], client) ==
      if FindClient(messages, client).Some? then FindClient(messages, client)
      else if m.client == client then Some(m) else None
  {
    if messages != [] {
      FindClientAppend(messages[1..], m, client);
      assert (messages + [m])[1..] == messages[1..] + [m];
    }
  }

  lemma StoredIsFound(c: Conv, op: Op)
    requires op.Send? && Apply(c, op).1.Stored?
    ensures FindClient(Apply(c, op).0.messages, op.client) == Some(Apply(c, op).1.message)
  {
    if Apply(c, op).1.created {
      FindClientAppend(c.messages, Apply(c, op).1.message, op.client);
    }
  }

  lemma {:induction false} FoundStays(ops: seq<Op>, later: seq<Op>, client: nat)
    requires FindClient(Run(ops).messages, client).Some?
    ensures FindClient(Run(ops + later).messages, client) == FindClient(Run(ops).messages, client)
  {
    if later == [] {
      assert ops + later == ops;
    } else {
      var n := |later| - 1;
      assert (ops + later)[..|ops| + n] == ops + later[..n];
      FoundStays(ops, later[..n], client);
      var before, op := Run(ops + later[..n]), later[n];
      if op.Send? && op.sender in before.seats {
        FindClientAppend(before.messages, Msg(op.messageId, op.sender, before.nextSeq, op.client), client);
      }
    }
  }

  /** However much happens in between, a retry gets the very row the first send stored. */
  lemma {:induction false} RetryReturnsOriginal(ops: seq<Op>, first: Op, later: seq<Op>, retry: Op)
    requires first.Send? && retry.Send? && first.client == retry.client
    requires Apply(Run(ops), first).1.Stored?
    requires 0 < retry.bytes <= MAX_CIPHERTEXT && retry.sender in Run(ops + [first] + later).seats
    ensures var c := Run(ops + [first] + later);
      Apply(c, retry) == (c, Stored(Apply(Run(ops), first).1.message, false))
  {
    var start := ops + [first];
    assert start[..|ops|] == ops;
    var stored := Apply(Run(ops), first).1.message;
    StoredIsFound(Run(ops), first);
    FoundStays(start, later, first.client);
  }

  // ----- read markers -----

  /** Every position up to the marker is the user's own or was acknowledged. */
  predicate Covers(c: Conv, user: nat, marker: int, acked: int) {
    && 0 <= marker < c.nextSeq
    && forall m :: m in c.messages && m.pos <= marker ==> m.sender == user || m.pos <= acked
  }

  predicate MarkersOK(c: Conv, ops: seq<Op>) {
    forall u :: u in c.seats ==> Covers(c, u, c.seats[u], Acked(ops, u))
  }

  lemma {:induction false} AckedOnlyRises(ops: seq<Op>, op: Op, user: nat)
    ensures Acked(ops + [op], user) == if op.MarkRead? && op.user == user then Max(Acked(ops, user), op.pos)
      else Acked(ops, user)
    ensures Acked(ops, user) >= 0
  {
    assert (ops + [op])[..|ops|] == ops;
    if ops != [] {
      AckedOnlyRises(ops[..|ops| - 1], ops[|ops| - 1], user);
      assert ops[..|ops| - 1] + [ops[|ops| - 1]] == ops;
    }
  }

  lemma ApplyKeepsMarkers(c: Conv, ops: seq<Op>, op: Op)
    requires Sequenced(c) && MarkersOK(c, ops)
    ensures MarkersOK(Apply(c, op).0, ops + [op])
  {
    var c' := Apply(c, op).0;
    forall u | u in c'.seats ensures Covers(c', u, c'.seats[u], Acked(ops + [op], u)) {
      AckedOnlyRises(ops, op, u);
      if u in c.seats {
        assert Covers(c, u, c.seats[u], Acked(ops, u));
      }
      forall m | m in c'.messages && m.pos <= c'.seats[u] ensures m.sender == u || m.pos <= Acked(ops + [op], u) {
        assert m.pos >= 1;
      }
    }
  }

  /** A marker never steps over someone else's message that its owner has not acknowledged. */
  lemma {:induction false} MarkersNeverSkip(ops: seq<Op>)
    ensures MarkersOK(Run(ops), ops)
  {
    if ops != [] {
      var before, op := ops[..|ops| - 1], ops[|ops| - 1];
      MarkersNeverSkip(before);
      EveryRunIsSequenced(before);
      ApplyKeepsMarkers(Run(before), before, op);
      assert before + [op] == ops;
    }
  }

  /** Within a seat the marker only rises, and a send moves only its sender's, by one. */
  lemma MarkersOnlyRise(ops: seq<Op>, op: Op, user: nat)
    requires user in Run(ops).seats && op != Unseat(user)
    ensures var c, c' := Run(ops), Apply(Run(ops), op).0;
      && user in c'.seats && c.seats[user] <= c'.seats[user]
      && (op.Send? && c'.seats[user] != c.seats[user] ==> user == op.sender && c'.seats[user] == c.seats[user] + 1)
  {
  }

  // ----- what each operation achieves -----

  /**
   Marking read reaches every message up to the asked position, never beyond it
   unless the marker was there already, and moves nobody else's marker.
   */
  lemma MarkReadReaches(ops: seq<Op>, user: nat, pos: int)
    requires user in Run(ops).seats
    ensures var c := Run(ops);
      var (c', answer) := Apply(c, MarkRead(user, pos));
      && user in c'.seats && answer == Marker(c'.seats[user])
      && (forall m :: m in c.messages && m.pos <= pos ==> m.pos <= c'.seats[user])
      && (c'.seats[user] == c.seats[user] || c.seats[user] < c'.seats[user] <= pos)
      && c' == c.(seats := c.seats[user := c'.seats[user]])
  {
    MarkersNeverSkip(ops);
    EveryRunIsSequenced(ops);
    assert Covers(Run(ops), user, Run(ops).seats[user], Acked(ops, user));
  }

  /** Only a member's mark is taken. */
  lemma MarkReadByStranger(c: Conv, user: nat, pos: int)
    requires user !in c.seats
    ensures Apply(c, MarkRead(user, pos)) == (c, NotMember)
  {
  }

  /** A seat where there was one stays as it is; a new one has read nothing; leaving removes just one. */
  lemma SeatsChangeOneByOne(c: Conv, user: nat)
    ensures var c' := Apply(c, Seat(user)).0;
      user in c'.seats && c' == c.(seats := c.seats[user := if user in c.seats then c.seats[user] else 0])
    ensures var c' := Apply(c, Unseat(user)).0;
      && user !in c'.seats && c' == c.(seats := c'.seats)
      && (forall u :: u != user ==> (u in c'.seats <==> u in c.seats) && (u in c.seats ==> c'.seats[u] == c.seats[u]))
  {
  }

  /** What a send is answered, case by case; only a new message changes anything. */
  lemma SendAnswers(c: Conv, op: Op)
    requires op.Send?
    ensures var (c', answer) := Apply(c, op);
      && (answer == EmptyCiphertext <==> op.bytes == 0)
      && (answer == CiphertextTooLarge <==> op.bytes > 1_048_576)
      && (answer == NotMember <==> 1 <= op.bytes <= 1_048_576 && op.sender !in c.seats)
      && (answer.Stored? <==> 1 <= op.bytes <= 1_048_576 && op.sender in c.seats)
      && (!answer.Stored? || !answer.created ==> c' == c)
  {
  }

  /**
   A new message takes the next position, with its event, and the marker of a
   sender who had read everything before steps over it; no other marker moves.
   */
  lemma NewSendStores(ops: seq<Op>, op: Op)
    requires op.Send? && Apply(Run(ops), op).1.Stored? && Apply(Run(ops), op).1.created
    ensures var c := Run(ops);
      var (c', answer) := Apply(c, op);
      var next := |c.messages| + 1;
      && answer.message == Msg(op.messageId, op.sender, next, op.client)
      && c'.messages == c.messages + [answer.message]
      && c'.outbox == c.outbox + [Event(op.eventId, op.messageId, next, op.sender)]
      && op.sender in c.seats
      && c'.seats == if c.seats[op.sender] == next - 1 then c.seats[op.sender := next] else c.seats
  {
    EveryRunIsSequenced(ops);
  }

  // ----- history -----

  function After(messages: seq<Msg>, since: int): seq<Msg> {
    if messages == [] then []
    else (if messages[0].pos > since then [messages[0]] else []) + After(messages[1..], since)
  }

  function Page(c: Conv, user: nat, since: int, limit: int): Option<seq<Msg>> {
    if user !in c.seats then None
    else Some(Take(After(c.messages, since), Max(1, Min(limit, MAX_HISTORY))))
  }

  lemma {:induction false} AfterIsSuffix(messages: seq<Msg>, first: int, since: int)
    requires forall i :: 0 <= i < |messages| ==> messages[i].pos == first + i
    ensures After(messages, since) == messages[Min(|messages|, Max(0, since - first + 1))..]
  {
    if messages != [] {
      AfterIsSuffix(messages[1..], first + 1, since);
    }
  }

  /** Where a page starts and ends: right after `since`, as far as the clamped limit and the rows reach. */
  function PageStart(n: nat, since: int): nat {
    Min(n, Max(0, since))
  }

  function PageEnd(n: nat, since: int, limit: int): nat {
    Min(n, PageStart(n, since) + Max(1, Min(limit, MAX_HISTORY)))
  }

  lemma TakeIsStretch(s: seq<Msg>, start: nat, n: nat)
    requires start <= |s|
    ensures Take(s[start..], n) == s[start..Min(|s|, start + n)]
  {
  }

  /** A history page is the stretch of positions right after `since`, without holes, whatever was asked. */
  lemma PageIsStretch(ops: seq<Op>, user: nat, since: int, limit: int)
    requires user in Run(ops).seats
    ensures var c := Run(ops); var n := |c.messages|;
      Page(c, user, since, limit) == Some(c.messages[PageStart(n, since)..PageEnd(n, since, limit)])
  {
    EveryRunIsSequenced(ops);
    var messages := Run(ops).messages;
    AfterIsSuffix(messages, 1, since);
    TakeIsStretch(messages, PageStart(|messages|, since), Max(1, Min(limit, MAX_HISTORY)));
  }
}
