/**
 The send and mark-read transactions row by row: membership, idempotency
 lookup, sequence bump, message row, outbox row, marker. Each agrees with
 `Messaging.Apply`.
 */
module MessagingDb {
  import opened Prelude
  import opened Messaging

  class Conversation {
    var nextSeq: int
    var messages: seq<Msg>
    var outbox: seq<Event>
    var seats: map<nat, int>

    function View(): Conv
      reads this
    {
      Conv(nextSeq, messages, outbox, seats)
    }

    constructor ()
      ensures View() == EMPTY
    {
      nextSeq := 1;
      messages, outbox, seats := [], [], map[];
    }

    method Lookup(client: nat) returns (found: Option<Msg>)
      ensures found == FindClient(messages, client)
    {
      var i := 0;
      while i < |messages|
        invariant i <= |messages| && FindClient(messages, client) == FindClient(messages[i..], client)
      {
        if messages[i].client == client {
          return Some(messages[i]);
        }
        i := i + 1;
      }
      found := None;
    }

    /** The message row and its outbox event, at an already reserved position. */
    method InsertMessage(op: Op, pos: int) returns (message: Msg)
      requires op.Send?
      modifies this`messages, this`outbox
      ensures message == Msg(op.messageId, op.sender, pos, op.client)
      ensures messages == old(messages) + [message]
      ensures outbox == old(outbox) + [Event(op.eventId, message.id, pos, op.sender)]
    {
      message := Msg(op.messageId, op.sender, pos, op.client);
      messages := messages + [message];
      outbox := outbox + [Event(op.eventId, op.messageId, pos, op.sender)];
    }

    method SendMessage(op: Op) returns (answer: Answer)
      requires op.Send?
      modifies this
      ensures (View(), answer) == Apply(old(View()), op)
    {
      if op.bytes == 0 { return EmptyCiphertext; }
      if op.bytes > MAX_CIPHERTEXT { return CiphertextTooLarge; }
      if op.sender !in seats { return NotMember; }
      var existing := Lookup(op.client);
      if existing.Some? { return Stored(existing.value, false); }
      var pos := nextSeq;
      nextSeq := nextSeq + 1;
      var message := InsertMessage(op, pos);
      if seats[op.sender] == pos - 1 {
        seats := seats[op.sender := pos];
      }
      answer := Stored(message, true);
    }

    method MarkAsRead(user: nat, pos: int) returns (answer: Answer)
      modifies this`seats
      ensures (View(), answer) == Apply(old(View()), MarkRead(user, pos))
    {
      if user !in seats { return NotMember; }
      var marker := Min(Max(pos, 0), nextSeq - 1);
      if marker < seats[user] {
        marker := seats[user];
      }
      seats := seats[user := marker];
      answer := Marker(marker);
    }

    /** A new seat starts with nothing read; an existing one is left alone. */
    method AddSeat(user: nat)
      modifies this`seats
      ensures View() == Apply(old(View()), Seat(user)).0
    {
      if user !in seats {
        seats := seats[user := 0];
      }
    }

    method DropSeat(user: nat)
      modifies this`seats
      ensures View() == Apply(old(View()), Unseat(user)).0
    {
      seats := seats - {user};
    }

    method History(user: nat, since: int, limit: int) returns (page: Option<seq<Msg>>)
      ensures page == Page(View(), user, since, limit)
    {
      if user !in seats { return None; }
      var rows := [];
      for i := 0 to |messages|
        invariant After(messages, since) == rows + After(messages[i..], since)
      {
        if messages[i].pos > since {
          rows := rows + [messages[i]];
        }
      }
      assert messages[|messages|..] == [] && rows + [] == rows;
      page := Some(Take(rows, Max(1, Min(limit, MAX_HISTORY))));
    }
  }
}
