/**
 The application object around the chat store: one history job per
 conversation, the gateway event handler, the reply to a send, and the marking
 of read history. Each handler moves one conversation exactly as `ClientSync`
 says and leaves the others alone.
 */
module HistorySync {
  import opened Prelude
  import Store
  import ChatStore
  import ClientSync

  function MarkerOf(row: Option<ChatStore.Row>): Option<int> {
    if row.Some? && row.value.lastRead.At? then Some(row.value.lastRead.pos) else None
  }

  /** Announcing a position moves no marker. */
  lemma AnnouncingKeepsMarkers(rows: seq<ChatStore.Row>, id: nat, pos: int)
    requires ChatStore.Tidy(rows)
    ensures var out := ChatStore.Announced(rows, id, pos);
      ChatStore.Tidy(out) && forall k :: MarkerOf(ChatStore.Find(out, k)) == MarkerOf(ChatStore.Find(rows, k))
  {
    ChatStore.AnnouncedFacts(rows, id, pos);
  }

  class HistorySync {
    const store: ChatStore.ChatStore
    var historyJobs: map<nat, ClientSync.Job>

    /** What `ClientSync` sees of one conversation. */
    ghost function ClientOf(id: nat): ClientSync.Client
      reads this, store
    {
      ClientSync.Client(
        ChatStore.ListOf(store.messages, id),
        ChatStore.Cursor(store.historySeq, id),
        if id in historyJobs then Some(historyJobs[id]) else None,
        store.seenEventIds,
        MarkerOf(ChatStore.Find(store.conversations, id)))
    }

    /** Everything about a conversation but the events seen, which all share. */
    ghost function Rest(id: nat): ClientSync.Client
      reads this, store
    {
      ClientOf(id).(seen := {})
    }

    constructor ()
      ensures fresh(store) && store.View() == ChatStore.EMPTY && historyJobs == map[]
    {
      store := new ChatStore.ChatStore();
      historyJobs := map[];
    }

    method RefreshHistory(id: nat, now: nat, served: nat)
      modifies this`historyJobs
      ensures ClientOf(id) == ClientSync.RefreshClient(old(ClientOf(id)), now, served)
      ensures forall k :: k != id ==> ClientOf(k) == old(ClientOf(k))
    {
      if id in historyJobs {
        historyJobs := historyJobs[id := historyJobs[id].(again := true)];
      } else {
        var cursor := ChatStore.Cursor(store.historySeq, id);
        historyJobs := historyJobs[id := ClientSync.Job(false, cursor, now, now, served)];
      }
    }

    method PageFailed(id: nat, now: nat, served: nat)
      requires id in historyJobs
      modifies this`historyJobs
      ensures ClientOf(id) == ClientSync.FailClient(old(ClientOf(id)), now, served)
      ensures forall k :: k != id ==> ClientOf(k) == old(ClientOf(k))
    {
      if historyJobs[id].again {
        var cursor := ChatStore.Cursor(store.historySeq, id);
        historyJobs := historyJobs[id := ClientSync.Job(false, cursor, now, now, served)];
      } else {
        historyJobs := historyJobs - {id};
      }
    }

    method PageArrived(id: nat, page: seq<Store.Msg>, now: nat, served: nat)
      requires id in historyJobs
      modifies this`historyJobs, store
      ensures ClientOf(id) == ClientSync.PageClient(old(ClientOf(id)), page, now, served)
      ensures forall k :: k != id ==> ClientOf(k) == old(ClientOf(k))
    {
      var job := historyJobs[id];
      store.MergeHistoryPage(id, page);
      var cursor := ChatStore.Cursor(store.historySeq, id);
      var fullPage := |page| == ClientSync.PAGE;
      if fullPage && cursor <= job.since {
        PageFailed(id, now, served);
      } else if fullPage {
        historyJobs := historyJobs[id := ClientSync.Job(job.again, cursor, job.began, now, served)];
      } else if job.again {
        historyJobs := historyJobs[id := ClientSync.Job(false, cursor, now, now, served)];
      } else {
        historyJobs := historyJobs - {id};
      }
    }

    /** Dedup an event's effects, not an unfinished fetch. Other topics carry no message and refresh nothing. */
    method OnEvent(event: ChatStore.Event, now: nat, served: nat)
      requires ChatStore.Tidy(store.conversations)
      modifies this`historyJobs, store
      ensures ChatStore.Tidy(store.conversations)
      ensures store.seenEventIds == old(store.seenEventIds) + {event.id}
      ensures event.info.Some? ==>
        var id := event.info.value.conversation;
        ClientOf(id) == ClientSync.HearClient(old(ClientOf(id)), event.id, event.info.value.pos, now, served)
      ensures forall k :: event.info == None || k != event.info.value.conversation ==> Rest(k) == old(Rest(k))
    {
      if event.info.Some? {
        AnnouncingKeepsMarkers(store.conversations, event.info.value.conversation, event.info.value.pos);
      }
      var info := store.ApplyGatewayEvent(event);
      if info == None && event.info.Some?
        && ChatStore.Cursor(store.historySeq, event.info.value.conversation) < event.info.value.pos
      {
        info := event.info;
      }
      if info.Some? {
        RefreshHistory(info.value.conversation, now, served);
      }
    }

    /** The server answered a send of ours. */
    method OnSent(message: Store.Msg)
      requires ChatStore.Tidy(store.conversations)
      modifies store
      ensures ChatStore.Tidy(store.conversations)
      ensures ClientOf(message.conversation) == ClientSync.EchoClient(old(ClientOf(message.conversation)), message)
      ensures forall k :: k != message.conversation ==> ClientOf(k) == old(ClientOf(k))
    {
      var id := message.conversation;
      var merged := store.MergeOutgoing(message);
      assert store.conversations == old(store.conversations) && store.historySeq == old(store.historySeq);
      var row := ChatStore.Find(store.conversations, id);
      if row.Some? && row.value.lastRead == ChatStore.At(message.pos - 1) {
        ChatStore.MarkedFacts(store.conversations, id, message.pos, false);
        store.SetReadMarker(id, message.pos, false);
      }
    }

    /** The server confirmed a marker; an unlisted conversation has none to keep. */
    method OnMarker(id: nat, marker: int)
      requires ChatStore.Tidy(store.conversations)
      modifies store
      ensures ChatStore.Tidy(store.conversations)
      ensures ClientOf(id) == (if old(ChatStore.Find(store.conversations, id)).Some?
        then ClientSync.LearnClient(old(ClientOf(id)), marker) else old(ClientOf(id)))
      ensures forall k :: k != id ==> ClientOf(k) == old(ClientOf(k))
    {
      ChatStore.MarkedFacts(store.conversations, id, marker, true);
      store.SetReadMarker(id, marker, true);
    }

    /** A list row that carries the server's marker. */
    method OnListed(row: ChatStore.Row)
      requires ChatStore.Tidy(store.conversations) && row.lastRead.At?
      modifies store
      ensures ChatStore.Tidy(store.conversations)
      ensures ClientOf(row.id) == ClientSync.LearnClient(old(ClientOf(row.id)), row.lastRead.pos)
      ensures forall k :: k != row.id ==> ClientOf(k) == old(ClientOf(k))
    {
      ChatStore.UpsertFacts(store.conversations, row);
      store.AddConversation(row);
    }

    /**
     The position worth marking read, if any: everything from the marker up to
     it is loaded, and the position after it is not.
     */
    method ReadTarget(id: nat) returns (target: Option<int>)
      ensures var row := ChatStore.Find(store.conversations, id);
        var supported := exists r :: r in store.conversations && r.lastRead.At?;
        var list := ChatStore.ListOf(store.messages, id);
        var known := if row.Some? && row.value.lastRead.At? then Some(row.value.lastRead.pos)
          else if row.Some? && supported then Some(0) else None;
        match target
        case None => known == None || known.value + 1 !in Store.Positions(list)
        case Some(t) => known.Some? && known.value < t && Store.GaplessUpTo(list, known.value, t)
    {
      var row := ChatStore.Find(store.conversations, id);
      if row == None { return None; }
      var known := 0;
      if row.value.lastRead.At? {
        known := row.value.lastRead.pos;
      } else {
        var supported := exists r :: r in store.conversations && r.lastRead.At?;
        if !supported { return None; }
      }
      var through := Store.ReadableThrough(ChatStore.ListOf(store.messages, id), known);
      target := if through <= known then None else Some(through);
    }
  }
}
