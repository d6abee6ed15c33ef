/**
 The moving parts of event delivery as the program has them: the replay scan
 that updates its cursor and buffer in place, the connection that replaces its
 scan when it lagged, and the worker's claim-broadcast-mark round. Each agrees
 with its counterpart in `Gateway`.
 */
module GatewayPump {
  import opened Prelude
  import opened Gateway

  lemma {:induction false} UpToIs(page: seq<nat>, ceiling: int, i: nat)
    requires i <= |page| && (forall k :: 0 <= k < i ==> page[k] <= ceiling)
    requires i == |page| || page[i] > ceiling
    ensures UpTo(page, ceiling) == page[..i]
  {
    if i > 0 {
      UpToIs(page[1..], ceiling, i - 1);
    }
  }

  class Scanner {
    var cursor: int
    var ceiling: int
    var pending: seq<nat>
    var done: bool

    function View(): Replay
      reads this
    {
      Replay(cursor, ceiling, pending, done)
    }

    constructor (cursor: int, outbox: set<nat>)
      ensures View() == Start(cursor, outbox)
    {
      this.cursor := cursor;
      ceiling := Newest(outbox);
      pending := [];
      done := Newest(outbox) == NOWHERE;
    }

    /** Buffer one page, stopping at the first row beyond the ceiling. */
    method Fill(page: seq<nat>)
      requires pending == []
      modifies this`cursor, this`pending
      ensures pending == UpTo(page, ceiling)
      ensures cursor == if pending == [] then old(cursor) else pending[|pending| - 1]
    {
      var i := 0;
      while i < |page| && page[i] <= ceiling
        invariant i <= |page| && pending == page[..i]
        invariant forall k :: 0 <= k < i ==> page[k] <= ceiling
        invariant cursor == if i == 0 then old(cursor) else page[i - 1]
      {
        cursor := page[i];
        pending := pending + [page[i]];
        i := i + 1;
      }
      UpToIs(page, ceiling, i);
    }

    /** Pop a buffered row, fetching a page first when the buffer is empty. */
    method Next(rows: set<nat>) returns (entry: Option<nat>)
      modifies this
      ensures (View(), entry) == Advance(old(View()), rows)
    {
      if pending == [] {
        if cursor >= ceiling {
          done := true;
          return None;
        }
        Fill(EventsAfter(rows, cursor, PAGE));
        if pending == [] {
          done := true;
          return None;
        }
      }
      entry := Some(pending[0]);
      pending := pending[1..];
    }
  }

  class Connection {
    const visible: set<nat>
    const resume: int
    var rx: Receiver
    var phase: Phase
    var scan: Scanner
    var inHand: Option<nat>
    var seen: seq<nat>
    var sent: seq<nat>

    function View(): Conn
      reads this, scan
    {
      Conn(resume, rx, phase, scan.View(), inHand, seen, sent)
    }

    /** Subscribed before anything is read; the scan starts with the first turn. */
    constructor (visible: set<nat>, resume: int)
      ensures this.visible == visible && View().phase == Subscribed && View().rx == Receiver([], false)
      ensures View().resume == resume && View().inHand == None && View().seen == [] && View().sent == []
      ensures fresh(scan)
    {
      this.visible := visible;
      this.resume := resume;
      rx := Receiver([], false);
      phase := Subscribed;
      scan := new Scanner(NOWHERE, {});
      inHand := None;
      seen, sent := [], [];
    }

    /** The hub's side of the subscription. */
    method Receive(e: nat)
      modifies this`rx
      ensures View() == old(View()).(rx := Push(old(rx), e))
    {
      var queue, lagged := rx.queue, rx.lagged;
      if |queue| >= HUB {
        queue := queue[1..];
        lagged := true;
      }
      rx := Receiver(queue + [e], lagged);
    }

    /** One turn: start or restart the scan, fetch a delivery, or hand one over. */
    method Turn(outbox: set<nat>)
      modifies this, scan
      ensures View() == Pump(old(View()), outbox, visible)
      ensures scan == old(scan) || fresh(scan)
    {
      if phase != Pumping {
        scan := new Scanner(if phase == Subscribed then resume else NOWHERE, outbox);
        phase := Pumping;
      } else if inHand.Some? {
        var e := inHand.value;
        inHand := None;
        if e !in seen && e in visible {
          sent := sent + [e];
          if |seen| == SEEN {
            seen := seen[1..];
          }
          seen := seen + [e];
        }
      } else if !scan.done {
        inHand := scan.Next(outbox * visible);
      } else if rx.lagged {
        rx := rx.(lagged := false);
        phase := Rescanning;
      } else if rx.queue != [] {
        inHand := Some(rx.queue[0]);
        rx := rx.(queue := rx.queue[1..]);
      }
    }
  }

  function PushAll(rx: Receiver, ids: seq<nat>): Receiver {
    if ids == [] then rx else Push(PushAll(rx, ids[..|ids| - 1]), ids[|ids| - 1])
  }

  /** A worker's round as steps of `World`: claim, hand every row to the hub, then mark them all or fail. */
  function RoundSteps(worker: nat, claimed: seq<nat>, handed: nat, ending: seq<Action>): seq<Action> {
    [Claim(worker, claimed)] + seq(handed, _ => Action.Broadcast(worker)) + ending
  }

  lemma {:induction false} ReachesThen(w: World, actions: seq<Action>, w': World, a: Action)
    requires Reaches(w, actions, w') && Enabled(w', a)
    ensures Reaches(w, actions + [a], Next(w', a))
    decreases |actions|
  {
    if actions == [] {
      assert [a][1..] == [] && actions + [a] == [a];
    } else {
      assert (actions + [a])[1..] == actions[1..] + [a];
      ReachesThen(Next(w, actions[0]), actions[1..], w', a);
    }
  }

  class Outbox {
    var committed: set<nat>
    var published: set<nat>

    constructor ()
      ensures committed == {} && published == {}
    {
      committed, published := {}, {};
    }

    /** These tables and this receiver are the world's. */
    ghost predicate Shows(w: World, hub: Connection)
      reads this, hub, hub.scan
    {
      w.committed == committed && w.published == published && w.conn == hub.View()
    }

    /**
     A worker's whole round over claimed rows: the world, whatever else it holds,
     goes through exactly the steps of `RoundSteps`, one per row handed over.
     */
    method Round(claimed: seq<nat>, markFails: bool, hub: Connection, worker: nat, ghost w: World)
      returns (ghost w': World)
      requires Shows(w, hub) && Enabled(w, Claim(worker, claimed))
      modifies this`published, hub`rx
      ensures hub.rx == PushAll(old(hub.rx), claimed)
      ensures published == if markFails then old(published) else old(published) + set e | e in claimed
      ensures Shows(w', hub)
      ensures Reaches(w, RoundSteps(worker, claimed, |claimed|, [if markFails then Fail(worker) else Mark(worker)]), w')
    {
      w' := Next(w, Claim(worker, claimed));
      ghost var steps := RoundSteps(worker, claimed, 0, []);
      assert steps[1..] == [];
      for i := 0 to |claimed|
        invariant hub.rx == PushAll(old(hub.rx), claimed[..i])
        invariant published == old(published)
        invariant Shows(w', hub) && worker in w'.workers && w'.workers[worker] == Gateway.Round(claimed, i)
        invariant steps == RoundSteps(worker, claimed, i, []) && Reaches(w, steps, w')
      {
        assert claimed[..i + 1][..i] == claimed[..i];
        ReachesThen(w, steps, w', Action.Broadcast(worker));
        hub.Receive(claimed[i]);
        w', steps := Next(w', Action.Broadcast(worker)), steps + [Action.Broadcast(worker)];
      }
      assert claimed[..|claimed|] == claimed;
      ghost var last := if markFails then Fail(worker) else Mark(worker);
      ReachesThen(w, steps, w', last);
      w', steps := Next(w', last), steps + [last];
      assert steps == RoundSteps(worker, claimed, |claimed|, [last]);
      if !markFails {
        published := published + set e | e in claimed;
      }
    }
  }
}
