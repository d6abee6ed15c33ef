/**
 The typing throttle: at most one published signal per account and conversation
 in two seconds. Admissions reserve a slot, are published or dropped later, and
 the slot map is swept when it has grown large. Times are in milliseconds.
 */
module Typing {
  import opened Prelude

  const MIN_INTERVAL: int := 2000
  const THROTTLE_ENTRIES := 4096

  datatype Key = Key(user: nat, conversation: nat)

  type Slots = map<Key, int>

  // ----- the slot map -----

  predicate Fresh(slots: Slots, key: Key, now: int) {
    key in slots && now - slots[key] < MIN_INTERVAL
  }

  function Sweep(slots: Slots, now: int): Slots {
    map k | k in slots && now - slots[k] < MIN_INTERVAL :: slots[k]
  }

  function Reserve(slots: Slots, key: Key, now: int): Slots {
    (if |slots| >= THROTTLE_ENTRIES then Sweep(slots, now) else slots)[key := now]
  }

  /** Only the slot this admission still owns is given back. */
  function Release(slots: Slots, key: Key, at: int): Slots {
    if key in slots && slots[key] == at then slots - {key} else slots
  }

  // ----- runs -----

  datatype State = Held | Published | Dropped

  datatype Admission = Admission(key: Key, at: int, state: State)

  datatype Op =
    | Admit(key: Key, now: int)
    | Publish(index: nat)
    | Drop(index: nat)

  /** `answers` holds one boolean per admit, `admitted` every admission in order. */
  datatype Bus = Bus(slots: Slots, clock: int, admitted: seq<Admission>, answers: seq<bool>)

  const IDLE := Bus(map[], 0, [], [])

  function Settle(b: Bus, index: nat, state: State): seq<Admission>
    requires index < |b.admitted|
  {
    b.admitted[index := b.admitted[index].(state := state)]
  }

  predicate Pending(b: Bus, index: nat) {
    index < |b.admitted| && b.admitted[index].state == Held
  }

  /** `sweeping` tells the real map from one that is never swept. */
  function Step(b: Bus, op: Op, sweeping: bool): Bus {
    match op
    case Admit(key, now) =>
      if now < b.clock then b
      else if Fresh(b.slots, key, now) then b.(clock := now, answers := b.answers + [false])
      else
        Bus(if sweeping then Reserve(b.slots, key, now) else b.slots[key := now], now,
            b.admitted + [Admission(key, now, Held)], b.answers + [true])
    case Publish(i) => if Pending(b, i) then b.(admitted := Settle(b, i, Published)) else b
    case Drop(i) =>
      if Pending(b, i) then
        b.(admitted := Settle(b, i, Dropped), slots := Release(b.slots, b.admitted[i].key, b.admitted[i].at))
      else b
  }

  /** Times that would run backwards are ignored: the clock is monotone. */
  function Run(ops: seq<Op>, sweeping: bool): Bus {
    if ops == [] then IDLE else Step(Run(ops[..|ops| - 1], sweeping), ops[|ops| - 1], sweeping)
  }

  // ----- sweeping is invisible -----

  /** The swept map misses only entries too old to matter. */
  predicate Thinned(swept: Slots, full: Slots, clock: int) {
    && (forall k :: k in swept ==> k in full && full[k] == swept[k])
    && (forall k :: k in full && k !in swept ==> clock - full[k] >= MIN_INTERVAL)
  }

  predicate Agree(a: Bus, b: Bus) {
    a.clock == b.clock && a.admitted == b.admitted && a.answers == b.answers && Thinned(a.slots, b.slots, a.clock)
  }

  lemma StepAgrees(a: Bus, b: Bus, op: Op)
    requires Agree(a, b)
    ensures Agree(Step(a, op, true), Step(b, op, false))
  {
  }

  lemma {:induction false} RunsAgree(ops: seq<Op>)
    ensures Agree(Run(ops, true), Run(ops, false))
  {
    if ops != [] {
      RunsAgree(ops[..|ops| - 1]);
      StepAgrees(Run(ops[..|ops| - 1], true), Run(ops[..|ops| - 1], false), ops[|ops| - 1]);
    }
  }

  /** The swept map answers every admit as one that is never swept. */
  lemma SweepingIsInvisible(ops: seq<Op>)
    ensures Run(ops, true).answers == Run(ops, false).answers && Run(ops, true).admitted == Run(ops, false).admitted
  {
    RunsAgree(ops);
  }

  /** A map that has reached 4096 entries keeps the young ones only; a smaller one is not searched. */
  lemma LargeMapIsSwept(slots: Slots, key: Key, now: int)
    ensures var after := Reserve(slots, key, now);
      && key in after && after[key] == now
      && (|slots| >= 4096 ==> forall k :: k in after && k != key ==> now - after[k] < 2000)
      && (forall k :: k in slots && k != key && (|slots| < 4096 || now - slots[k] < 2000) ==> k in after)
      && (forall k :: k in after && k != key ==> k in slots && after[k] == slots[k])
  {
  }

  // ----- the throttle -----

  predicate Counts(a: Admission) {
    a.state != Dropped
  }

  predicate SameTypist(a: Admission, b: Admission) {
    Counts(a) && Counts(b) && a.key == b.key
  }

  predicate Spaced(admitted: seq<Admission>) {
    forall i, j :: 0 <= i < j < |admitted| && SameTypist(admitted[i], admitted[j]) ==>
      admitted[j].at - admitted[i].at >= MIN_INTERVAL
  }

  predicate Covered(slots: Slots, a: Admission, clock: int) {
    clock - a.at >= MIN_INTERVAL || (a.key in slots && slots[a.key] == a.at)
  }

  predicate Backed(admitted: seq<Admission>, key: Key, at: int) {
    exists i :: 0 <= i < |admitted| && Counts(admitted[i]) && admitted[i].key == key && admitted[i].at == at
  }

  /** Every young admission that counts owns its slot, and every slot is owned. */
  predicate SlotsMatch(slots: Slots, admitted: seq<Admission>, clock: int) {
    && (forall i :: 0 <= i < |admitted| ==> admitted[i].at <= clock)
    && (forall i :: 0 <= i < |admitted| && Counts(admitted[i]) ==> Covered(slots, admitted[i], clock))
    && (forall k :: k in slots ==> Backed(admitted, k, slots[k]))
  }

  predicate Inv(b: Bus) {
    Spaced(b.admitted) && SlotsMatch(b.slots, b.admitted, b.clock)
  }

  /** What is admitted is far from everything that counts. */
  lemma AdmitKeepsSpaced(slots: Slots, admitted: seq<Admission>, clock: int, key: Key, now: int)
    requires Spaced(admitted) && SlotsMatch(slots, admitted, clock) && clock <= now && !Fresh(slots, key, now)
    ensures Spaced(admitted + [Admission(key, now, Held)])
  {
  }

  lemma BackedGrows(admitted: seq<Admission>, a: Admission, key: Key, at: int)
    requires Backed(admitted, key, at)
    ensures Backed(admitted + [a], key, at)
  {
    var i :| 0 <= i < |admitted| && Counts(admitted[i]) && admitted[i].key == key && admitted[i].at == at;
    assert (admitted + [a])[i] == admitted[i];
  }

  lemma AdmitKeepsSlots(slots: Slots, admitted: seq<Admission>, clock: int, key: Key, now: int)
    requires SlotsMatch(slots, admitted, clock) && clock <= now && !Fresh(slots, key, now)
    ensures SlotsMatch(slots[key := now], admitted + [Admission(key, now, Held)], now)
  {
    var slots', a := slots[key := now], Admission(key, now, Held);
    var after := admitted + [a];
    forall i | 0 <= i < |after| && Counts(after[i]) ensures Covered(slots', after[i], now) {
      if i < |admitted| {
        assert Covered(slots, admitted[i], clock);
      }
    }
    forall k | k in slots' ensures Backed(after, k, slots'[k]) {
      if k == key {
        assert after[|admitted|] == a;
      } else {
        BackedGrows(admitted, a, k, slots[k]);
      }
    }
  }

  lemma AdmitKeeps(b: Bus, key: Key, now: int)
    requires Inv(b)
    ensures Inv(Step(b, Admit(key, now), false))
  {
    if now >= b.clock && !Fresh(b.slots, key, now) {
      AdmitKeepsSpaced(b.slots, b.admitted, b.clock, key, now);
      AdmitKeepsSlots(b.slots, b.admitted, b.clock, key, now);
    }
  }

  lemma SettleKeeps(b: Bus, op: Op)
    requires Inv(b) && !op.Admit?
    ensures Inv(Step(b, op, false))
  {
    var b' := Step(b, op, false);
    if b' != b {
      var j := op.index;
      forall k | k in b'.slots ensures Backed(b'.admitted, k, b'.slots[k]) {
        assert Backed(b.admitted, k, b.slots[k]);
        var i :| 0 <= i < |b.admitted| && Counts(b.admitted[i]) && b.admitted[i].key == k
          && b.admitted[i].at == b.slots[k];
        assert Counts(b'.admitted[i]) && b'.admitted[i].key == k && b'.admitted[i].at == b'.slots[k];
      }
      forall i | 0 <= i < |b'.admitted| && Counts(b'.admitted[i]) ensures Covered(b'.slots, b'.admitted[i], b'.clock) {
        assert Covered(b.slots, b.admitted[i], b.clock);
        if op.Drop? && b.admitted[i].key == b.admitted[j].key && b.admitted[i].at == b.admitted[j].at {
          assert SameTypist(b.admitted[i], b.admitted[j]) && SameTypist(b.admitted[j], b.admitted[i]);
        }
      }
      forall i, k | 0 <= i < k < |b'.admitted| && SameTypist(b'.admitted[i], b'.admitted[k])
        ensures b'.admitted[k].at - b'.admitted[i].at >= MIN_INTERVAL
      {
        assert SameTypist(b.admitted[i], b.admitted[k]);
      }
    }
  }

  lemma {:induction false} RunKeeps(ops: seq<Op>)
    ensures Inv(Run(ops, false))
  {
    if ops != [] {
      var b, op := Run(ops[..|ops| - 1], false), ops[|ops| - 1];
      RunKeeps(ops[..|ops| - 1]);
      if op.Admit? {
        AdmitKeeps(b, op.key, op.now);
      } else {
        SettleKeeps(b, op);
      }
    }
  }

  /** Two published signals of one typist in one conversation were admitted two seconds apart. */
  lemma PublishedAreSpaced(ops: seq<Op>, i: nat, j: nat)
    requires var admitted := Run(ops, true).admitted;
      i < j < |admitted| && admitted[i].key == admitted[j].key
      && admitted[i].state == Published && admitted[j].state == Published
    ensures var admitted := Run(ops, true).admitted; admitted[j].at - admitted[i].at >= 2000
  {
    RunKeeps(ops);
    RunsAgree(ops);
    assert SameTypist(Run(ops, false).admitted[i], Run(ops, false).admitted[j]);
  }

  predicate YoungExists(admitted: seq<Admission>, key: Key, now: int) {
    exists i :: 0 <= i < |admitted| && Counts(admitted[i]) && admitted[i].key == key
      && now - admitted[i].at < MIN_INTERVAL
  }

  /**
   An attempt is refused exactly when an admission younger than the interval is
   published or still pending: one that was dropped throttles nobody.
   */
  lemma RefusedIffYoungerOne(ops: seq<Op>, key: Key, now: int)
    requires now >= Run(ops, true).clock
    ensures Fresh(Run(ops, true).slots, key, now) <==> YoungExists(Run(ops, true).admitted, key, now)
  {
    RunKeeps(ops);
    RunsAgree(ops);
    var b, full := Run(ops, true), Run(ops, false);
    if Fresh(b.slots, key, now) {
      assert Backed(full.admitted, key, full.slots[key]);
    }
    if YoungExists(b.admitted, key, now) {
      var i :| 0 <= i < |b.admitted| && Counts(b.admitted[i]) && b.admitted[i].key == key
        && now - b.admitted[i].at < MIN_INTERVAL;
      assert Covered(full.slots, full.admitted[i], full.clock);
    }
  }

  /** Is an admission of this key, not dropped, less than two seconds old? */
  predicate Throttled(admitted: seq<Admission>, key: Key, now: int) {
    exists i :: 0 <= i < |admitted| && admitted[i].state != Dropped && admitted[i].key == key
      && now - admitted[i].at < 2000
  }

  /** Every attempt is answered, and admitted exactly when nothing younger throttles it. */
  lemma AdmitAnswers(ops: seq<Op>, key: Key, now: int)
    requires now >= Run(ops, true).clock
    ensures var b, b' := Run(ops, true), Run(ops + [Admit(key, now)], true);
      var admit := !Throttled(b.admitted, key, now);
      && b'.answers == b.answers + [admit] && b'.clock == now
      && b'.admitted == if admit then b.admitted + [Admission(key, now, Held)] else b.admitted
  {
    assert (ops + [Admit(key, now)])[..|ops|] == ops;
    RefusedIffYoungerOne(ops, key, now);
    var admitted := Run(ops, true).admitted;
    if YoungExists(admitted, key, now) {
      var i :| 0 <= i < |admitted| && Counts(admitted[i]) && admitted[i].key == key
        && now - admitted[i].at < MIN_INTERVAL;
      assert admitted[i].state != Dropped;
    }
  }

  /** A held admission can be published or dropped, once, and no other admission is touched. */
  lemma SettledOnce(ops: seq<Op>, i: nat)
    requires i < |Run(ops, true).admitted|
    ensures var b := Run(ops, true);
      var a := b.admitted[i];
      var published, dropped := Admission(a.key, a.at, Published), Admission(a.key, a.at, Dropped);
      && Run(ops + [Publish(i)], true).admitted == b.admitted[i := if a.state == Held then published else a]
      && Run(ops + [Drop(i)], true).admitted == b.admitted[i := if a.state == Held then dropped else a]
  {
    assert (ops + [Publish(i)])[..|ops|] == ops && (ops + [Drop(i)])[..|ops|] == ops;
  }

  // ----- the objects -----

  class TypingBus {
    var last: Slots
    var sent: seq<Key>

    constructor ()
      ensures last == map[] && sent == []
    {
      last, sent := map[], [];
    }

    method Admit(key: Key, now: int) returns (ticket: Option<Ticket>)
      modifies this`last
      ensures ticket == None <==> Fresh(old(last), key, now)
      ensures ticket == None ==> last == old(last)
      ensures ticket.Some? ==> last == Reserve(old(last), key, now)
      ensures ticket.Some? ==> ticket.value.Holds(this, key, now) && fresh(ticket.value)
    {
      if key in last && now - last[key] < MIN_INTERVAL {
        return None;
      }
      if |last| >= THROTTLE_ENTRIES {
        last := map k | k in last && now - last[k] < MIN_INTERVAL :: last[k];
      }
      last := last[key := now];
      var t := new Ticket(this, key, now);
      ticket := Some(t);
    }
  }

  class Ticket {
    const bus: TypingBus
    const key: Key
    const at: int
    var published: bool

    predicate Holds(bus: TypingBus, key: Key, at: int)
      reads this
    {
      this.bus == bus && this.key == key && this.at == at && !published
    }

    constructor (bus: TypingBus, key: Key, at: int)
      ensures Holds(bus, key, at)
    {
      this.bus, this.key, this.at, published := bus, key, at, false;
    }

    /** The slot stays taken for the interval. */
    method Publish()
      modifies this`published, bus`sent
      ensures published && bus.sent == old(bus.sent) + [key] && bus.last == old(bus.last)
    {
      published := true;
      bus.sent := bus.sent + [key];
    }

    method Close()
      modifies bus`last
      ensures bus.last == if published then old(bus.last) else Release(old(bus.last), key, at)
    {
      if published { return; }
      if key in bus.last && bus.last[key] == at {
        bus.last := bus.last - {key};
      }
    }
  }
}
