/**
 Any number of concurrent requests to open a direct message. Each takes a lock
 keyed by a hash of the unordered pair, looks the conversation up afresh, and
 inserts it when there is none; it may also vanish at any point. Hashes may
 collide: `hash` is any function.
 */
module DirectMessages {
  datatype Pair = Pair(low: nat, high: nat)

  function PairOf(a: nat, b: nat): Pair {
    if a <= b then Pair(a, b) else Pair(b, a)
  }

  datatype Pc = Waiting | Locked | Hit(id: nat) | Missed | Inserted(id: nat) | Answered(id: nat) | Gone

  datatype Request = Request(a: nat, b: nat, pc: Pc)

  /** Committed DMs with their members, lock holders, and the requests. */
  datatype Hall = Hall(dms: map<nat, set<nat>>, locks: map<int, nat>, requests: map<nat, Request>)

  datatype Step =
    | Arrive(r: nat, a: nat, b: nat)
    | Acquire(r: nat)
    | Find(r: nat, id: nat)
    | Miss(r: nat)
    | Insert(r: nat, id: nat)
    | Commit(r: nat)
    | Vanish(r: nat)

  type Hash = Pair -> int

  function LockOf(hash: Hash, q: Request): int {
    hash(PairOf(q.a, q.b))
  }

  /** Two participants, both of the pair: a self-conversation has only one. */
  predicate Matches(members: set<nat>, q: Request) {
    q.a != q.b && members == {q.a, q.b}
  }

  predicate HoldsLock(pc: Pc) {
    pc.Locked? || pc.Hit? || pc.Missed? || pc.Inserted?
  }

  predicate Reserved(requests: map<nat, Request>, id: nat) {
    exists r :: r in requests && requests[r].pc == Inserted(id)
  }

  predicate Turn(h: Hall, r: nat, pc: Pc) {
    r in h.requests && h.requests[r].pc == pc
  }

  predicate Enabled(h: Hall, hash: Hash, step: Step) {
    match step
    case Arrive(r, _, _) => r !in h.requests
    case Acquire(r) => Turn(h, r, Waiting) && LockOf(hash, h.requests[r]) !in h.locks
    case Find(r, id) => Turn(h, r, Locked) && id in h.dms && Matches(h.dms[id], h.requests[r])
    case Miss(r) => Turn(h, r, Locked) && forall id :: id in h.dms ==> !Matches(h.dms[id], h.requests[r])
    case Insert(r, id) => Turn(h, r, Missed) && id !in h.dms && !Reserved(h.requests, id)
    case Commit(r) => r in h.requests && (h.requests[r].pc.Hit? || h.requests[r].pc.Inserted?)
    case Vanish(r) => r in h.requests && !h.requests[r].pc.Answered?
  }

  function Goto(h: Hall, r: nat, pc: Pc): Hall
    requires r in h.requests
  {
    h.(requests := h.requests[r := h.requests[r].(pc := pc)])
  }

  function Finish(h: Hall, hash: Hash, r: nat, pc: Pc): Hall
    requires r in h.requests
  {
    Goto(h, r, pc).(locks := if HoldsLock(h.requests[r].pc) then h.locks - {LockOf(hash, h.requests[r])} else h.locks)
  }

  function Next(h: Hall, hash: Hash, step: Step): Hall {
    if !Enabled(h, hash, step) then h
    else
      match step
      case Arrive(r, a, b) => h.(requests := h.requests[r := Request(a, b, Waiting)])
      case Acquire(r) => Goto(h, r, Locked).(locks := h.locks[LockOf(hash, h.requests[r]) := r])
      case Find(r, id) => Goto(h, r, Hit(id))
      case Miss(r) => Goto(h, r, Missed)
      case Insert(r, id) => Goto(h, r, Inserted(id))
      case Commit(r) =>
        var q := h.requests[r];
        var done := Finish(h, hash, r, Answered(q.pc.id));
        if q.pc.Hit? then done else done.(dms := h.dms[q.pc.id := {q.a, q.b}])
      case Vanish(r) => Finish(h, hash, r, Gone)
  }

  function Play(hash: Hash, steps: seq<Step>): Hall {
    if steps == [] then Hall(map[], map[], map[]) else Next(Play(hash, steps[..|steps| - 1]), hash, steps[|steps| - 1])
  }

  // ----- invariant -----

  predicate LocksOk(h: Hall, hash: Hash) {
    forall r :: r in h.requests && HoldsLock(h.requests[r].pc) ==>
      LockOf(hash, h.requests[r]) in h.locks && h.locks[LockOf(hash, h.requests[r])] == r
  }

  /** At most one conversation for two people. */
  predicate OnePerPair(dms: map<nat, set<nat>>) {
    forall i, j :: i in dms && j in dms && |dms[i]| == 2 && dms[i] == dms[j] ==> i == j
  }

  /** While its lock is held, what a lookup did not find stays missing. */
  predicate MissesHold(h: Hall) {
    forall r, id :: r in h.requests && (h.requests[r].pc.Missed? || h.requests[r].pc.Inserted?) && id in h.dms ==>
      !Matches(h.dms[id], h.requests[r])
  }

  predicate IdsFit(h: Hall) {
    && (forall r :: r in h.requests && (h.requests[r].pc.Hit? || h.requests[r].pc.Answered?) ==>
          h.requests[r].pc.id in h.dms && h.dms[h.requests[r].pc.id] == {h.requests[r].a, h.requests[r].b})
    && (forall r :: r in h.requests && h.requests[r].pc.Inserted? ==> h.requests[r].pc.id !in h.dms)
    && (forall r :: r in h.requests && h.requests[r].pc.Hit? ==> h.requests[r].a != h.requests[r].b)
  }

  predicate SelfAnswer(q: Request) {
    q.a == q.b && q.pc.Answered?
  }

  predicate OwnIds(requests: map<nat, Request>) {
    && (forall r, s ::
      r in requests && s in requests && r != s && requests[r].pc.Inserted? && requests[s].pc.Inserted? ==>
          requests[r].pc.id != requests[s].pc.id)
    && (forall r, s ::
      r in requests && s in requests && r != s && SelfAnswer(requests[r]) && SelfAnswer(requests[s]) ==>
          requests[r].pc.id != requests[s].pc.id)
  }

  predicate Inv(h: Hall, hash: Hash) {
    LocksOk(h, hash) && OnePerPair(h.dms) && MissesHold(h) && IdsFit(h) && OwnIds(h.requests)
  }

  lemma NextKeepsLocks(h: Hall, hash: Hash, step: Step)
    requires LocksOk(h, hash)
    ensures LocksOk(Next(h, hash, step), hash)
  {
  }

  lemma CommitKeeps(h: Hall, hash: Hash, r: nat)
    requires Inv(h, hash) && Enabled(h, hash, Commit(r)) && h.requests[r].pc.Inserted?
    ensures var h' := Next(h, hash, Commit(r)); OnePerPair(h'.dms) && MissesHold(h')
  {
  }

  lemma NextKeepsIds(h: Hall, hash: Hash, step: Step)
    requires Inv(h, hash)
    ensures IdsFit(Next(h, hash, step))
  {
  }

  lemma NextKeepsOwnIds(h: Hall, hash: Hash, step: Step)
    requires Inv(h, hash)
    ensures OwnIds(Next(h, hash, step).requests)
  {
  }

  lemma NextKeeps(h: Hall, hash: Hash, step: Step)
    requires Inv(h, hash)
    ensures Inv(Next(h, hash, step), hash)
  {
    NextKeepsLocks(h, hash, step);
    NextKeepsIds(h, hash, step);
    NextKeepsOwnIds(h, hash, step);
    if step.Commit? && Enabled(h, hash, step) && h.requests[step.r].pc.Inserted? {
      CommitKeeps(h, hash, step.r);
    }
  }

  lemma {:induction false} PlayKeeps(hash: Hash, steps: seq<Step>)
    ensures Inv(Play(hash, steps), hash)
  {
    if steps != [] {
      PlayKeeps(hash, steps[..|steps| - 1]);
      NextKeeps(Play(hash, steps[..|steps| - 1]), hash, steps[|steps| - 1]);
    }
  }

  // ----- results -----

  /** Two people share one conversation, whoever asks, in either order, however the requests race. */
  lemma AnswersAgree(hash: Hash, steps: seq<Step>, r: nat, s: nat)
    requires var requests := Play(hash, steps).requests;
      && r in requests && s in requests && requests[r].pc.Answered? && requests[s].pc.Answered?
      && requests[r].a != requests[r].b && PairOf(requests[r].a, requests[r].b) == PairOf(requests[s].a, requests[s].b)
    ensures var h := Play(hash, steps);
      && h.requests[r].pc.id == h.requests[s].pc.id
      && h.requests[r].pc.id in h.dms && h.dms[h.requests[r].pc.id] == {h.requests[r].a, h.requests[r].b}
  {
    PlayKeeps(hash, steps);
    var h := Play(hash, steps);
    var q := h.requests[r];
    assert h.dms[q.pc.id] == {q.a, q.b} == h.dms[h.requests[s].pc.id];
    assert |{q.a, q.b}| == 2;
  }

  /** A note to oneself is a new conversation every time. */
  lemma SelfAnswersDiffer(hash: Hash, steps: seq<Step>, r: nat, s: nat)
    requires var requests := Play(hash, steps).requests;
      r in requests && s in requests && r != s && SelfAnswer(requests[r]) && SelfAnswer(requests[s])
    ensures Play(hash, steps).requests[r].pc.id != Play(hash, steps).requests[s].pc.id
  {
    PlayKeeps(hash, steps);
  }

  /** Whoever vanishes frees the lock it held and creates nothing. */
  lemma VanishFreesLock(hash: Hash, steps: seq<Step>, r: nat)
    requires Enabled(Play(hash, steps), hash, Vanish(r))
    ensures var h, h' := Play(hash, steps), Next(Play(hash, steps), hash, Vanish(r));
      && h'.requests == h.requests[r := h.requests[r].(pc := Gone)] && h'.dms == h.dms
      && (HoldsLock(h.requests[r].pc) ==> h'.locks == h.locks - {LockOf(hash, h.requests[r])})
      && (!HoldsLock(h.requests[r].pc) ==> h'.locks == h.locks)
  {
  }

  // ----- a request that nothing interrupts -----

  lemma PlayOn(hash: Hash, steps: seq<Step>, step: Step)
    ensures Play(hash, steps + [step]) == Next(Play(hash, steps), hash, step)
  {
    assert (steps + [step])[..|steps|] == steps;
  }

  lemma LoneEntry(hash: Hash, steps: seq<Step>, r: nat, a: nat, b: nat)
    requires var h := Play(hash, steps); r !in h.requests && hash(PairOf(a, b)) !in h.locks
    ensures var h := Play(hash, steps);
      Play(hash, steps + [Arrive(r, a, b)] + [Acquire(r)])
      == h.(requests := h.requests[r := Request(a, b, Locked)], locks := h.locks[hash(PairOf(a, b)) := r])
  {
    PlayOn(hash, steps, Arrive(r, a, b));
    PlayOn(hash, steps + [Arrive(r, a, b)], Acquire(r));
  }

  /** With the lock free, a request finds the conversation that is there. */
  lemma LoneRequestFinds(hash: Hash, steps: seq<Step>, r: nat, a: nat, b: nat, id: nat)
    requires var h := Play(hash, steps);
      r !in h.requests && hash(PairOf(a, b)) !in h.locks && a != b && id in h.dms && h.dms[id] == {a, b}
    ensures var h := Play(hash, steps);
      var h' := Play(hash, steps + [Arrive(r, a, b)] + [Acquire(r)] + [Find(r, id)] + [Commit(r)]);
      r in h'.requests && h'.requests[r].pc == Answered(id) && h'.dms == h.dms && h'.locks == h.locks
  {
    LoneEntry(hash, steps, r, a, b);
    var inside := steps + [Arrive(r, a, b)] + [Acquire(r)];
    PlayOn(hash, inside, Find(r, id));
    PlayOn(hash, inside + [Find(r, id)], Commit(r));
    assert Play(hash, inside).locks - {hash(PairOf(a, b))} == Play(hash, steps).locks;
  }

  /** Otherwise it creates one with just these members, under any id that is free. */
  lemma LoneRequestCreates(hash: Hash, steps: seq<Step>, r: nat, a: nat, b: nat, id: nat)
    requires var h := Play(hash, steps);
      && r !in h.requests && hash(PairOf(a, b)) !in h.locks && id !in h.dms && !Reserved(h.requests, id)
      && (a == b || forall k :: k in h.dms ==> h.dms[k] != {a, b})
    ensures var h := Play(hash, steps);
      var h' := Play(hash, steps + [Arrive(r, a, b)] + [Acquire(r)] + [Miss(r)] + [Insert(r, id)] + [Commit(r)]);
      r in h'.requests && h'.requests[r].pc == Answered(id) && h'.dms == h.dms[id := {a, b}] && h'.locks == h.locks
  {
    LoneEntry(hash, steps, r, a, b);
    var inside := steps + [Arrive(r, a, b)] + [Acquire(r)];
    PlayOn(hash, inside, Miss(r));
    PlayOn(hash, inside + [Miss(r)], Insert(r, id));
    PlayOn(hash, inside + [Miss(r)] + [Insert(r, id)], Commit(r));
    assert Play(hash, inside).locks - {hash(PairOf(a, b))} == Play(hash, steps).locks;
  }
}
