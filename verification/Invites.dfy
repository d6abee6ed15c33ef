/**
 Any number of joiners redeeming invites at once. Each looks before it locks,
 looks again under the invite's row lock, inserts the member row (the unique
 slot decides who gets the seat), charges one use, and commits; it may also
 vanish at any point. Members and bans change meanwhile.
 */
module Invites {
  import opened Prelude
  import W = Workspaces

  datatype Pc = Ready | Checked | Locked | Inserted | Charged | Accepted | Already | Refused

  /** `read` is the time of the check made under the lock. */
  datatype Joiner = Joiner(user: nat, invite: nat, pc: Pc, read: int)

  datatype Seat = Seat(invite: nat, user: nat)

  /**
   Committed tables, row locks on invites, uncommitted member rows, the
   joiners, and every seat an invite created, in commit order.
   */
  datatype Desk = Desk(
    members: map<nat, W.Role>,
    bans: set<nat>,
    invites: map<nat, W.Invite>,
    locks: map<nat, nat>,
    slots: map<nat, nat>,
    joiners: map<nat, Joiner>,
    created: seq<Seat>)

  const OPEN := Desk(map[], {}, map[], map[], map[], map[], [])

  datatype Step =
    | Govern(members: map<nat, W.Role>, bans: set<nat>)
    | Issue(id: nat, role: W.Role, deadline: Option<int>, cap: Option<int>)
    | Revoke(id: nat)
    | Arrive(j: nat, user: nat, id: nat)
    | Look(j: nat, now: int)
    | Lock(j: nat, now: int)
    | Insert(j: nat)
    | Charge(j: nat)
    | Commit(j: nat)
    | Vanish(j: nat)

  function Goto(d: Desk, j: nat, pc: Pc): Desk
    requires j in d.joiners
  {
    d.(joiners := d.joiners[j := d.joiners[j].(pc := pc)])
  }

  /** End of a transaction: its row lock and its slot are free again. */
  function Leave(d: Desk, j: nat, pc: Pc): Desk
    requires j in d.joiners
  {
    var me := d.joiners[j];
    Goto(d, j, pc).(
      locks := if me.invite in d.locks && d.locks[me.invite] == j then d.locks - {me.invite} else d.locks,
      slots := if me.user in d.slots && d.slots[me.user] == j then d.slots - {me.user} else d.slots)
  }

  predicate Turn(d: Desk, j: nat, pc: Pc) {
    j in d.joiners && d.joiners[j].pc == pc
  }

  predicate Finished(pc: Pc) {
    pc.Accepted? || pc.Already? || pc.Refused?
  }

  predicate Enabled(d: Desk, step: Step) {
    match step
    case Govern(members, _) => forall u :: u in d.slots ==> u !in members
    case Issue(id, _, _, cap) => id !in d.invites && (cap.Some? ==> cap.value > 0)
    case Revoke(id) => id in d.invites && id !in d.locks
    case Arrive(j, _, _) => j !in d.joiners
    case Look(j, _) => Turn(d, j, Ready)
    case Lock(j, _) => Turn(d, j, Checked) && d.joiners[j].invite !in d.locks
    case Insert(j) => Turn(d, j, Locked) && d.joiners[j].user !in d.slots
    case Charge(j) => Turn(d, j, Inserted)
    case Commit(j) => Turn(d, j, Charged)
    case Vanish(j) => j in d.joiners && !Finished(d.joiners[j].pc)
  }

  /** The check made outside any transaction. */
  function Glance(d: Desk, me: Joiner, now: int): Pc {
    if me.invite !in d.invites || me.user in d.bans then Refused
    else if me.user in d.members then Already
    else if !W.Usable(d.invites[me.invite], now) then Refused
    else Checked
  }

  predicate Known(joiners: map<nat, Joiner>, invites: map<nat, W.Invite>) {
    forall j :: j in joiners && !joiners[j].pc.Ready? && !Finished(joiners[j].pc) ==> joiners[j].invite in invites
  }

  function Next(d: Desk, step: Step): Desk
    requires Enabled(d, step) && Known(d.joiners, d.invites)
  {
    match step
    case Govern(members, bans) => d.(members := members, bans := bans)
    case Issue(id, role, deadline, cap) => d.(invites := d.invites[id := W.Invite(role, deadline, cap, 0, false)])
    case Revoke(id) => d.(invites := d.invites[id := d.invites[id].(revoked := true)])
    case Arrive(j, user, id) => d.(joiners := d.joiners[j := Joiner(user, id, Ready, 0)])
    case Look(j, now) => Goto(d, j, Glance(d, d.joiners[j], now))
    case Lock(j, now) =>
      var me := d.joiners[j];
      if !W.Usable(d.invites[me.invite], now) then Goto(d, j, Refused)
      else d.(locks := d.locks[me.invite := j], joiners := d.joiners[j := me.(pc := Locked, read := now)])
    case Insert(j) =>
      if d.joiners[j].user in d.members then Leave(d, j, Already)
      else Goto(d, j, Inserted).(slots := d.slots[d.joiners[j].user := j])
    case Charge(j) => Goto(d, j, Charged)
    case Commit(j) =>
      var me := d.joiners[j];
      var invite := d.invites[me.invite];
      Leave(d, j, Accepted).(
        members := d.members[me.user := invite.role],
        invites := d.invites[me.invite := invite.(uses := invite.uses + 1)],
        created := d.created + [Seat(me.invite, me.user)])
    case Vanish(j) => Leave(d, j, Refused)
  }

  function Count(created: seq<Seat>, id: nat): nat {
    if created == [] then 0
    else Count(created[..|created| - 1], id) + (if created[|created| - 1].invite == id then 1 else 0)
  }

  // ----- invariant -----

  predicate InTx(pc: Pc) {
    pc.Locked? || pc.Inserted? || pc.Charged?
  }

  predicate HasSlot(pc: Pc) {
    pc.Inserted? || pc.Charged?
  }

  /** A row lock belongs to exactly the joiner that is inside its transaction. */
  predicate LocksOk(locks: map<nat, nat>, joiners: map<nat, Joiner>) {
    && (forall j :: j in joiners && InTx(joiners[j].pc) ==> joiners[j].invite in locks && locks[joiners[j].invite] == j)
    && (forall i :: i in locks ==> locks[i] in joiners && InTx(joiners[locks[i]].pc) && joiners[locks[i]].invite == i)
  }

  /** So does the slot of a member row that is inserted but not committed. */
  predicate SlotsOk(slots: map<nat, nat>, joiners: map<nat, Joiner>) {
    && (forall j :: j in joiners && HasSlot(joiners[j].pc) ==> joiners[j].user in slots && slots[joiners[j].user] == j)
    && (forall u :: u in slots ==> slots[u] in joiners && HasSlot(joiners[slots[u]].pc) && joiners[slots[u]].user == u)
  }

  /** What was usable under the lock stays usable, as of that check, while the lock is held. */
  predicate StillUsable(joiners: map<nat, Joiner>, invites: map<nat, W.Invite>) {
    forall j :: j in joiners && InTx(joiners[j].pc) ==>
      joiners[j].invite in invites && W.Usable(invites[joiners[j].invite], joiners[j].read)
  }

  predicate SlotsFree(slots: map<nat, nat>, members: map<nat, W.Role>) {
    forall u :: u in slots ==> u !in members
  }

  predicate Counted(invites: map<nat, W.Invite>, created: seq<Seat>) {
    && (forall i :: i in invites ==>
      invites[i].uses == Count(created, i) && (invites[i].cap.Some? ==> invites[i].uses <= invites[i].cap.value))
    && (forall k :: 0 <= k < |created| ==> created[k].invite in invites)
  }

  predicate Inv(d: Desk) {
    && Known(d.joiners, d.invites)
    && LocksOk(d.locks, d.joiners)
    && SlotsOk(d.slots, d.joiners)
    && StillUsable(d.joiners, d.invites)
    && SlotsFree(d.slots, d.members)
    && Counted(d.invites, d.created)
  }

  lemma {:induction false} CountOfStranger(created: seq<Seat>, id: nat)
    requires forall k :: 0 <= k < |created| ==> created[k].invite != id
    ensures Count(created, id) == 0
  {
    if created != [] {
      CountOfStranger(created[..|created| - 1], id);
    }
  }

  predicate SameTx(before: Joiner, after: Joiner) {
    before.user == after.user && before.invite == after.invite && InTx(before.pc) == InTx(after.pc)
  }

  lemma LocksStay(locks: map<nat, nat>, joiners: map<nat, Joiner>, j: nat, me: Joiner)
    requires LocksOk(locks, joiners) && j in joiners && SameTx(joiners[j], me)
    ensures LocksOk(locks, joiners[j := me])
  {
  }

  lemma SlotsStay(slots: map<nat, nat>, joiners: map<nat, Joiner>, j: nat, me: Joiner)
    requires SlotsOk(slots, joiners) && j in joiners && joiners[j].user == me.user
    requires HasSlot(joiners[j].pc) == HasSlot(me.pc)
    ensures SlotsOk(slots, joiners[j := me])
  {
  }

  lemma LeaveFreesLock(d: Desk, j: nat, pc: Pc)
    requires LocksOk(d.locks, d.joiners) && j in d.joiners && Finished(pc)
    ensures var d' := Leave(d, j, pc); LocksOk(d'.locks, d'.joiners)
  {
  }

  lemma LeaveFreesSlot(d: Desk, j: nat, pc: Pc)
    requires SlotsOk(d.slots, d.joiners) && j in d.joiners && Finished(pc)
    ensures var d' := Leave(d, j, pc); SlotsOk(d'.slots, d'.joiners)
  {
  }

  lemma LeaveKeepsUsable(d: Desk, j: nat, pc: Pc, invites: map<nat, W.Invite>)
    requires LocksOk(d.locks, d.joiners) && StillUsable(d.joiners, d.invites) && j in d.joiners && Finished(pc)
    requires forall i :: i in d.invites && !(InTx(d.joiners[j].pc) && i == d.joiners[j].invite) ==>
      i in invites && invites[i] == d.invites[i]
    ensures StillUsable(Leave(d, j, pc).joiners, invites)
  {
  }

  lemma LeaveKeeps(d: Desk, j: nat, pc: Pc)
    requires Inv(d) && j in d.joiners && Finished(pc)
    ensures Inv(Leave(d, j, pc))
  {
    LeaveFreesLock(d, j, pc);
    LeaveFreesSlot(d, j, pc);
    LeaveKeepsUsable(d, j, pc, d.invites);
  }

  lemma SeatKeepsCount(invites: map<nat, W.Invite>, created: seq<Seat>, seat: Seat, read: int)
    requires Counted(invites, created) && seat.invite in invites && W.Usable(invites[seat.invite], read)
    ensures var invite := invites[seat.invite];
      Counted(invites[seat.invite := invite.(uses := invite.uses + 1)], created + [seat])
  {
  }

  lemma CommitKeeps(d: Desk, j: nat)
    requires Inv(d) && Enabled(d, Commit(j))
    ensures Inv(Next(d, Commit(j)))
  {
    LeaveKeeps(d, j, Accepted);
    LeaveKeepsUsable(d, j, Accepted, Next(d, Commit(j)).invites);
    var me := d.joiners[j];
    SeatKeepsCount(d.invites, d.created, Seat(me.invite, me.user), me.read);
  }

  lemma MovesKeep(d: Desk, j: nat, pc: Pc)
    requires Inv(d) && j in d.joiners
    requires match d.joiners[j].pc
      case Ready => Finished(pc) || (pc == Checked && d.joiners[j].invite in d.invites)
      case Checked => pc == Refused
      case Inserted => pc == Charged
      case _ => false
    ensures Inv(Goto(d, j, pc))
  {
    LocksStay(d.locks, d.joiners, j, d.joiners[j].(pc := pc));
    SlotsStay(d.slots, d.joiners, j, d.joiners[j].(pc := pc));
  }

  lemma LockKeeps(d: Desk, j: nat, now: int)
    requires Inv(d) && Enabled(d, Lock(j, now))
    ensures Inv(Next(d, Lock(j, now)))
  {
    var me := d.joiners[j];
    if W.Usable(d.invites[me.invite], now) {
      SlotsStay(d.slots, d.joiners, j, me.(pc := Locked, read := now));
    } else {
      MovesKeep(d, j, Refused);
    }
  }

  lemma TakeSlot(slots: map<nat, nat>, joiners: map<nat, Joiner>, j: nat)
    requires SlotsOk(slots, joiners) && j in joiners && joiners[j].pc == Locked && joiners[j].user !in slots
    ensures SlotsOk(slots[joiners[j].user := j], joiners[j := joiners[j].(pc := Inserted)])
  {
  }

  lemma InsertKeeps(d: Desk, j: nat)
    requires Inv(d) && Enabled(d, Insert(j))
    ensures Inv(Next(d, Insert(j)))
  {
    if d.joiners[j].user in d.members {
      LeaveKeeps(d, j, Already);
    } else {
      LocksStay(d.locks, d.joiners, j, d.joiners[j].(pc := Inserted));
      TakeSlot(d.slots, d.joiners, j);
    }
  }

  lemma IssueKeepsCount(invites: map<nat, W.Invite>, created: seq<Seat>, id: nat, invite: W.Invite)
    requires Counted(invites, created) && id !in invites && invite.uses == 0
    requires invite.cap.Some? ==> invite.cap.value > 0
    ensures Counted(invites[id := invite], created)
  {
    CountOfStranger(created, id);
  }

  lemma ArriveKeeps(d: Desk, j: nat, user: nat, id: nat)
    requires Inv(d) && j !in d.joiners
    ensures Inv(d.(joiners := d.joiners[j := Joiner(user, id, Ready, 0)]))
  {
  }

  lemma InvitesChange(d: Desk, invites: map<nat, W.Invite>)
    requires Inv(d) && d.invites.Keys <= invites.Keys && Counted(invites, d.created)
    requires forall j :: j in d.joiners && InTx(d.joiners[j].pc) ==>
      d.joiners[j].invite in d.invites && invites[d.joiners[j].invite] == d.invites[d.joiners[j].invite]
    ensures Inv(d.(invites := invites))
  {
  }

  lemma OutsideKeeps(d: Desk, step: Step)
    requires Inv(d) && Enabled(d, step) && (step.Govern? || step.Issue? || step.Revoke? || step.Arrive?)
    ensures Inv(Next(d, step))
  {
    match step
    case Issue(id, role, deadline, cap) =>
      IssueKeepsCount(d.invites, d.created, id, W.Invite(role, deadline, cap, 0, false));
      InvitesChange(d, Next(d, step).invites);
    case Revoke(id) => InvitesChange(d, Next(d, step).invites);
    case Arrive(j, user, id) => ArriveKeeps(d, j, user, id);
    case Govern(_, _) =>
  }

  lemma NextKeeps(d: Desk, step: Step)
    requires Inv(d) && Enabled(d, step)
    ensures Inv(Next(d, step))
  {
    match step
    case Look(j, now) => MovesKeep(d, j, Glance(d, d.joiners[j], now));
    case Lock(j, now) => LockKeeps(d, j, now);
    case Insert(j) => InsertKeeps(d, j);
    case Charge(j) => MovesKeep(d, j, Charged);
    case Commit(j) => CommitKeeps(d, j);
    case Vanish(j) => LeaveKeeps(d, j, Refused);
    case _ => OutsideKeeps(d, step);
  }

  /** Where a run leads; a step that must wait or cannot happen changes nothing. */
  function Play(steps: seq<Step>): Desk {
    if steps == [] then OPEN
    else
      var d, step := Play(steps[..|steps| - 1]), steps[|steps| - 1];
      if Enabled(d, step) && Known(d.joiners, d.invites) then Next(d, step) else d
  }

  lemma {:induction false} PlayKeeps(steps: seq<Step>)
    ensures Inv(Play(steps))
  {
    if steps != [] {
      var d, step := Play(steps[..|steps| - 1]), steps[|steps| - 1];
      PlayKeeps(steps[..|steps| - 1]);
      if Enabled(d, step) {
        NextKeeps(d, step);
      }
    }
  }

  // ----- results -----

  /** However joiners race, an invite's uses are the seats it created, never more than its cap. */
  lemma {:induction false} UsesAreSeats(steps: seq<Step>, id: nat)
    requires id in Play(steps).invites
    ensures var d := Play(steps); var invite := d.invites[id];
      invite.uses == Count(d.created, id) && (invite.cap.Some? ==> invite.uses <= invite.cap.value)
  {
    PlayKeeps(steps);
  }

  /** Finding oneself already seated ends the join without a use, a seat or a lock left behind. */
  lemma {:induction false} AlreadySeatedIsFree(steps: seq<Step>, j: nat)
    requires var d := Play(steps); Enabled(d, Insert(j)) && d.joiners[j].user in d.members
    ensures var d := Play(steps); var d' := Play(steps + [Insert(j)]);
      && d'.joiners[j].pc == Already
      && d'.invites == d.invites && d'.members == d.members && d'.created == d.created
      && d'.locks == d.locks - {d.joiners[j].invite} && d'.slots == d.slots
  {
    PlayKeeps(steps);
    assert (steps + [Insert(j)])[..|steps|] == steps;
  }

  /** What the atomic join would have done instead of this commit, at the time of its check under the lock. */
  function SerialJoin(d: Desk, j: nat): (W.Space, W.Outcome)
    requires j in d.joiners
  {
    var me := d.joiners[j];
    W.Redeem(W.Space(d.members, d.bans, map[], d.invites), me.user, me.invite, me.read)
  }

  predicate Agrees(d: Desk, d': Desk, j: nat)
    requires j in d.joiners && d.joiners[j].invite in d.invites
  {
    var (s, outcome) := SerialJoin(d, j);
    outcome == W.Seated(d.invites[d.joiners[j].invite].role) && s.members == d'.members && s.invites == d'.invites
  }

  lemma CommitAgrees(d: Desk, j: nat)
    requires Known(d.joiners, d.invites) && SlotsOk(d.slots, d.joiners) && SlotsFree(d.slots, d.members)
    requires StillUsable(d.joiners, d.invites) && Enabled(d, Commit(j))
    ensures d.joiners[j].user !in d.members && d.joiners[j].invite in d.invites
    ensures Agrees(d, Next(d, Commit(j)), j) <==> d.joiners[j].user !in d.bans
  {
  }

  /**
   A commit finds the seat free and the invite usable, and is the atomic join
   exactly when its user has not been banned since the look.
   */
  lemma {:induction false} CommitIsSerialJoin(steps: seq<Step>, j: nat)
    requires Enabled(Play(steps), Commit(j))
    ensures var d := Play(steps); d.joiners[j].user !in d.members && d.joiners[j].invite in d.invites
    ensures var d := Play(steps); Agrees(d, Play(steps + [Commit(j)]), j) <==> d.joiners[j].user !in d.bans
  {
    PlayKeeps(steps);
    assert (steps + [Commit(j)])[..|steps|] == steps;
    CommitAgrees(Play(steps), j);
  }

  // ----- bans that arrive in between -----

  /** The joiner looks at step `i`, and passes. */
  predicate PassesAt(steps: seq<Step>, i: nat, j: nat) {
    && i < |steps| && steps[i].Look? && steps[i].j == j
    && Turn(Play(steps[..i]), j, Ready)
    && Glance(Play(steps[..i]), Play(steps[..i]).joiners[j], steps[i].now) == Checked
  }

  /** The user is banned at step `k` and was not before. */
  predicate BannedAt(steps: seq<Step>, k: nat, user: nat) {
    k < |steps| && user !in Play(steps[..k]).bans && user in Play(steps[..k + 1]).bans
  }

  lemma PlayStep(steps: seq<Step>, i: nat)
    requires i < |steps|
    ensures var d := Play(steps[..i]);
      Play(steps[..i + 1]) == if Enabled(d, steps[i]) && Known(d.joiners, d.invites) then Next(d, steps[i]) else d
  {
    assert steps[..i + 1][..i] == steps[..i];
  }

  predicate PastLook(pc: Pc) {
    pc.Checked? || InTx(pc)
  }

  /** Only the look itself takes a joiner past the look. */
  lemma OnlyLookPasses(d: Desk, step: Step, j: nat)
    requires Known(d.joiners, d.invites) && Enabled(d, step)
    requires j in Next(d, step).joiners && PastLook(Next(d, step).joiners[j].pc)
    ensures j in d.joiners && d.joiners[j].user == Next(d, step).joiners[j].user
    ensures PastLook(d.joiners[j].pc) || (step.Look? && step.j == j && Glance(d, d.joiners[j], step.now) == Checked)
  {
  }

  /** Whoever is past the look has looked, as the same user. */
  lemma {:induction false} LookedOnce(steps: seq<Step>, j: nat) returns (i: nat)
    requires j in Play(steps).joiners && PastLook(Play(steps).joiners[j].pc)
    ensures PassesAt(steps, i, j) && Play(steps[..i]).joiners[j].user == Play(steps).joiners[j].user
  {
    var n := |steps| - 1;
    var before := steps[..n];
    var d := Play(before);
    if Enabled(d, steps[n]) && Known(d.joiners, d.invites) {
      OnlyLookPasses(d, steps[n], j);
    }
    if PastLook(d.joiners[j].pc) {
      i := LookedOnce(before, j);
      assert before[..i] == steps[..i];
    } else {
      i := n;
    }
  }

  lemma {:induction false} TurnsTrue(f: nat -> bool, from: nat, to: nat) returns (k: nat)
    requires from < to && !f(from) && f(to)
    ensures from <= k < to && !f(k) && f(k + 1)
    decreases if from < to then to - from else 0
  {
    k := from;
    if !f(from + 1) {
      k := TurnsTrue(f, from + 1, to);
    }
  }

  ghost predicate BannedAfterLook(steps: seq<Step>, j: nat, user: nat) {
    exists i, k :: PassesAt(steps, i, j) && i < k && BannedAt(steps, k, user)
  }

  predicate BannedBy(steps: seq<Step>, user: nat, k: nat) {
    k <= |steps| && user in Play(steps[..k]).bans
  }

  lemma BanIsFound(steps: seq<Step>, from: nat, user: nat) returns (k: nat)
    requires from <= |steps| && !BannedBy(steps, user, from) && BannedBy(steps, user, |steps|)
    ensures from <= k && BannedAt(steps, k, user)
  {
    k := TurnsTrue((i: nat) => BannedBy(steps, user, i), from, |steps|);
  }

  lemma LookBansNobody(steps: seq<Step>, i: nat, j: nat)
    requires PassesAt(steps, i, j)
    ensures Play(steps[..i]).joiners[j].user !in Play(steps[..i + 1]).bans
  {
    PlayStep(steps, i);
  }

  lemma BanCameLater(steps: seq<Step>, j: nat)
    requires j in Play(steps).joiners && PastLook(Play(steps).joiners[j].pc)
    requires Play(steps).joiners[j].user in Play(steps).bans
    ensures BannedAfterLook(steps, j, Play(steps).joiners[j].user)
  {
    var user := Play(steps).joiners[j].user;
    var i := LookedOnce(steps, j);
    LookBansNobody(steps, i, j);
    assert steps[..|steps|] == steps;
    var k := BanIsFound(steps, i + 1, user);
    assert PassesAt(steps, i, j) && i < k && BannedAt(steps, k, user);
  }

  /** A race seats a banned user exactly when the ban came after the look outside the lock and still stands. */
  lemma {:induction false} SeatsBannedIffBannedSince(steps: seq<Step>, j: nat)
    requires Enabled(Play(steps), Commit(j))
    ensures var user, d' := Play(steps).joiners[j].user, Play(steps + [Commit(j)]);
      user in d'.members && (user in d'.bans <==> user in Play(steps).bans && BannedAfterLook(steps, j, user))
  {
    PlayKeeps(steps);
    assert (steps + [Commit(j)])[..|steps|] == steps;
    if Play(steps).joiners[j].user in Play(steps).bans {
      BanCameLater(steps, j);
    }
  }

  lemma PlayOn(steps: seq<Step>, step: Step)
    requires Enabled(Play(steps), step) && Known(Play(steps).joiners, Play(steps).invites)
    ensures Play(steps + [step]) == Next(Play(steps), step)
  {
  }

  /** All of these steps are possible, one after the other. */
  predicate Follows(d: Desk, more: seq<Step>, d': Desk)
    decreases |more|
  {
    if more == [] then d' == d
    else Enabled(d, more[0]) && Known(d.joiners, d.invites) && Follows(Next(d, more[0]), more[1..], d')
  }

  lemma {:induction false} PlayAll(steps: seq<Step>, more: seq<Step>, d: Desk, d': Desk)
    requires Play(steps) == d && Follows(d, more, d')
    ensures Play(steps + more) == d'
    decreases |more|
  {
    if more == [] {
      assert steps + more == steps;
    } else {
      PlayOn(steps, more[0]);
      assert (steps + [more[0]]) + more[1..] == steps + more;
      PlayAll(steps + [more[0]], more[1..], Next(d, more[0]), d');
    }
  }

  const ONE_INVITE: map<nat, W.Invite> := map[1 := W.Invite(W.Member, None, None, 0, false)]

  const LOOKED := Desk(map[], {}, ONE_INVITE, map[], map[], map[0 := Joiner(9, 1, Checked, 0)], [])

  const LOCKED := Desk(map[], {9}, ONE_INVITE, map[1 := 0], map[], map[0 := Joiner(9, 1, Locked, 0)], [])

  const CHARGED := Desk(map[], {9}, ONE_INVITE, map[1 := 0], map[9 := 0], map[0 := Joiner(9, 1, Charged, 0)], [])

  const LOOK: seq<Step> := [Issue(1, W.Member, None, None), Arrive(0, 9, 1), Look(0, 0)]

  /** Somebody adds the user, who is then banned, and only then takes the lock. */
  const BAN: seq<Step> := [Govern(map[9 := W.Guest], {}), Govern(map[], {9}), Lock(0, 0)]

  lemma LookFollows()
    ensures Follows(OPEN, LOOK, LOOKED)
  {
  }

  lemma BanFollows()
    ensures Follows(LOOKED, BAN, LOCKED)
  {
  }

  lemma BanPlays()
    ensures Play(LOOK + BAN) == LOCKED
  {
    LookFollows();
    PlayAll([], LOOK, OPEN, LOOKED);
    assert [] + LOOK == LOOK;
    BanFollows();
    PlayAll(LOOK, BAN, LOOKED, LOCKED);
  }

  lemma LateBanPlays()
    ensures Play(LOOK + BAN + [Insert(0)] + [Charge(0)]) == CHARGED
  {
    BanPlays();
    PlayOn(LOOK + BAN, Insert(0));
    PlayOn(LOOK + BAN + [Insert(0)], Charge(0));
  }

  /** A run in which a banned user gets a seat. */
  lemma BannedGetsSeated()
    ensures var steps := LOOK + BAN + [Insert(0)] + [Charge(0)];
      Enabled(Play(steps), Commit(0)) && 9 in Play(steps).bans && 9 in Play(steps + [Commit(0)]).members
  {
    LateBanPlays();
    PlayOn(LOOK + BAN + [Insert(0)] + [Charge(0)], Commit(0));
  }

  /** What a joiner can do next, if it need not wait. */
  predicate CanMove(d: Desk, j: nat) {
    Enabled(d, Look(j, 0)) || Enabled(d, Lock(j, 0)) || Enabled(d, Insert(j)) || Enabled(d, Charge(j))
      || Enabled(d, Commit(j))
  }

  lemma SomebodyMovesFrom(d: Desk, j: nat)
    requires LocksOk(d.locks, d.joiners) && SlotsOk(d.slots, d.joiners) && j in d.joiners && !Finished(d.joiners[j].pc)
    ensures exists k :: k in d.joiners && CanMove(d, k)
  {
    if !CanMove(d, j) {
      var holder := if d.joiners[j].pc.Checked? then d.locks[d.joiners[j].invite] else d.slots[d.joiners[j].user];
      if !CanMove(d, holder) {
        assert CanMove(d, d.slots[d.joiners[holder].user]);
      }
    }
  }

  /** Invite row before member slot, for everyone: whoever waits, somebody can move. */
  lemma {:induction false} SomebodyMoves(steps: seq<Step>, j: nat)
    requires j in Play(steps).joiners && !Finished(Play(steps).joiners[j].pc)
    ensures exists k :: k in Play(steps).joiners && CanMove(Play(steps), k)
  {
    PlayKeeps(steps);
    SomebodyMovesFrom(Play(steps), j);
  }

  /** Whoever vanishes leaves no lock, no row and no use behind, and lets the others be. */
  lemma VanishLeavesNothing(d: Desk, j: nat)
    requires Inv(d) && Enabled(d, Vanish(j))
    ensures var d' := Next(d, Vanish(j));
      && j in d'.joiners && Finished(d'.joiners[j].pc)
      && (forall i :: i in d'.locks <==> i in d.locks && d.locks[i] != j)
      && (forall u :: u in d'.slots <==> u in d.slots && d.slots[u] != j)
      && d' == d.(joiners := d.joiners[j := d'.joiners[j]], locks := d'.locks, slots := d'.slots)
  {
  }

  /** Once revoked, an invite passes neither check, outside the lock or under it. */
  lemma RevokedIsRefused(d: Desk, id: nat, me: Joiner, now: int)
    requires Enabled(d, Revoke(id)) && Known(d.joiners, d.invites) && me.invite == id
    ensures var d' := Next(d, Revoke(id));
      && id in d'.invites && !W.Usable(d'.invites[id], now) && d'.invites[id].uses == d.invites[id].uses
      && (me.user !in d.members ==> Glance(d', me, now) == Refused)
      && d' == d.(invites := d.invites[id := d'.invites[id]])
  {
  }

  // ----- a join that nothing interrupts -----

  /** A step is taken when it is possible. */
  function Do(d: Desk, step: Step): Desk {
    if Enabled(d, step) && Known(d.joiners, d.invites) then Next(d, step) else d
  }

  function DoAll(d: Desk, steps: seq<Step>): Desk
    decreases |steps|
  {
    if steps == [] then d else DoAll(Do(d, steps[0]), steps[1..])
  }

  lemma {:induction false} PlayDoesAll(steps: seq<Step>, more: seq<Step>)
    ensures Play(steps + more) == DoAll(Play(steps), more)
    decreases |more|
  {
    if more == [] {
      assert steps + more == steps;
    } else {
      assert (steps + [more[0]])[..|steps|] == steps;
      assert (steps + [more[0]]) + more[1..] == steps + more;
      PlayDoesAll(steps + [more[0]], more[1..]);
    }
  }

  lemma DoThree(d: Desk, a: Step, b: Step, c: Step)
    ensures DoAll(d, [a, b, c]) == Do(Do(Do(d, a), b), c)
  {
    assert [a, b, c][1..] == [b, c] && [b, c][1..] == [c] && [c][1..] == [];
    assert DoAll(Do(Do(d, a), b), [c]) == DoAll(Do(Do(Do(d, a), b), c), []);
    assert DoAll(Do(d, a), [b, c]) == DoAll(Do(Do(d, a), b), [c]);
  }

  predicate Sane(d: Desk) {
    Known(d.joiners, d.invites)
  }

  lemma DoArrive(d: Desk, j: nat, user: nat, id: nat)
    requires Sane(d) && j !in d.joiners
    ensures var d' := d.(joiners := d.joiners[j := Joiner(user, id, Ready, 0)]);
      Do(d, Arrive(j, user, id)) == d' && Sane(d')
  {
  }

  lemma DoLook(d: Desk, j: nat, now: int)
    requires Sane(d) && Turn(d, j, Ready)
    ensures var d' := Goto(d, j, Glance(d, d.joiners[j], now)); Do(d, Look(j, now)) == d' && Sane(d')
  {
  }

  lemma DoLock(d: Desk, j: nat, now: int)
    requires Sane(d) && Turn(d, j, Checked) && d.joiners[j].invite !in d.locks
    requires d.joiners[j].invite in d.invites && W.Usable(d.invites[d.joiners[j].invite], now)
    ensures var me := d.joiners[j];
      var d' := d.(locks := d.locks[me.invite := j], joiners := d.joiners[j := me.(pc := Locked, read := now)]);
      Do(d, Lock(j, now)) == d' && Sane(d')
  {
  }

  lemma DoNothing(d: Desk, step: Step)
    requires !Enabled(d, step)
    ensures Do(d, step) == d
  {
  }

  function WithJoiner(d: Desk, j: nat, me: Joiner): Desk {
    d.(joiners := d.joiners[j := me])
  }

  function Inside(d: Desk, j: nat, user: nat, id: nat, now: int): Desk {
    d.(joiners := d.joiners[j := Joiner(user, id, Locked, now)], locks := d.locks[id := j])
  }

  lemma Arrived(d: Desk, j: nat, user: nat, id: nat, now: int)
    requires Sane(d) && j !in d.joiners
    ensures var d' := WithJoiner(d, j, Joiner(user, id, Glance(d, Joiner(user, id, Ready, 0), now), 0));
      Do(Do(d, Arrive(j, user, id)), Look(j, now)) == d' && Sane(d')
  {
    DoArrive(d, j, user, id);
    var d1 := WithJoiner(d, j, Joiner(user, id, Ready, 0));
    DoLook(d1, j, now);
    var pc := Glance(d, Joiner(user, id, Ready, 0), now);
    assert Goto(d1, j, pc) == WithJoiner(d, j, Joiner(user, id, pc, 0));
  }

  /** Arriving, looking and locking: inside the transaction, or done with it. */
  lemma LoneEntry(d: Desk, j: nat, user: nat, id: nat, now: int)
    requires Sane(d) && j !in d.joiners && id !in d.locks
    ensures var d' := DoAll(d, [Arrive(j, user, id), Look(j, now), Lock(j, now)]);
      var pc := Glance(d, Joiner(user, id, Ready, 0), now);
      Sane(d') && d' == if pc == Checked then Inside(d, j, user, id, now) else WithJoiner(d, j, Joiner(user, id, pc, 0))
  {
    var pc := Glance(d, Joiner(user, id, Ready, 0), now);
    DoThree(d, Arrive(j, user, id), Look(j, now), Lock(j, now));
    Arrived(d, j, user, id, now);
    var d2 := WithJoiner(d, j, Joiner(user, id, pc, 0));
    if pc == Checked {
      DoLock(d2, j, now);
      assert d2.joiners[j := Joiner(user, id, Locked, now)] == d.joiners[j := Joiner(user, id, Locked, now)];
    } else {
      DoNothing(d2, Lock(j, now));
    }
  }

  lemma DoInsert(d: Desk, j: nat)
    requires Sane(d) && Turn(d, j, Locked) && d.joiners[j].user !in d.slots && d.joiners[j].user !in d.members
    ensures var me := d.joiners[j];
      var d' := d.(joiners := d.joiners[j := me.(pc := Inserted)], slots := d.slots[me.user := j]);
      Do(d, Insert(j)) == d' && Sane(d')
  {
  }

  lemma DoCharge(d: Desk, j: nat)
    requires Sane(d) && Turn(d, j, Inserted)
    ensures var d' := Goto(d, j, Charged); Do(d, Charge(j)) == d' && Sane(d')
  {
  }

  lemma DoCommit(d: Desk, j: nat)
    requires Sane(d) && Turn(d, j, Charged)
    ensures var me, d' := d.joiners[j], Do(d, Commit(j));
      && me.invite in d.invites && d'.joiners == d.joiners[j := me.(pc := Accepted)]
      && d'.members == d.members[me.user := d.invites[me.invite].role]
      && d'.invites == d.invites[me.invite := d.invites[me.invite].(uses := d.invites[me.invite].uses + 1)]
      && d'.created == d.created + [Seat(me.invite, me.user)]
      && (me.invite in d.locks && d.locks[me.invite] == j ==> d'.locks == d.locks - {me.invite})
      && (me.user in d.slots && d.slots[me.user] == j ==> d'.slots == d.slots - {me.user})
  {
  }

  /** The row is inserted, the use charged, and both committed. */
  lemma LoneExit(d: Desk, j: nat)
    requires Sane(d) && Turn(d, j, Locked) && d.joiners[j].user !in d.slots && d.joiners[j].user !in d.members
    requires d.joiners[j].invite in d.locks && d.locks[d.joiners[j].invite] == j
    ensures var d', me := DoAll(d, [Insert(j), Charge(j), Commit(j)]), d.joiners[j];
      && me.invite in d.invites && j in d'.joiners && d'.joiners[j].pc == Accepted
      && d'.members == d.members[me.user := d.invites[me.invite].role]
      && d'.invites == d.invites[me.invite := d.invites[me.invite].(uses := d.invites[me.invite].uses + 1)]
      && d'.locks == d.locks - {me.invite} && d'.slots == d.slots
      && d'.created == d.created + [Seat(me.invite, me.user)]
  {
    var me := d.joiners[j];
    DoThree(d, Insert(j), Charge(j), Commit(j));
    DoInsert(d, j);
    var d1 := d.(joiners := d.joiners[j := me.(pc := Inserted)], slots := d.slots[me.user := j]);
    DoCharge(d1, j);
    DoCommit(Goto(d1, j, Charged), j);
    assert d1.slots - {me.user} == d.slots;
  }

  lemma NothingLeftToDo(d: Desk, j: nat)
    requires j in d.joiners && Finished(d.joiners[j].pc)
    ensures DoAll(d, [Insert(j), Charge(j), Commit(j)]) == d
  {
    DoThree(d, Insert(j), Charge(j), Commit(j));
    DoNothing(d, Insert(j));
    DoNothing(d, Charge(j));
    DoNothing(d, Commit(j));
  }

  lemma GlanceIsRedeem(d: Desk, user: nat, id: nat, now: int)
    ensures var pc := Glance(d, Joiner(user, id, Ready, 0), now);
      var (s, outcome) := W.Redeem(W.Space(d.members, d.bans, map[], d.invites), user, id, now);
      && (pc == Refused <==> outcome.Failed?) && (pc == Already <==> outcome.Seated? && user in d.members)
      && (pc == Checked || pc == Already || pc == Refused)
      && (pc != Checked ==> s.members == d.members && s.invites == d.invites)
      && (pc == Checked ==> id in d.invites && user !in d.members)
      && (pc == Checked ==> s.members == d.members[user := d.invites[id].role])
      && (pc == Checked ==> s.invites == d.invites[id := d.invites[id].(uses := d.invites[id].uses + 1)])
  {
  }

  /** What the whole join leaves behind. */
  predicate JoinedAs(d: Desk, d': Desk, j: nat, user: nat, id: nat, now: int) {
    var (s, outcome) := W.Redeem(W.Space(d.members, d.bans, map[], d.invites), user, id, now);
    && d'.members == s.members && d'.invites == s.invites && d'.locks == d.locks && d'.slots == d.slots
    && j in d'.joiners
    && d'.joiners[j].pc == (if outcome.Failed? then Refused else if user in d.members then Already else Accepted)
  }

  lemma LoneGetsIn(d: Desk, j: nat, user: nat, id: nat, now: int)
    requires Sane(d) && j !in d.joiners && id !in d.locks && user !in d.slots && Sane(Inside(d, j, user, id, now))
    requires Glance(d, Joiner(user, id, Ready, 0), now) == Checked
    ensures JoinedAs(d, DoAll(Inside(d, j, user, id, now), [Insert(j), Charge(j), Commit(j)]), j, user, id, now)
  {
    GlanceIsRedeem(d, user, id, now);
    var inside := Inside(d, j, user, id, now);
    LoneExit(inside, j);
    assert inside.locks - {id} == d.locks;
  }

  lemma LoneIsTurnedAway(d: Desk, j: nat, user: nat, id: nat, now: int, pc: Pc)
    requires pc == Glance(d, Joiner(user, id, Ready, 0), now) && pc != Checked
    ensures var out := WithJoiner(d, j, Joiner(user, id, pc, 0));
      JoinedAs(d, DoAll(out, [Insert(j), Charge(j), Commit(j)]), j, user, id, now)
  {
    GlanceIsRedeem(d, user, id, now);
    NothingLeftToDo(WithJoiner(d, j, Joiner(user, id, pc, 0)), j);
  }

  lemma LoneJoin(d: Desk, j: nat, user: nat, id: nat, now: int)
    requires Sane(d) && j !in d.joiners && id !in d.locks && user !in d.slots
    ensures var entered := DoAll(d, [Arrive(j, user, id), Look(j, now), Lock(j, now)]);
      JoinedAs(d, DoAll(entered, [Insert(j), Charge(j), Commit(j)]), j, user, id, now)
  {
    LoneEntry(d, j, user, id, now);
    var pc := Glance(d, Joiner(user, id, Ready, 0), now);
    if pc == Checked {
      LoneGetsIn(d, j, user, id, now);
    } else {
      LoneIsTurnedAway(d, j, user, id, now, pc);
    }
  }

  /** The steps of one join from start to end. */
  function JoinSteps(j: nat, user: nat, id: nat, now: int): seq<Step> {
    [Arrive(j, user, id), Look(j, now), Lock(j, now)] + [Insert(j), Charge(j), Commit(j)]
  }

  /** A join that finds row and slot free is the atomic join, whatever others have open. */
  lemma {:induction false} LoneJoinIsRedeem(steps: seq<Step>, j: nat, user: nat, id: nat, now: int)
    requires j !in Play(steps).joiners && id !in Play(steps).locks && user !in Play(steps).slots
    ensures JoinedAs(Play(steps), Play(steps + JoinSteps(j, user, id, now)), j, user, id, now)
  {
    PlayKeeps(steps);
    var entry, exit := [Arrive(j, user, id), Look(j, now), Lock(j, now)], [Insert(j), Charge(j), Commit(j)];
    PlayDoesAll(steps, entry);
    PlayDoesAll(steps + entry, exit);
    assert steps + entry + exit == steps + JoinSteps(j, user, id, now);
    LoneJoin(Play(steps), j, user, id, now);
  }
}
