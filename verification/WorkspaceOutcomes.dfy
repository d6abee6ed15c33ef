/**
 What every workspace operation achieves, and when: for each one, exactly who
 may do it to whom, and what is different afterwards, down to the single member,
 seat, override or invite. Roles are compared by name here, without ranks,
 permission tables or the checks of the operations.
 */
module WorkspaceOutcomes {
  import opened Prelude
  import opened Text
  import opened Workspaces

  // ----- who may do what to whom -----

  const HEADS: set<Role> := {Admin, Owner}

  const MANAGERS: set<Role> := {Moderator, Admin, Owner}

  /** The roles above which this one stands. */
  function Juniors(role: Role): set<Role> {
    match role
    case Guest => {}
    case Member => {Guest}
    case Moderator => {Guest, Member}
    case Admin => {Guest, Member, Moderator}
    case Owner => {Guest, Member, Moderator, Admin, Owner}
  }

  predicate Acts(s: Space, actor: nat, roles: set<Role>) {
    actor in s.members && actor !in s.bans && s.members[actor] in roles
  }

  predicate LastOwner(s: Space, user: nat) {
    user in s.members && s.members[user] == Owner && forall u :: u in s.members && s.members[u] == Owner ==> u == user
  }

  lemma RolesStand()
    ensures forall a: Role, b: Role :: a != Owner ==> (b.Rank() < a.Rank() <==> b in Juniors(a))
    ensures forall b: Role :: b in Juniors(Owner)
    ensures forall role: Role :: RoleHas(role, SendMessages) <==> role in {Member, Moderator, Admin, Owner}
    ensures forall role: Role, p: Permission :: p in {ManageMessages, KickMembers, ManageMembers, ViewAuditLog} ==>
      (RoleHas(role, p) <==> role in MANAGERS)
    ensures forall role: Role, p: Permission :: p in {ManageWorkspace, ManageChannels, ManageRoles, BanMembers} ==>
      (RoleHas(role, p) <==> role in HEADS)
  {
    forall b: Role ensures b in Juniors(Owner) {
      match b
      case Guest =>
      case Member =>
      case Moderator =>
      case Admin =>
      case Owner =>
    }
  }

  lemma FewOwners(s: Space, user: nat)
    requires user in s.members && s.members[user] == Owner
    ensures |Owners(s.members)| < 2 <==> LastOwner(s, user)
  {
    if LastOwner(s, user) {
      assert Owners(s.members) == {user};
    } else {
      var u :| u in s.members && s.members[u] == Owner && u != user;
      SubsetIsSmaller({user, u}, Owners(s.members));
    }
    if |Owners(s.members)| >= 2 {
      AnotherOwner(s.members, user);
    }
  }

  // ----- what stays -----

  /** Same channels, names and overrides; only this user's seats may differ. */
  ghost predicate SeatsOnly(s: Space, s': Space, user: nat) {
    && s'.channels.Keys == s.channels.Keys
    && forall c :: c in s.channels ==>
         && s'.channels[c].name == s.channels[c].name
         && s'.channels[c].overrides == s.channels[c].overrides
         && s'.channels[c].seats - {user} == s.channels[c].seats - {user}
  }

  ghost predicate OthersStay(s: Space, s': Space, user: nat) {
    forall u :: u != user ==> RoleOf(s'.members, u) == RoleOf(s.members, u)
  }

  ghost predicate OutOf(before: Channel, after: Channel, user: nat) {
    && after.name == before.name
    && (forall u :: u in after.seats <==> u in before.seats && u != user)
    && (forall k :: k in after.overrides <==> k in before.overrides && k.target != MemberTarget(user))
    && (forall k :: k in after.overrides ==> after.overrides[k] == before.overrides[k])
  }

  /** The user is out: no member, in no channel, named by no override; and nothing else is gone. */
  ghost predicate Out(s: Space, s': Space, user: nat) {
    && user !in s'.members && OthersStay(s, s', user) && s'.invites == s.invites
    && s'.channels.Keys == s.channels.Keys
    && forall c :: c in s.channels ==> OutOf(s.channels[c], s'.channels[c], user)
  }

  /** The user is in, with this role and a seat in every channel; and nothing else moved. */
  ghost predicate In(s: Space, s': Space, user: nat, role: Role) {
    && user in s'.members && s'.members[user] == role && OthersStay(s, s', user) && s'.bans == s.bans
    && SeatsOnly(s, s', user) && forall c :: c in s.channels ==> user in s'.channels[c].seats
  }

  lemma ExpelIsOut(s: Space, user: nat)
    ensures Out(s, Expel(s, user), user) && Expel(s, user).bans == s.bans
  {
  }

  lemma AdmitIsIn(s: Space, user: nat, role: Role)
    ensures In(s, Admit(s, user, role), user, role) && Admit(s, user, role).invites == s.invites
  {
  }

  // ----- membership -----

  /** Kick: by a manager, on a member below, never the last owner. */
  lemma KickOutcome(s: Space, actor: nat, target: nat)
    requires Sound(s)
    ensures var (s', outcome) := Apply(s, RemoveMember(actor, target));
      && (outcome == Done <==> Acts(s, actor, MANAGERS) && target in s.members
                               && s.members[target] in Juniors(s.members[actor]) && !LastOwner(s, target))
      && (outcome == Done ==> Out(s, s', target) && s'.bans == s.bans)
      && (outcome != Done ==> s' == s)
  {
    RolesStand();
    ExpelIsOut(s, target);
    if target in s.members && s.members[target] == Owner {
      FewOwners(s, target);
    }
  }

  lemma LeaveOutcome(s: Space, user: nat)
    requires Sound(s)
    ensures var (s', outcome) := Apply(s, Leave(user));
      && (outcome == Done <==> user in s.members && !LastOwner(s, user))
      && (outcome == Done ==> Out(s, s', user) && s'.bans == s.bans)
      && (outcome != Done ==> s' == s)
  {
    ExpelIsOut(s, user);
    if user in s.members && s.members[user] == Owner {
      FewOwners(s, user);
    }
  }

  lemma BanOutcome(s: Space, actor: nat, target: nat, reason: string)
    requires Sound(s)
    ensures var (s', outcome) := Apply(s, BanMember(actor, target, reason));
      && (outcome == Done <==> Acts(s, actor, HEADS) && target in s.members && |Trim(reason)| <= 500
                               && s.members[target] in Juniors(s.members[actor]) && !LastOwner(s, target))
      && (outcome == Done ==> Out(s, s', target) && s'.bans == s.bans + {target})
      && (outcome != Done ==> s' == s)
  {
    RolesStand();
    ExpelIsOut(s.(bans := s.bans + {target}), target);
    if target in s.members && s.members[target] == Owner {
      FewOwners(s, target);
    }
  }

  /** Lifting a ban lets the user join again, and seats nobody. */
  lemma UnbanOutcome(s: Space, actor: nat, target: nat)
    ensures var (s', outcome) := Apply(s, Unban(actor, target));
      && (outcome == Done <==> Acts(s, actor, HEADS))
      && (outcome == Done ==> target !in s'.bans && (forall u :: u != target ==> (u in s'.bans <==> u in s.bans)))
      && s' == s.(bans := s'.bans) && (outcome != Done ==> s' == s)
  {
    RolesStand();
  }

  lemma AddOutcome(s: Space, actor: nat, target: nat, role: Role)
    requires Sound(s)
    ensures var (s', outcome) := Apply(s, AddMember(actor, target, role));
      && (outcome == Done <==> Acts(s, actor, MANAGERS) && role in Juniors(s.members[actor])
                               && target !in s.members && target !in s.bans)
      && (outcome == Done ==> In(s, s', target, role) && s'.invites == s.invites)
      && (outcome != Done ==> s' == s)
  {
    RolesStand();
    AdmitIsIn(s, target, role);
  }

  lemma RoleOutcome(s: Space, actor: nat, target: nat, role: Role)
    requires Sound(s)
    ensures var (s', outcome) := Apply(s, SetRole(actor, target, role));
      && (outcome == Done <==> Acts(s, actor, HEADS) && target in s.members
                               && {s.members[target], role} <= Juniors(s.members[actor])
                               && (LastOwner(s, target) ==> role == Owner))
      && (outcome == Done ==> target in s'.members && s'.members[target] == role && OthersStay(s, s', target))
      && s' == s.(members := s'.members) && (outcome != Done ==> s' == s)
  {
    RolesStand();
    if target in s.members && s.members[target] == Owner {
      FewOwners(s, target);
    }
  }

  // ----- channels -----

  predicate FreeName(s: Space, name: string, but: set<nat>) {
    forall c :: c in s.channels && c !in but ==> s.channels[c].name != name
  }

  ghost predicate OneChannel(s: Space, s': Space, id: nat) {
    && s' == s.(channels := s'.channels)
    && (forall c :: c != id ==> (c in s'.channels <==> c in s.channels))
    && (forall c :: c != id && c in s.channels ==> s'.channels[c] == s.channels[c])
  }

  lemma CreateOutcome(s: Space, actor: nat, id: nat, name: string)
    requires id !in s.channels
    ensures var (s', outcome) := Apply(s, CreateChannel(actor, id, name));
      && (outcome == Done <==> Acts(s, actor, HEADS) && 1 <= |Trim(name)| <= 100 && FreeName(s, Trim(name), {}))
      && (outcome == Done ==> OneChannel(s, s', id) && id in s'.channels)
      && (outcome == Done ==> s'.channels[id] == Channel(Trim(name), set u | u in s.members, map[]))
      && (outcome != Done ==> s' == s)
  {
    RolesStand();
    assert NameTaken(s.channels, Trim(name), None) <==> !FreeName(s, Trim(name), {});
  }

  lemma RenameOutcome(s: Space, actor: nat, id: nat, name: string)
    ensures var (s', outcome) := Apply(s, RenameChannel(actor, id, name));
      && (outcome == Done <==> id in s.channels && Acts(s, actor, HEADS) && 1 <= |Trim(name)| <= 100
                               && FreeName(s, Trim(name), {id}))
      && (outcome == Done ==> OneChannel(s, s', id) && id in s'.channels)
      && (outcome == Done ==> s'.channels[id] == s.channels[id].(name := Trim(name)))
      && (outcome != Done ==> s' == s)
  {
    RolesStand();
    assert NameTaken(s.channels, Trim(name), Some(id)) <==> !FreeName(s, Trim(name), {id});
  }

  lemma DeleteOutcome(s: Space, actor: nat, id: nat)
    ensures var (s', outcome) := Apply(s, DeleteChannel(actor, id));
      && (outcome == Done <==> id in s.channels && Acts(s, actor, HEADS))
      && (outcome == Done ==> OneChannel(s, s', id) && id !in s'.channels)
      && (outcome != Done ==> s' == s)
  {
    RolesStand();
  }

  /** Same channel but for one override. */
  ghost predicate OneOverride(before: Channel, after: Channel, key: Key) {
    && after.name == before.name && after.seats == before.seats
    && (forall k :: k != key ==> (k in after.overrides <==> k in before.overrides))
    && (forall k :: k != key && k in before.overrides ==> after.overrides[k] == before.overrides[k])
  }

  predicate MayTarget(s: Space, actor: Role, target: Target) {
    match target
    case RoleTarget(role) => role in Juniors(actor)
    case MemberTarget(user) => user in s.members && s.members[user] in Juniors(actor)
  }

  lemma OverrideOutcome(s: Space, actor: nat, id: nat, key: Key, allowed: bool)
    ensures var (s', outcome) := Apply(s, SetOverride(actor, id, key, allowed));
      && (outcome == Done <==> id in s.channels && Acts(s, actor, HEADS) && key.permission == SendMessages
                               && MayTarget(s, s.members[actor], key.target))
      && (outcome == Done ==> OneChannel(s, s', id) && id in s'.channels)
      && (outcome == Done ==> OneOverride(s.channels[id], s'.channels[id], key))
      && (outcome == Done ==> key in s'.channels[id].overrides && s'.channels[id].overrides[key] == allowed)
      && (outcome != Done ==> s' == s)
  {
    RolesStand();
  }

  lemma LiftOutcome(s: Space, actor: nat, id: nat, key: Key)
    ensures var (s', outcome) := Apply(s, DeleteOverride(actor, id, key));
      && (outcome == Done <==> id in s.channels && Acts(s, actor, HEADS))
      && (outcome == Done ==> OneChannel(s, s', id) && id in s'.channels)
      && (outcome == Done ==> OneOverride(s.channels[id], s'.channels[id], key) && key !in s'.channels[id].overrides)
      && (outcome != Done ==> s' == s)
  {
    RolesStand();
  }

  /** Where no override concerns a member, the role alone decides. */
  lemma UnoverriddenRight(s: Space, id: nat, user: nat, permission: Permission)
    requires id in s.channels && user in s.members && user !in s.bans
    requires forall k :: k in s.channels[id].overrides ==> !Concerns(k, s.members, user)
    ensures Allowed(s, id, user, permission) <==>
      match permission
      case SendMessages => s.members[user] in {Member, Moderator, Admin, Owner}
      case ManageMessages => s.members[user] in MANAGERS
      case KickMembers => s.members[user] in MANAGERS
      case ManageMembers => s.members[user] in MANAGERS
      case ViewAuditLog => s.members[user] in MANAGERS
      case _ => s.members[user] in HEADS
  {
  }

  /** Strangers and banned users have no rights anywhere. */
  lemma OutsidersHaveNoRight(s: Space, id: nat, user: nat, permission: Permission)
    requires user !in s.members || user in s.bans || id !in s.channels
    ensures !Allowed(s, id, user, permission)
  {
  }

  // ----- invites -----

  ghost predicate OneInvite(s: Space, s': Space, id: nat) {
    && s' == s.(invites := s'.invites)
    && (forall i :: i != id ==> (i in s'.invites <==> i in s.invites))
    && (forall i :: i != id && i in s.invites ==> s'.invites[i] == s.invites[i])
  }

  lemma InviteOutcome(s: Space, actor: nat, id: nat, role: Role, ttl: Option<int>, cap: Option<int>, now: int)
    requires id !in s.invites
    ensures var (s', outcome) := Apply(s, CreateInvite(actor, id, role, ttl, cap, now));
      && (outcome == Done <==> Acts(s, actor, MANAGERS) && role in Juniors(s.members[actor]) && role != Owner
                               && (cap.Some? ==> cap.value >= 1) && (ttl.Some? ==> 1 <= ttl.value <= 31_622_400))
      && (outcome == Done ==> OneInvite(s, s', id) && id in s'.invites)
      && (outcome == Done ==> s'.invites[id].role == role && s'.invites[id].cap == cap)
      && (outcome == Done ==> s'.invites[id].uses == 0 && !s'.invites[id].revoked)
      && (outcome == Done ==> s'.invites[id].deadline == if ttl.Some? then Some(now + ttl.value) else None)
      && (outcome != Done ==> s' == s)
  {
    RolesStand();
  }

  /** A revoked invite is marked so, and is of no use at any time. */
  lemma RevokeOutcome(s: Space, actor: nat, id: nat)
    ensures var (s', outcome) := Apply(s, RevokeInvite(actor, id));
      && (outcome == Done <==> id in s.invites && Acts(s, actor, MANAGERS))
      && (outcome == Done ==> OneInvite(s, s', id) && id in s'.invites)
      && (outcome == Done ==> s'.invites[id] == s.invites[id].(revoked := true))
      && (outcome == Done ==> forall t :: !Usable(s'.invites[id], t))
      && (outcome != Done ==> s' == s)
  {
    RolesStand();
  }

  predicate Redeemable(invite: Invite, now: int) {
    && invite.revoked == false
    && (invite.deadline == None || invite.deadline.value > now)
    && (invite.cap == None || invite.cap.value > invite.uses)
  }

  ghost predicate Joined(s: Space, s': Space, user: nat, id: nat)
    requires id in s.invites
  {
    && In(s, s', user, s.invites[id].role)
    && id in s'.invites && s'.invites[id] == s.invites[id].(uses := s.invites[id].uses + 1)
    && s'.invites.Keys == s.invites.Keys && forall i :: i in s.invites && i != id ==> s'.invites[i] == s.invites[i]
  }

  /** A join by invite: who gets in, as what, and what it costs. */
  lemma JoinOutcome(s: Space, user: nat, id: nat, now: int)
    requires Sound(s)
    ensures var (s', outcome) := Apply(s, Join(user, id, now));
      && (outcome == Failed(Banned) <==> id in s.invites && user in s.bans)
      && (outcome == Failed(InviteRejected) <==>
            id !in s.invites || (user !in s.bans && user !in s.members && !Redeemable(s.invites[id], now)))
      && (outcome.Seated? <==>
            id in s.invites && user !in s.bans && (user in s.members || Redeemable(s.invites[id], now)))
      && (outcome.Seated? ==> user in s'.members && s'.members[user] == outcome.role)
      && (outcome.Seated? && user !in s.members ==> Joined(s, s', user, id))
      && (!outcome.Seated? || user in s.members ==> s' == s)
  {
    if id in s.invites {
      AdmitIsIn(s, user, s.invites[id].role);
    }
  }

  // ----- what outsiders hear -----

  predicate OfChannel(op: Op) {
    op.RenameChannel? || op.DeleteChannel? || op.SetOverride? || op.DeleteOverride?
  }

  /** A stranger hears that he is no member, a banned user that he is banned, and neither changes anything. */
  lemma OutsidersAreTurnedAway(s: Space, op: Op)
    requires Sound(s) && op.actor !in s.members && !op.Join?
    requires op.SetOverride? ==> op.key.permission == SendMessages
    ensures var told := op.actor in s.bans && !op.Leave? && (OfChannel(op) ==> op.id in s.channels);
      Apply(s, op) == (s, Failed(if told then Banned else NotMember))
  {
  }
}
