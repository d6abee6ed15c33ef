/**
 One workspace: roles and ranks, members, bans, channels with their seats and
 permission overrides, and invites. Each operation is one atomic step that
 answers and leaves a new space behind. The laws are about every run: a joint
 invariant, ranks as a ceiling on privilege, bans that hold.
 */
module Workspaces {
  import opened Prelude
  import opened Text

  const MAX_REASON := 500
  const MAX_NAME := 100
  const MAX_TTL: int := 366 * 24 * 60 * 60

  datatype Role = Guest | Member | Moderator | Admin | Owner
  {
    function Rank(): nat {
      match this
      case Guest => 0
      case Member => 1
      case Moderator => 2
      case Admin => 3
      case Owner => 4
    }
  }

  datatype Permission =
    | ManageWorkspace | ManageChannels | ManageRoles | ManageMembers
    | KickMembers | BanMembers | SendMessages | ManageMessages | ViewAuditLog

  predicate RoleHas(role: Role, permission: Permission) {
    match role
    case Owner => true
    case Admin => true
    case Moderator =>
      permission.SendMessages? || permission.ManageMessages? || permission.KickMembers?
      || permission.ManageMembers? || permission.ViewAuditLog?
    case Member => permission.SendMessages?
    case Guest => false
  }

  datatype Target = RoleTarget(role: Role) | MemberTarget(user: nat)

  datatype Key = Key(target: Target, permission: Permission)

  datatype Channel = Channel(name: string, seats: set<nat>, overrides: map<Key, bool>)

  datatype Invite = Invite(role: Role, deadline: Option<int>, cap: Option<int>, uses: int, revoked: bool)

  datatype Space = Space(
    members: map<nat, Role>,
    bans: set<nat>,
    channels: map<nat, Channel>,
    invites: map<nat, Invite>)

  datatype Error = NotMember | Forbidden | Banned | InviteRejected | BadInput | Database

  datatype Outcome = Done | Seated(role: Role) | Failed(error: Error)

  datatype Op =
    | AddMember(actor: nat, target: nat, role: Role)
    | SetRole(actor: nat, target: nat, role: Role)
    | RemoveMember(actor: nat, target: nat)
    | Leave(actor: nat)
    | BanMember(actor: nat, target: nat, reason: string)
    | Unban(actor: nat, target: nat)
    | CreateChannel(actor: nat, id: nat, name: string)
    | RenameChannel(actor: nat, id: nat, name: string)
    | DeleteChannel(actor: nat, id: nat)
    | SetOverride(actor: nat, id: nat, key: Key, allowed: bool)
    | DeleteOverride(actor: nat, id: nat, key: Key)
    | CreateInvite(actor: nat, id: nat, role: Role, ttl: Option<int>, cap: Option<int>, now: int)
    | RevokeInvite(actor: nat, id: nat)
    | Join(actor: nat, id: nat, now: int)

  // ----- checks -----

  /** Ban first: a banned caller is no longer a member. */
  function Require(members: map<nat, Role>, bans: set<nat>, actor: nat, permission: Permission): Option<Error> {
    if actor in bans then Some(Banned)
    else if actor !in members then Some(NotMember)
    else if !RoleHas(members[actor], permission) then Some(Forbidden)
    else None
  }

  /** A non-owner must strictly outrank the target and whatever it grants. */
  predicate RankOk(actor: Role, target: Role, granted: Option<Role>) {
    actor == Owner || (target.Rank() < actor.Rank() && (granted.Some? ==> granted.value.Rank() < actor.Rank()))
  }

  function Owners(members: map<nat, Role>): set<nat> {
    set u | u in members && members[u] == Owner
  }

  predicate GoodName(name: string) {
    1 <= |name| <= MAX_NAME
  }

  predicate NameTaken(channels: map<nat, Channel>, name: string, but: Option<nat>) {
    exists c :: c in channels && Some(c) != but && channels[c].name == name
  }

  predicate Usable(invite: Invite, now: int) {
    && !invite.revoked
    && (invite.deadline.Some? ==> now < invite.deadline.value)
    && (invite.cap.Some? ==> invite.uses < invite.cap.value)
  }

  // ----- seats -----

  function SeatIn(channels: map<nat, Channel>, user: nat): map<nat, Channel> {
    map c | c in channels :: channels[c].(seats := channels[c].seats + {user})
  }

  function UnseatFrom(channels: map<nat, Channel>, user: nat): map<nat, Channel> {
    map c | c in channels :: channels[c].(seats := channels[c].seats - {user})
  }

  function Forget(overrides: map<Key, bool>, user: nat): map<Key, bool> {
    map k | k in overrides && k.target != MemberTarget(user) :: overrides[k]
  }

  function ForgetIn(channels: map<nat, Channel>, user: nat): map<nat, Channel> {
    map c | c in channels :: channels[c].(overrides := Forget(channels[c].overrides, user))
  }

  function Admit(s: Space, user: nat, role: Role): Space {
    s.(members := s.members[user := role], channels := SeatIn(s.channels, user))
  }

  function Expel(s: Space, user: nat): Space {
    s.(members := s.members - {user}, channels := ForgetIn(UnseatFrom(s.channels, user), user))
  }

  // ----- operations -----

  function Add(s: Space, actor: nat, target: nat, role: Role): (Space, Outcome) {
    var denied := Require(s.members, s.bans, actor, ManageMembers);
    if denied.Some? then (s, Failed(denied.value))
    else if !RankOk(s.members[actor], Guest, Some(role)) then (s, Failed(Forbidden))
    else if target in s.members then (s, Failed(BadInput))
    else if target in s.bans then (s, Failed(Banned))
    else (Admit(s, target, role), Done)
  }

  /** What kick, ban and role change share once permission, membership and rank are settled. */
  function Manage(s: Space, actor: nat, target: nat, permission: Permission, granted: Option<Role>): Option<Error> {
    var denied := Require(s.members, s.bans, actor, permission);
    if denied.Some? then denied
    else if target !in s.members then Some(NotMember)
    else if !RankOk(s.members[actor], s.members[target], granted) then Some(Forbidden)
    else if s.members[target] == Owner && granted != Some(Owner) && |Owners(s.members)| < 2 then Some(BadInput)
    else None
  }

  function ChangeRole(s: Space, actor: nat, target: nat, role: Role): (Space, Outcome) {
    var denied := Manage(s, actor, target, ManageRoles, Some(role));
    if denied.Some? then (s, Failed(denied.value)) else (s.(members := s.members[target := role]), Done)
  }

  function Remove(s: Space, actor: nat, target: nat): (Space, Outcome) {
    var denied := Manage(s, actor, target, KickMembers, None);
    if denied.Some? then (s, Failed(denied.value)) else (Expel(s, target), Done)
  }

  function Depart(s: Space, user: nat): (Space, Outcome) {
    if user !in s.members then (s, Failed(NotMember))
    else if user in s.bans then (s, Failed(Banned))
    else if s.members[user] == Owner && |Owners(s.members)| < 2 then (s, Failed(BadInput))
    else (Expel(s, user), Done)
  }

  function Ban(s: Space, actor: nat, target: nat, reason: string): (Space, Outcome) {
    var permitted := Require(s.members, s.bans, actor, BanMembers);
    if permitted.Some? then (s, Failed(permitted.value))
    else if |Trim(reason)| > MAX_REASON then (s, Failed(BadInput))
    else
      var denied := Manage(s, actor, target, BanMembers, None);
      if denied.Some? then (s, Failed(denied.value)) else (Expel(s.(bans := s.bans + {target}), target), Done)
  }

  function Pardon(s: Space, actor: nat, target: nat): (Space, Outcome) {
    var denied := Require(s.members, s.bans, actor, BanMembers);
    if denied.Some? then (s, Failed(denied.value)) else (s.(bans := s.bans - {target}), Done)
  }

  function Open(s: Space, actor: nat, id: nat, name: string): (Space, Outcome) {
    var denied := Require(s.members, s.bans, actor, ManageChannels);
    if denied.Some? then (s, Failed(denied.value))
    else if !GoodName(Trim(name)) then (s, Failed(BadInput))
    else if id in s.channels then (s, Failed(Database))
    else if NameTaken(s.channels, Trim(name), None) then (s, Failed(BadInput))
    else (s.(channels := s.channels[id := Channel(Trim(name), s.members.Keys, map[])]), Done)
  }

  /** Strangers and banned users learn nothing about which channels exist. */
  function Reach(s: Space, actor: nat, id: nat, permission: Permission): Option<Error> {
    if id !in s.channels then Some(NotMember) else Require(s.members, s.bans, actor, permission)
  }

  function Rename(s: Space, actor: nat, id: nat, name: string): (Space, Outcome) {
    var denied := Reach(s, actor, id, ManageChannels);
    if denied.Some? then (s, Failed(denied.value))
    else if !GoodName(Trim(name)) then (s, Failed(BadInput))
    else if NameTaken(s.channels, Trim(name), Some(id)) then (s, Failed(BadInput))
    else (s.(channels := s.channels[id := s.channels[id].(name := Trim(name))]), Done)
  }

  function Close(s: Space, actor: nat, id: nat): (Space, Outcome) {
    var denied := Reach(s, actor, id, ManageChannels);
    if denied.Some? then (s, Failed(denied.value)) else (s.(channels := s.channels - {id}), Done)
  }

  function WithOverrides(s: Space, id: nat, overrides: map<Key, bool>): Space
    requires id in s.channels
  {
    s.(channels := s.channels[id := s.channels[id].(overrides := overrides)])
  }

  function Override(s: Space, actor: nat, id: nat, key: Key, allowed: bool): (Space, Outcome) {
    if key.permission != SendMessages then (s, Failed(BadInput))
    else
      var denied := Reach(s, actor, id, ManageChannels);
      if denied.Some? then (s, Failed(denied.value))
      else if key.target.MemberTarget? && key.target.user !in s.members then (s, Failed(BadInput))
      else
        var role := if key.target.RoleTarget? then key.target.role else s.members[key.target.user];
        if !RankOk(s.members[actor], role, None) then (s, Failed(Forbidden))
        else (WithOverrides(s, id, s.channels[id].overrides[key := allowed]), Done)
  }

  function Lift(s: Space, actor: nat, id: nat, key: Key): (Space, Outcome) {
    var denied := Reach(s, actor, id, ManageChannels);
    if denied.Some? then (s, Failed(denied.value))
    else (WithOverrides(s, id, s.channels[id].overrides - {key}), Done)
  }

  function Issue(s: Space, actor: nat, id: nat, role: Role, ttl: Option<int>, cap: Option<int>, now: int)
    : (Space, Outcome)
  {
    var denied := Require(s.members, s.bans, actor, ManageMembers);
    if denied.Some? then (s, Failed(denied.value))
    else if !RankOk(s.members[actor], Guest, Some(role)) then (s, Failed(Forbidden))
    else if role == Owner then (s, Failed(BadInput))
    else if cap.Some? && cap.value <= 0 then (s, Failed(BadInput))
    else if ttl.Some? && !(0 < ttl.value <= MAX_TTL) then (s, Failed(BadInput))
    else if id in s.invites then (s, Failed(Database))
    else
      var deadline := if ttl.Some? then Some(now + ttl.value) else None;
      (s.(invites := s.invites[id := Invite(role, deadline, cap, 0, false)]), Done)
  }

  function Revoke(s: Space, actor: nat, id: nat): (Space, Outcome) {
    var denied := Require(s.members, s.bans, actor, ManageMembers);
    if denied.Some? then (s, Failed(denied.value))
    else if id !in s.invites then (s, Failed(NotMember))
    else (s.(invites := s.invites[id := s.invites[id].(revoked := true)]), Done)
  }

  function Redeem(s: Space, user: nat, id: nat, now: int): (Space, Outcome) {
    if id !in s.invites then (s, Failed(InviteRejected))
    else if user in s.bans then (s, Failed(Banned))
    else if user in s.members then (s, Seated(s.members[user]))
    else if !Usable(s.invites[id], now) then (s, Failed(InviteRejected))
    else
      var invite := s.invites[id];
      (Admit(s, user, invite.role).(invites := s.invites[id := invite.(uses := invite.uses + 1)]), Seated(invite.role))
  }

  function Apply(s: Space, op: Op): (Space, Outcome) {
    match op
    case AddMember(actor, target, role) => Add(s, actor, target, role)
    case SetRole(actor, target, role) => ChangeRole(s, actor, target, role)
    case RemoveMember(actor, target) => Remove(s, actor, target)
    case Leave(actor) => Depart(s, actor)
    case BanMember(actor, target, reason) => Ban(s, actor, target, reason)
    case Unban(actor, target) => Pardon(s, actor, target)
    case CreateChannel(actor, id, name) => Open(s, actor, id, name)
    case RenameChannel(actor, id, name) => Rename(s, actor, id, name)
    case DeleteChannel(actor, id) => Close(s, actor, id)
    case SetOverride(actor, id, key, allowed) => Override(s, actor, id, key, allowed)
    case DeleteOverride(actor, id, key) => Lift(s, actor, id, key)
    case CreateInvite(actor, id, role, ttl, cap, now) => Issue(s, actor, id, role, ttl, cap, now)
    case RevokeInvite(actor, id) => Revoke(s, actor, id)
    case Join(actor, id, now) => Redeem(s, actor, id, now)
  }

  function Founded(owner: nat): Space {
    Space(map[owner := Owner], {}, map[], map[])
  }

  function Play(s: Space, ops: seq<Op>): Space
    decreases |ops|
  {
    if ops == [] then s else Play(Apply(s, ops[0]).0, ops[1..])
  }

  lemma PlayThree(s: Space, a: Op, b: Op, c: Op)
    ensures Play(s, [a, b, c]) == Apply(Apply(Apply(s, a).0, b).0, c).0
  {
    var s1 := Apply(s, a).0;
    var s2 := Apply(s1, b).0;
    assert [a, b, c][1..] == [b, c] && [b, c][1..] == [c] && [c][1..] == [];
    assert Play(s1, [b, c]) == Play(s2, [c]);
    assert Play(s2, [c]) == Play(Apply(s2, c).0, []);
  }

  // ----- what a channel lets a user do -----

  function Hit(overrides: map<Key, bool>, key: Key, otherwise: bool): bool {
    if key in overrides then overrides[key] else otherwise
  }

  /** Base role grant, then the role's override, then the member's own: most specific wins. */
  function Allowed(s: Space, id: nat, user: nat, permission: Permission): bool {
    if id !in s.channels || user !in s.members || user in s.bans then false
    else
      var role, overrides := s.members[user], s.channels[id].overrides;
      Hit(overrides, Key(MemberTarget(user), permission),
        Hit(overrides, Key(RoleTarget(role), permission), RoleHas(role, permission)))
  }

  /** What a role alone may do in a channel, whoever holds it. */
  function RoleDefault(channel: Channel, role: Role, permission: Permission): bool {
    Hit(channel.overrides, Key(RoleTarget(role), permission), RoleHas(role, permission))
  }

  // ----- the joint invariant -----

  predicate HasOwner(members: map<nat, Role>) {
    exists u :: u in members && members[u] == Owner
  }

  predicate NoBannedMember(members: map<nat, Role>, bans: set<nat>) {
    forall u :: u in bans ==> u !in members
  }

  predicate ChannelSound(channel: Channel, members: set<nat>) {
    && channel.seats == members
    && GoodName(channel.name) && Trimmed(channel.name)
    && forall k :: k in channel.overrides ==>
      k.permission == SendMessages && (k.target.MemberTarget? ==> k.target.user in members)
  }

  predicate ChannelsSound(channels: map<nat, Channel>, members: set<nat>) {
    forall c :: c in channels ==> ChannelSound(channels[c], members)
  }

  predicate NamesDistinct(channels: map<nat, Channel>) {
    forall c, d :: c in channels && d in channels && c != d ==> channels[c].name != channels[d].name
  }

  predicate InviteSound(invite: Invite) {
    invite.role != Owner && 0 <= invite.uses && (invite.cap.Some? ==> invite.uses <= invite.cap.value)
  }

  predicate InvitesSound(invites: map<nat, Invite>) {
    forall i :: i in invites ==> InviteSound(invites[i])
  }

  predicate Sound(s: Space) {
    && HasOwner(s.members)
    && NoBannedMember(s.members, s.bans)
    && ChannelsSound(s.channels, s.members.Keys)
    && NamesDistinct(s.channels)
    && InvitesSound(s.invites)
  }

  lemma {:induction false} SubsetIsSmaller(a: set<nat>, b: set<nat>)
    requires a <= b
    ensures |a| <= |b|
  {
    if a != {} {
      var x :| x in a;
      SubsetIsSmaller(a - {x}, b - {x});
    }
  }

  lemma AnotherOwner(members: map<nat, Role>, user: nat)
    requires |Owners(members)| >= 2
    ensures exists u :: u in members && u != user && members[u] == Owner
  {
    var others := Owners(members) - {user};
    if others == {} {
      assert Owners(members) <= {user};
      SubsetIsSmaller(Owners(members), {user});
      assert false;
    }
    var u :| u in others;
  }

  lemma AdmitKeepsSound(s: Space, user: nat, role: Role)
    requires Sound(s) && user !in s.bans && user !in s.members
    ensures Sound(Admit(s, user, role))
  {
    var s' := Admit(s, user, role);
    assert s'.members.Keys == s.members.Keys + {user};
    var u :| u in s.members && s.members[u] == Owner;
    assert u in s'.members && s'.members[u] == Owner;
    forall c | c in s'.channels ensures ChannelSound(s'.channels[c], s'.members.Keys) {
      assert ChannelSound(s.channels[c], s.members.Keys);
    }
  }

  lemma ExpelKeepsSound(s: Space, user: nat)
    requires HasOwner(s.members - {user}) && InvitesSound(s.invites) && NamesDistinct(s.channels)
    requires ChannelsSound(s.channels, s.members.Keys) && NoBannedMember(s.members - {user}, s.bans)
    ensures Sound(Expel(s, user))
  {
  }

  lemma OwnerRemains(members: map<nat, Role>, user: nat, role: Role)
    requires HasOwner(members) && user in members && (members[user] == Owner ==> |Owners(members)| >= 2)
    ensures HasOwner(members - {user})
    ensures HasOwner(members[user := role])
  {
    if members[user] == Owner {
      AnotherOwner(members, user);
    }
    var u :| u in members && u != user && members[u] == Owner;
    assert u in members - {user} && (members - {user})[u] == Owner;
    assert members[user := role][u] == Owner;
  }

  lemma MembershipKeepsSound(s: Space, op: Op)
    requires Sound(s) && (op.AddMember? || op.SetRole? || op.RemoveMember? || op.Leave? || op.BanMember? || op.Join?)
    ensures Sound(Apply(s, op).0)
  {
    var s' := Apply(s, op).0;
    if s' != s {
      match op
      case AddMember(_, target, role) => AdmitKeepsSound(s, target, role);
      case SetRole(_, target, role) =>
        if role == Owner {
          assert s'.members[target] == Owner;
        } else {
          OwnerRemains(s.members, target, role);
        }
        assert s'.members.Keys == s.members.Keys;
      case RemoveMember(_, target) =>
        OwnerRemains(s.members, target, Guest);
        ExpelKeepsSound(s, target);
      case Leave(user) =>
        OwnerRemains(s.members, user, Guest);
        ExpelKeepsSound(s, user);
      case BanMember(_, target, _) =>
        OwnerRemains(s.members, target, Guest);
        ExpelKeepsSound(s.(bans := s.bans + {target}), target);
      case Join(user, id, _) => AdmitKeepsSound(s, user, s.invites[id].role);
    }
  }

  /** Storing a sound channel under a name no other channel has. */
  lemma StoreChannel(channels: map<nat, Channel>, members: set<nat>, id: nat, channel: Channel)
    requires ChannelsSound(channels, members) && NamesDistinct(channels)
    requires ChannelSound(channel, members) && !NameTaken(channels, channel.name, Some(id))
    ensures ChannelsSound(channels[id := channel], members) && NamesDistinct(channels[id := channel])
  {
  }

  lemma ChannelsKeepSound(s: Space, op: Op)
    requires Sound(s)
    requires op.CreateChannel? || op.RenameChannel? || op.DeleteChannel? || op.SetOverride? || op.DeleteOverride?
    ensures Sound(Apply(s, op).0)
  {
    var s' := Apply(s, op).0;
    if s' != s && !op.DeleteChannel? {
      if !op.SetOverride? && !op.DeleteOverride? {
        var front, back := TrimFacts(op.name);
      }
      assert op.id in s.channels ==> ChannelSound(s.channels[op.id], s.members.Keys);
      StoreChannel(s.channels, s.members.Keys, op.id, s'.channels[op.id]);
    }
  }

  lemma ApplyKeepsSound(s: Space, op: Op)
    requires Sound(s)
    ensures Sound(Apply(s, op).0)
  {
    if op.AddMember? || op.SetRole? || op.RemoveMember? || op.Leave? || op.BanMember? || op.Join? {
      MembershipKeepsSound(s, op);
    } else if !op.Unban? && !op.CreateInvite? && !op.RevokeInvite? {
      ChannelsKeepSound(s, op);
    }
  }

  /** Whatever anyone does, the joint invariant stays. */
  lemma {:induction false} RunKeepsSound(s: Space, ops: seq<Op>)
    requires Sound(s)
    ensures Sound(Play(s, ops))
    decreases |ops|
  {
    if ops != [] {
      ApplyKeepsSound(s, ops[0]);
      RunKeepsSound(Apply(s, ops[0]).0, ops[1..]);
    }
  }

  lemma EveryWorkspaceIsSound(owner: nat, ops: seq<Op>)
    ensures Sound(Play(Founded(owner), ops))
  {
    assert Founded(owner).members[owner] == Owner;
    RunKeepsSound(Founded(owner), ops);
  }

  // ----- joining starts from role defaults -----

  lemma JoiningKeepsOverrides(s: Space, op: Op, user: nat, id: nat)
    requires user !in s.members && user in Apply(s, op).0.members && id in Apply(s, op).0.channels
    ensures id in s.channels && Apply(s, op).0.channels[id].overrides == s.channels[id].overrides
    ensures user !in Apply(s, op).0.bans
  {
  }

  /** Whoever just got a seat, by an add or an invite and however often before, has only what the role gives. */
  lemma JoinerGetsRoleDefaults(s: Space, op: Op, user: nat, id: nat, permission: Permission)
    requires Sound(s) && user !in s.members && user in Apply(s, op).0.members && id in Apply(s, op).0.channels
    ensures var s' := Apply(s, op).0;
      Allowed(s', id, user, permission) == RoleDefault(s'.channels[id], s'.members[user], permission)
  {
    JoiningKeepsOverrides(s, op, user, id);
    assert ChannelSound(s.channels[id], s.members.Keys);
    assert Key(MemberTarget(user), permission) !in s.channels[id].overrides;
  }

  /** Only the permission to send can be overridden; all others follow the role. */
  lemma OnlySendingIsOverridden(s: Space, id: nat, user: nat, permission: Permission)
    requires Sound(s) && id in s.channels && permission != SendMessages
    ensures Allowed(s, id, user, permission) <==> user in s.members && RoleHas(s.members[user], permission)
  {
  }

  // ----- bans hold -----

  predicate Lifts(op: Op, user: nat) {
    op.Unban? && op.target == user
  }

  lemma BanOutlivesStep(s: Space, op: Op, user: nat)
    requires user in s.bans && !Lifts(op, user)
    ensures user in Apply(s, op).0.bans
  {
  }

  lemma {:induction false} BannedStaysOut(s: Space, ops: seq<Op>, user: nat)
    requires Sound(s) && user in s.bans && forall op :: op in ops ==> !Lifts(op, user)
    ensures user in Play(s, ops).bans && user !in Play(s, ops).members
    ensures forall c :: c in Play(s, ops).channels ==> user !in Play(s, ops).channels[c].seats
    decreases |ops|
  {
    if ops != [] {
      ApplyKeepsSound(s, ops[0]);
      BanOutlivesStep(s, ops[0], user);
      BannedStaysOut(Apply(s, ops[0]).0, ops[1..], user);
    } else {
      forall c | c in s.channels ensures user !in s.channels[c].seats {
        assert ChannelSound(s.channels[c], s.members.Keys);
      }
    }
  }

  // ----- ranks as a ceiling -----

  function RoleOf(members: map<nat, Role>, user: nat): Option<Role> {
    if user in members then Some(members[user]) else None
  }

  predicate Below(role: Option<Role>, rank: nat) {
    role.Some? ==> role.value.Rank() < rank
  }

  predicate LeftAlone(op: Op, user: nat, after: Option<Role>) {
    op.Leave? && op.actor == user && after == None
  }

  predicate JoinedWith(s: Space, op: Op, user: nat, after: Option<Role>) {
    && op.Join? && op.actor == user && user !in s.members
    && op.id in s.invites && Usable(s.invites[op.id], op.now) && after == Some(s.invites[op.id].role)
  }

  predicate OverruledBy(s: Space, actor: nat, before: Option<Role>, after: Option<Role>) {
    actor in s.members && Below(before, s.members[actor].Rank()) && Below(after, s.members[actor].Rank())
  }

  /**
   When a non-owner acts, a user's role changes in three ways only: the user
   leaves, joins on a usable invite, or is moved by someone whose rank is above
   both the old and the new role.
   */
  lemma RoleChangesAreRanked(s: Space, op: Op, user: nat)
    requires op.actor in s.members ==> s.members[op.actor] != Owner
    ensures var before, after := RoleOf(s.members, user), RoleOf(Apply(s, op).0.members, user);
      before == after || LeftAlone(op, user, after) || JoinedWith(s, op, user, after)
        || OverruledBy(s, op.actor, before, after)
  {
  }

  lemma OwnersSurviveStep(s: Space, op: Op)
    requires Sound(s) && op.actor !in Owners(s.members)
    ensures Owners(Apply(s, op).0.members) == Owners(s.members)
  {
    forall u ensures u in Owners(Apply(s, op).0.members) <==> u in Owners(s.members) {
      RoleChangesAreRanked(s, op, u);
      if op.Join? && op.id in s.invites {
        assert InviteSound(s.invites[op.id]);
      }
    }
  }

  /** As long as no owner acts, the set of owners does not change. */
  lemma {:induction false} OnlyOwnersMakeOwners(s: Space, ops: seq<Op>)
    requires Sound(s) && forall op :: op in ops ==> op.actor !in Owners(s.members)
    ensures Owners(Play(s, ops).members) == Owners(s.members)
    decreases |ops|
  {
    if ops != [] {
      ApplyKeepsSound(s, ops[0]);
      OwnersSurviveStep(s, ops[0]);
      OnlyOwnersMakeOwners(Apply(s, ops[0]).0, ops[1..]);
    }
  }

  function Time(op: Op, before: int): int {
    if op.Join? || op.CreateInvite? then op.now else before
  }

  /** The clock does not run backwards. */
  predicate InTime(ops: seq<Op>, from: int)
    decreases |ops|
  {
    ops == [] || (from <= Time(ops[0], from) && InTime(ops[1..], Time(ops[0], from)))
  }

  predicate ActorsAtMost(members: map<nat, Role>, acting: set<nat>, rank: nat) {
    forall u :: u in acting && u in members ==> members[u].Rank() <= rank
  }

  /** No invite that could still be redeemed grants this rank or more. */
  predicate InvitesBelow(invites: map<nat, Invite>, rank: nat, now: int) {
    forall i :: i in invites && Usable(invites[i], now) ==> invites[i].role.Rank() < rank
  }

  predicate AtLeast(members: map<nat, Role>, user: nat, rank: nat) {
    user in members && members[user].Rank() >= rank
  }

  lemma InvitesStayBelow(s: Space, op: Op, rank: nat, now: int)
    requires InvitesBelow(s.invites, rank, now) && now <= Time(op, now) && rank <= Admin.Rank()
    requires op.actor in s.members ==> s.members[op.actor].Rank() <= rank
    ensures InvitesBelow(Apply(s, op).0.invites, rank, Time(op, now))
  {
    var invites := Apply(s, op).0.invites;
    forall i | i in invites && Usable(invites[i], Time(op, now)) ensures invites[i].role.Rank() < rank {
      if i in s.invites {
        assert Usable(s.invites[i], now) && s.invites[i].role == invites[i].role;
      }
    }
  }

  lemma CeilingStep(s: Space, op: Op, acting: set<nat>, rank: nat, now: int)
    requires rank <= Admin.Rank() && op.actor in acting && now <= Time(op, now)
    requires ActorsAtMost(s.members, acting, rank) && InvitesBelow(s.invites, rank, now)
    ensures var s' := Apply(s, op).0;
      && ActorsAtMost(s'.members, acting, rank) && InvitesBelow(s'.invites, rank, Time(op, now))
      && (forall u :: AtLeast(s'.members, u, rank) ==> AtLeast(s.members, u, rank))
      && (forall u :: AtLeast(s.members, u, rank) && u !in acting ==> RoleOf(s'.members, u) == RoleOf(s.members, u))
  {
    var s' := Apply(s, op).0;
    forall u ensures RoleOf(s'.members, u) == RoleOf(s.members, u) || LeftAlone(op, u, RoleOf(s'.members, u))
                     || (Below(RoleOf(s.members, u), rank) && Below(RoleOf(s'.members, u), rank)) {
      RoleChangesAreRanked(s, op, u);
    }
    InvitesStayBelow(s, op, rank, now);
  }

  /**
   Users at rank at most k (k no higher than admin), with no open invite above
   their station, never lift anyone to k or beyond, and never touch the role of
   anyone at k or above who is not acting himself.
   */
  lemma {:induction false} PrivilegeCeiling(s: Space, ops: seq<Op>, acting: set<nat>, rank: nat, now: int)
    requires rank <= Admin.Rank() && InTime(ops, now) && forall op :: op in ops ==> op.actor in acting
    requires ActorsAtMost(s.members, acting, rank) && InvitesBelow(s.invites, rank, now)
    ensures forall u :: AtLeast(Play(s, ops).members, u, rank) ==> AtLeast(s.members, u, rank)
    ensures forall u :: AtLeast(s.members, u, rank) && u !in acting ==>
      RoleOf(Play(s, ops).members, u) == RoleOf(s.members, u)
    decreases |ops|
  {
    if ops != [] {
      CeilingStep(s, ops[0], acting, rank, now);
      PrivilegeCeiling(Apply(s, ops[0]).0, ops[1..], acting, rank, Time(ops[0], now));
    }
  }

  /** `user` would be a newcomer: neither in nor banned. */
  predicate Stranger(s: Space, user: nat) {
    user !in s.members && user !in s.bans
  }

  /** An open invite that grants this rank lets any newcomer reach it. */
  lemma OpenInviteBreaches(s: Space, id: nat, user: nat, rank: nat, now: int)
    requires id in s.invites && Usable(s.invites[id], now) && s.invites[id].role.Rank() >= rank && Stranger(s, user)
    ensures AtLeast(Play(s, [Join(user, id, now)]).members, user, rank)
  {
  }

  predicate OnlyActs(ops: seq<Op>, acting: set<nat>) {
    forall op :: op in ops ==> op.actor in acting
  }

  ghost predicate NobodyRises(before: map<nat, Role>, after: map<nat, Role>, rank: nat) {
    forall u :: AtLeast(after, u, rank) ==> AtLeast(before, u, rank)
  }

  /** Whatever `acting` do from `now` on, nobody new reaches `rank`. */
  ghost predicate CeilingHolds(s: Space, acting: set<nat>, rank: nat, now: int) {
    forall ops: seq<Op> :: InTime(ops, now) && OnlyActs(ops, acting) ==>
      NobodyRises(s.members, Play(s, ops).members, rank)
  }

  /**
   The bound on invites is exact: when the actors, a newcomer among them, stand
   at or below `rank`, the ceiling holds if and only if no invite open now
   grants it.
   */
  lemma CeilingIffNoOpenInvite(s: Space, acting: set<nat>, rank: nat, now: int, newcomer: nat)
    requires rank <= Admin.Rank() && ActorsAtMost(s.members, acting, rank) && newcomer in acting
    requires Stranger(s, newcomer)
    ensures CeilingHolds(s, acting, rank, now) <==> InvitesBelow(s.invites, rank, now)
  {
    if InvitesBelow(s.invites, rank, now) {
      forall ops: seq<Op> | InTime(ops, now) && OnlyActs(ops, acting)
        ensures NobodyRises(s.members, Play(s, ops).members, rank)
      {
        PrivilegeCeiling(s, ops, acting, rank, now);
      }
    } else {
      var id :| id in s.invites && Usable(s.invites[id], now) && s.invites[id].role.Rank() >= rank;
      var ops := [Join(newcomer, id, now)];
      OpenInviteBreaches(s, id, newcomer, rank, now);
      assert ops[1..] == [] && InTime(ops, now) && OnlyActs(ops, acting);
      assert AtLeast(Play(s, ops).members, newcomer, rank) && !AtLeast(s.members, newcomer, rank);
    }
  }

  /** The admin who issued an invite is demoted, and the invite still seats a moderator. */
  lemma OldInvitesLeak()
    ensures var ops := [AddMember(1, 2, Admin), CreateInvite(2, 7, Moderator, None, None, 0), SetRole(1, 2, Guest)];
      var s := Play(Founded(1), ops);
      && ActorsAtMost(s.members, {2, 3}, Moderator.Rank()) && Stranger(s, 3)
      && !CeilingHolds(s, {2, 3}, Moderator.Rank(), 0)
  {
    var first, second := AddMember(1, 2, Admin), CreateInvite(2, 7, Moderator, None, None, 0);
    var s1 := Apply(Founded(1), first).0;
    var s2 := Apply(s1, second).0;
    var s3 := Apply(s2, SetRole(1, 2, Guest)).0;
    assert s1 == Space(map[1 := Owner, 2 := Admin], {}, map[], map[]);
    var invites := map[7 := Invite(Moderator, None, None, 0, false)];
    assert s2 == Space(s1.members, {}, map[], invites);
    assert Manage(s2, 1, 2, ManageRoles, Some(Guest)) == None;
    assert s3 == Space(s1.members[2 := Guest], {}, map[], invites);
    PlayThree(Founded(1), first, second, SetRole(1, 2, Guest));
    CeilingIffNoOpenInvite(s3, {2, 3}, Moderator.Rank(), 0, 3);
    assert Usable(s3.invites[7], 0);
  }

  // ----- who may change what a member may do in a channel -----

  predicate Outranks(members: map<nat, Role>, actor: nat, role: Role) {
    actor in members && role.Rank() < members[actor].Rank()
  }

  predicate Concerns(key: Key, members: map<nat, Role>, user: nat) {
    user in members && (key.target == MemberTarget(user) || key.target == RoleTarget(members[user]))
  }

  function TargetRole(members: map<nat, Role>, key: Key): Role
    requires key.target.MemberTarget? ==> key.target.user in members
  {
    if key.target.RoleTarget? then key.target.role else members[key.target.user]
  }

  predicate Removes(s: Space, op: Op, id: nat, key: Key) {
    && op.DeleteOverride? && op.id == id && op.key == key
    && op.actor in s.members && RoleHas(s.members[op.actor], ManageChannels)
  }

  /** An override stands unless it is set by someone above its target, or removed. */
  lemma OverridesStay(s: Space, op: Op, id: nat, key: Key)
    requires id in s.channels && id in Apply(s, op).0.channels
    requires op.actor in s.members ==> s.members[op.actor] != Owner
    requires key.target.MemberTarget? ==> key.target.user in s.members && key.target.user in Apply(s, op).0.members
    ensures var before, after := s.channels[id].overrides, Apply(s, op).0.channels[id].overrides;
      || ((key in before <==> key in after) && (key in before ==> before[key] == after[key]))
      || (op.SetOverride? && op.id == id && op.key == key && Outranks(s.members, op.actor, TargetRole(s.members, key)))
      || (Removes(s, op, id, key) && key in before && key !in after)
  {
  }

  predicate Differs(s: Space, op: Op, id: nat, user: nat, permission: Permission) {
    Allowed(Apply(s, op).0, id, user, permission) != Allowed(s, id, user, permission)
  }

  /** A right of the user changes although nobody ranked above his role acts. */
  predicate BreaksRank(s: Space, op: Op, id: nat, user: nat, permission: Permission) {
    user in s.members && Differs(s, op, id, user, permission) && !Outranks(s.members, op.actor, s.members[user])
  }

  /** Does this override decide the permission for the user, against what holds without it? */
  predicate Decides(channel: Channel, key: Key, user: nat, role: Role) {
    var own, shared := Key(MemberTarget(user), SendMessages), Key(RoleTarget(role), SendMessages);
    var overrides := channel.overrides;
    && key in overrides
    && ((key == own && overrides[own] != RoleDefault(channel, role, SendMessages))
        || (key == shared && own !in overrides && overrides[shared] != RoleHas(role, SendMessages)))
  }

  /** A channel manager removes a deciding override of someone ranked as high or higher. */
  predicate LiftsAgainstRank(s: Space, op: Op, id: nat, user: nat) {
    && op.DeleteOverride? && Removes(s, op, id, op.key) && id in s.channels && user in s.members
    && s.members[user].Rank() >= s.members[op.actor].Rank()
    && Decides(s.channels[id], op.key, user, s.members[user])
  }

  /** When a non-owner acts, a right moves only by an override set from above or by a removal that decides. */
  lemma RightsMoveByOverrides(s: Space, op: Op, id: nat, user: nat, permission: Permission)
    requires Sound(s) && (op.actor in s.members ==> s.members[op.actor] != Owner)
    requires user in s.members && RoleOf(Apply(s, op).0.members, user) == RoleOf(s.members, user)
    requires id in s.channels && id in Apply(s, op).0.channels && Differs(s, op, id, user, permission)
    ensures permission == SendMessages
    ensures || (op.SetOverride? && Outranks(s.members, op.actor, s.members[user]))
            || (op.DeleteOverride? && Removes(s, op, id, op.key) && Concerns(op.key, s.members, user))
  {
    ApplyKeepsSound(s, op);
    var other := if permission == SendMessages then ManageMessages else permission;
    OnlySendingIsOverridden(s, id, user, other);
    OnlySendingIsOverridden(Apply(s, op).0, id, user, other);
    OverridesStay(s, op, id, Key(MemberTarget(user), permission));
    OverridesStay(s, op, id, Key(RoleTarget(s.members[user]), permission));
  }

  /** Removing an override changes what a member may do exactly when that override decided it. */
  lemma RemovalMovesIffDeciding(s: Space, op: Op, id: nat, user: nat)
    requires Sound(s) && op.DeleteOverride? && Removes(s, op, id, op.key) && id in s.channels && user in s.members
    ensures Differs(s, op, id, user, SendMessages) <==> Decides(s.channels[id], op.key, user, s.members[user])
  {
    assert op.actor !in s.bans && user !in s.bans;
    var own, shared := Key(MemberTarget(user), SendMessages), Key(RoleTarget(s.members[user]), SendMessages);
    assert Apply(s, op).0.channels[id].overrides == s.channels[id].overrides - {op.key};
    assert own != shared;
  }

  /**
   The rank rule for rights, and exactly where the code breaks it. When a
   non-owner acts and a member keeps his role, a right of his changes without an
   actor ranked above him if and only if the actor manages channels and removes
   an override that decided it.
   */
  lemma RightsChangesAreRanked(s: Space, op: Op, id: nat, user: nat, permission: Permission)
    requires Sound(s) && (op.actor in s.members ==> s.members[op.actor] != Owner)
    requires user in s.members && RoleOf(Apply(s, op).0.members, user) == RoleOf(s.members, user)
    requires id in s.channels && id in Apply(s, op).0.channels
    ensures BreaksRank(s, op, id, user, permission) <==> permission == SendMessages && LiftsAgainstRank(s, op, id, user)
  {
    if Differs(s, op, id, user, permission) {
      RightsMoveByOverrides(s, op, id, user, permission);
    }
    if op.DeleteOverride? && Removes(s, op, id, op.key) {
      RemovalMovesIffDeciding(s, op, id, user);
    }
  }

  const SILENCE := Key(MemberTarget(2), SendMessages)

  const HALL := Space(map[1 := Owner, 2 := Admin], {}, map[5 := Channel("hall", {1, 2}, map[SILENCE := false])], map[])

  const TO_THE_HALL: seq<Op> := [AddMember(1, 2, Admin), CreateChannel(1, 5, "hall"), SetOverride(1, 5, SILENCE, false)]

  lemma HallIsReached()
    ensures Play(Founded(1), TO_THE_HALL) == HALL
  {
    var add, open, mute := AddMember(1, 2, Admin), CreateChannel(1, 5, "hall"), SetOverride(1, 5, SILENCE, false);
    var s1 := Apply(Founded(1), add).0;
    var s2 := Apply(s1, open).0;
    assert s1 == Space(map[1 := Owner, 2 := Admin], {}, map[], map[]);
    assert "hall"[0] == 'h' && "hall"[3] == 'l' && Trim("hall") == "hall" && |"hall"| == 4;
    assert s2 == Space(s1.members, {}, map[5 := Channel("hall", s1.members.Keys, map[])], map[]);
    assert Apply(s2, mute).0.channels == map[5 := Channel("hall", s1.members.Keys, map[SILENCE := false])];
    PlayThree(Founded(1), add, open, mute);
    assert s1.members.Keys == {1, 2};
  }

  /** An owner silences an admin; the admin may not override that, but removes it and speaks. */
  lemma LiftingIsUnranked()
    ensures var s := Play(Founded(1), TO_THE_HALL);
      && LiftsAgainstRank(s, DeleteOverride(2, 5, SILENCE), 5, 2)
      && !Allowed(s, 5, 2, SendMessages)
      && Apply(s, SetOverride(2, 5, SILENCE, true)) == (s, Failed(Forbidden))
      && Allowed(Apply(s, DeleteOverride(2, 5, SILENCE)).0, 5, 2, SendMessages)
  {
    HallIsReached();
  }

  /** A successful override decides: for the member it names, and for a role unless a member override is closer. */
  lemma OverrideDecides(s: Space, op: Op, user: nat)
    requires Sound(s) && op.SetOverride? && Apply(s, op).1 == Done && Concerns(op.key, s.members, user)
    requires op.key.target.RoleTarget? ==> Key(MemberTarget(user), SendMessages) !in s.channels[op.id].overrides
    ensures Allowed(Apply(s, op).0, op.id, user, SendMessages) == op.allowed
  {
  }

  // ----- invites end -----

  /** A new invite is redeemable exactly until its deadline. */
  lemma IssuedUntilDeadline(s: Space, op: Op, t: int)
    requires op.CreateInvite? && Apply(s, op).1 == Done
    ensures op.id in Apply(s, op).0.invites
    ensures Usable(Apply(s, op).0.invites[op.id], t) <==> (op.ttl.Some? ==> t < op.now + op.ttl.value)
  {
  }

  function Until(ops: seq<Op>, from: int): int
    decreases |ops|
  {
    if ops == [] then from else Until(ops[1..], Time(ops[0], from))
  }

  lemma DeadStep(s: Space, op: Op, id: nat, from: int)
    requires id in s.invites && !Usable(s.invites[id], from) && from <= Time(op, from)
    ensures var s' := Apply(s, op).0;
      id in s'.invites && !Usable(s'.invites[id], Time(op, from)) && s'.invites[id].uses == s.invites[id].uses
  {
  }

  /** Once revoked, expired or used up, an invite never seats anyone again. */
  lemma {:induction false} DeadInviteStaysDead(s: Space, ops: seq<Op>, id: nat, from: int)
    requires id in s.invites && !Usable(s.invites[id], from) && InTime(ops, from)
    ensures var s' := Play(s, ops);
      id in s'.invites && !Usable(s'.invites[id], Until(ops, from)) && s'.invites[id].uses == s.invites[id].uses
    decreases |ops|
  {
    if ops != [] {
      DeadStep(s, ops[0], id, from);
      DeadInviteStaysDead(Apply(s, ops[0]).0, ops[1..], id, Time(ops[0], from));
    }
  }
}
