/**
 The tables behind all workspaces, and the transactions over them: member and
 ban rows keyed by workspace and user, channel rows that point at a backing
 conversation, participant rows of every conversation (direct messages
 included), override rows keyed by channel, invite rows. `SpaceOf` gathers one
 workspace from its rows. Each transaction moves its own workspace as
 `Workspaces.Apply` says, and leaves every other workspace and every
 conversation that backs no channel as it was.
 */
module WorkspaceDb {
  import opened Prelude
  import opened Text
  import opened Workspaces

  datatype Place = Place(workspace: nat, user: nat)

  datatype ChannelRow = ChannelRow(workspace: nat, conversation: nat, name: string)

  datatype Participant = Participant(conversation: nat, user: nat)

  datatype OverrideKey = OverrideKey(channel: nat, key: Key)

  datatype InviteRow = InviteRow(workspace: nat, invite: Invite)

  datatype Tables = Tables(
    members: map<Place, Role>,
    bans: set<Place>,
    channels: map<nat, ChannelRow>,
    participants: set<Participant>,
    overrides: map<OverrideKey, bool>,
    invites: map<nat, InviteRow>)

  // ----- one workspace, gathered from the rows -----

  function MembersOf(members: map<Place, Role>, ws: nat): map<nat, Role> {
    map p | p in members && p.workspace == ws :: p.user := members[p]
  }

  function BansOf(bans: set<Place>, ws: nat): set<nat> {
    set p | p in bans && p.workspace == ws :: p.user
  }

  function SeatsOf(participants: set<Participant>, conversation: nat): set<nat> {
    set p | p in participants && p.conversation == conversation :: p.user
  }

  function OverridesOf(overrides: map<OverrideKey, bool>, channel: nat): map<Key, bool> {
    map o | o in overrides && o.channel == channel :: o.key := overrides[o]
  }

  function ChannelAt(channels: map<nat, ChannelRow>, participants: set<Participant>, overrides: map<OverrideKey, bool>,
                     c: nat): Channel
    requires c in channels
  {
    Channel(channels[c].name, SeatsOf(participants, channels[c].conversation), OverridesOf(overrides, c))
  }

  function ChannelsOf(channels: map<nat, ChannelRow>, participants: set<Participant>, overrides: map<OverrideKey, bool>,
                      ws: nat): map<nat, Channel>
  {
    map c | c in channels && channels[c].workspace == ws :: ChannelAt(channels, participants, overrides, c)
  }

  function InvitesOf(invites: map<nat, InviteRow>, ws: nat): map<nat, Invite> {
    map i | i in invites && invites[i].workspace == ws :: invites[i].invite
  }

  function SpaceOf(t: Tables, ws: nat): Space {
    Space(MembersOf(t.members, ws), BansOf(t.bans, ws),
          ChannelsOf(t.channels, t.participants, t.overrides, ws), InvitesOf(t.invites, ws))
  }

  /** Every channel has a conversation of its own. */
  predicate OwnConversations(channels: map<nat, ChannelRow>) {
    forall c, d :: c in channels && d in channels && channels[c].conversation == channels[d].conversation ==> c == d
  }

  predicate Backs(channels: map<nat, ChannelRow>, conversation: nat) {
    exists c :: c in channels && channels[c].conversation == conversation
  }

  /** Rows of conversations that back no channel: direct messages and groups. */
  function Others(channels: map<nat, ChannelRow>, participants: set<Participant>): set<Participant> {
    set p | p in participants && !Backs(channels, p.conversation)
  }

  /** One workspace became `s`; the others, and every conversation that backs no channel, stayed. */
  ghost predicate Moves(before: Tables, after: Tables, ws: nat, s: Space) {
    && SpaceOf(after, ws) == s
    && (forall other :: other != ws ==> SpaceOf(after, other) == SpaceOf(before, other))
    && Others(after.channels, after.participants) == Others(before.channels, before.participants)
    && OwnConversations(after.channels)
  }

  /** The transaction answered and did what `op` does to its workspace, and nothing to anyone else. */
  ghost predicate Did(before: Tables, after: Tables, ws: nat, op: Op, outcome: Outcome) {
    outcome == Apply(SpaceOf(before, ws), op).1 && Moves(before, after, ws, Apply(SpaceOf(before, ws), op).0)
  }

  /** A transaction on one workspace keeps the joint invariant of every workspace in the tables. */
  lemma AllStaySound(before: Tables, after: Tables, ws: nat, op: Op, outcome: Outcome, other: nat)
    requires Did(before, after, ws, op, outcome) && Sound(SpaceOf(before, other))
    ensures Sound(SpaceOf(after, other))
  {
    ApplyKeepsSound(SpaceOf(before, other), op);
  }

  // ----- what single statements do to the gathered workspaces -----

  lemma Looked(members: map<Place, Role>, ws: nat, user: nat)
    ensures user in MembersOf(members, ws) <==> Place(ws, user) in members
    ensures Place(ws, user) in members ==> MembersOf(members, ws)[user] == members[Place(ws, user)]
  {
  }

  lemma PutMember(members: map<Place, Role>, p: Place, role: Role, ws: nat)
    ensures var before := MembersOf(members, ws);
      MembersOf(members[p := role], ws) == if ws == p.workspace then before[p.user := role] else before
  {
  }

  lemma DropMember(members: map<Place, Role>, p: Place, ws: nat)
    ensures var before := MembersOf(members, ws);
      MembersOf(members - {p}, ws) == if ws == p.workspace then before - {p.user} else before
  {
  }

  lemma BanRow(bans: set<Place>, ws: nat, user: nat)
    ensures user in BansOf(bans, ws) <==> Place(ws, user) in bans
  {
  }

  lemma SeatRow(participants: set<Participant>, conversation: nat, user: nat)
    ensures user in SeatsOf(participants, conversation) <==> Participant(conversation, user) in participants
  {
  }

  lemma OverrideRow(overrides: map<OverrideKey, bool>, channel: nat, key: Key)
    ensures key in OverridesOf(overrides, channel) <==> OverrideKey(channel, key) in overrides
    ensures OverrideKey(channel, key) in overrides ==>
      OverridesOf(overrides, channel)[key] == overrides[OverrideKey(channel, key)]
  {
  }

  lemma {:induction false} SameSize(rows: set<Place>, users: set<nat>, ws: nat)
    requires forall p :: p in rows ==> p.workspace == ws && p.user in users
    requires forall u :: u in users ==> Place(ws, u) in rows
    ensures |rows| == |users|
  {
    if rows == {} {
      assert users == {};
    } else {
      var p :| p in rows;
      SameSize(rows - {p}, users - {p.user}, ws);
    }
  }

  /** Counting the owner rows of a workspace counts its owners. */
  lemma OwnerRows(members: map<Place, Role>, ws: nat)
    ensures |set p | p in members && p.workspace == ws && members[p] == Owner| == |Owners(MembersOf(members, ws))|
  {
    var rows := set p | p in members && p.workspace == ws && members[p] == Owner;
    forall u: nat ensures u in Owners(MembersOf(members, ws)) <==> Place(ws, u) in rows {
      Looked(members, ws, u);
    }
    SameSize(rows, Owners(MembersOf(members, ws)), ws);
  }

  /** Participant rows after enrolling a user in every channel of a workspace. */
  function Enrolled(channels: map<nat, ChannelRow>, participants: set<Participant>, ws: nat, user: nat)
    : set<Participant>
  {
    participants + set c | c in channels && channels[c].workspace == ws :: Participant(channels[c].conversation, user)
  }

  /** And after removing the user's rows from the conversations of all its channels. */
  function Withdrawn(channels: map<nat, ChannelRow>, participants: set<Participant>, ws: nat, user: nat)
    : set<Participant>
  {
    var conversations := set c | c in channels && channels[c].workspace == ws :: channels[c].conversation;
    set p | p in participants && !(p.user == user && p.conversation in conversations)
  }

  /** Override rows after dropping those that name the user in channels of a workspace. */
  function Stripped(channels: map<nat, ChannelRow>, overrides: map<OverrideKey, bool>, ws: nat, user: nat)
    : map<OverrideKey, bool>
  {
    var ids := set c | c in channels && channels[c].workspace == ws;
    map o | o in overrides && !(o.key.target == MemberTarget(user) && o.channel in ids) :: overrides[o]
  }

  lemma EnrolledSeats(channels: map<nat, ChannelRow>, participants: set<Participant>, ws: nat, user: nat, c: nat)
    requires OwnConversations(channels) && c in channels
    ensures SeatsOf(Enrolled(channels, participants, ws, user), channels[c].conversation)
         == SeatsOf(participants, channels[c].conversation) + if channels[c].workspace == ws then {user} else {}
  {
    var after, k := Enrolled(channels, participants, ws, user), channels[c].conversation;
    forall u: nat
      ensures u in SeatsOf(after, k) <==> (u in SeatsOf(participants, k) || (channels[c].workspace == ws && u == user))
    {
      SeatRow(participants, k, u);
      SeatRow(after, k, u);
    }
  }

  lemma WithdrawnSeats(channels: map<nat, ChannelRow>, participants: set<Participant>, ws: nat, user: nat, c: nat)
    requires OwnConversations(channels) && c in channels
    ensures SeatsOf(Withdrawn(channels, participants, ws, user), channels[c].conversation)
         == SeatsOf(participants, channels[c].conversation) - if channels[c].workspace == ws then {user} else {}
  {
  }

  lemma StrippedOverrides(channels: map<nat, ChannelRow>, overrides: map<OverrideKey, bool>, ws: nat, user: nat, c: nat)
    requires c in channels
    ensures var before := OverridesOf(overrides, c);
      OverridesOf(Stripped(channels, overrides, ws, user), c) == if channels[c].workspace == ws
        then Forget(before, user) else before
  {
  }

  lemma EnrollGathers(t: Tables, ws: nat, user: nat, other: nat)
    requires OwnConversations(t.channels)
    ensures var before := ChannelsOf(t.channels, t.participants, t.overrides, other);
      ChannelsOf(t.channels, Enrolled(t.channels, t.participants, ws, user), t.overrides, other)
      == if other == ws then SeatIn(before, user) else before
  {
    var participants := Enrolled(t.channels, t.participants, ws, user);
    forall c | c in t.channels && t.channels[c].workspace == other
      ensures var seats, k := SeatsOf(t.participants, t.channels[c].conversation), t.channels[c].conversation;
        SeatsOf(participants, k) == if other == ws then seats + {user} else seats
    {
      EnrolledSeats(t.channels, t.participants, ws, user, c);
    }
  }

  lemma WithdrawGathers(t: Tables, ws: nat, user: nat, other: nat)
    requires OwnConversations(t.channels)
    ensures var before := ChannelsOf(t.channels, t.participants, t.overrides, other);
      ChannelsOf(t.channels, Withdrawn(t.channels, t.participants, ws, user), t.overrides, other)
      == if other == ws then UnseatFrom(before, user) else before
  {
    var participants := Withdrawn(t.channels, t.participants, ws, user);
    forall c | c in t.channels && t.channels[c].workspace == other
      ensures var seats, k := SeatsOf(t.participants, t.channels[c].conversation), t.channels[c].conversation;
        SeatsOf(participants, k) == if other == ws then seats - {user} else seats
    {
      WithdrawnSeats(t.channels, t.participants, ws, user, c);
    }
  }

  lemma StripGathers(t: Tables, ws: nat, user: nat, other: nat)
    ensures var before := ChannelsOf(t.channels, t.participants, t.overrides, other);
      ChannelsOf(t.channels, t.participants, Stripped(t.channels, t.overrides, ws, user), other)
      == if other == ws then ForgetIn(before, user) else before
  {
    var overrides := Stripped(t.channels, t.overrides, ws, user);
    forall c | c in t.channels && t.channels[c].workspace == other
      ensures var before := OverridesOf(t.overrides, c);
        OverridesOf(overrides, c) == if other == ws then Forget(before, user) else before
    {
      StrippedOverrides(t.channels, t.overrides, ws, user, c);
    }
  }

  /** Neither touches a conversation that backs no channel. */
  lemma OthersStay(channels: map<nat, ChannelRow>, participants: set<Participant>, ws: nat, user: nat)
    ensures Others(channels, Enrolled(channels, participants, ws, user)) == Others(channels, participants)
    ensures Others(channels, Withdrawn(channels, participants, ws, user)) == Others(channels, participants)
  {
  }

  // ----- admitting and expelling, over all tables -----

  function Admitted(t: Tables, ws: nat, user: nat, role: Role): Tables {
    t.(members := t.members[Place(ws, user) := role], participants := Enrolled(t.channels, t.participants, ws, user))
  }

  function Expelled(t: Tables, ws: nat, user: nat): Tables {
    t.(members := t.members - {Place(ws, user)},
       participants := Withdrawn(t.channels, t.participants, ws, user),
       overrides := Stripped(t.channels, t.overrides, ws, user))
  }

  lemma AdmittedSpace(t: Tables, ws: nat, user: nat, role: Role, other: nat)
    requires OwnConversations(t.channels)
    ensures SpaceOf(Admitted(t, ws, user, role), other) == if other == ws then Admit(SpaceOf(t, ws), user, role)
      else SpaceOf(t, other)
  {
    PutMember(t.members, Place(ws, user), role, other);
    EnrollGathers(t, ws, user, other);
  }

  lemma ExpelledSpace(t: Tables, ws: nat, user: nat, other: nat)
    requires OwnConversations(t.channels)
    ensures SpaceOf(Expelled(t, ws, user), other) == if other == ws then Expel(SpaceOf(t, ws), user)
      else SpaceOf(t, other)
  {
    DropMember(t.members, Place(ws, user), other);
    WithdrawGathers(t, ws, user, other);
    StripGathers(t.(participants := Withdrawn(t.channels, t.participants, ws, user)), ws, user, other);
  }

  lemma AdmitMoves(t: Tables, ws: nat, user: nat, role: Role)
    requires OwnConversations(t.channels)
    ensures Moves(t, Admitted(t, ws, user, role), ws, Admit(SpaceOf(t, ws), user, role))
  {
    forall other | other != ws ensures SpaceOf(Admitted(t, ws, user, role), other) == SpaceOf(t, other) {
      AdmittedSpace(t, ws, user, role, other);
    }
    AdmittedSpace(t, ws, user, role, ws);
    OthersStay(t.channels, t.participants, ws, user);
  }

  lemma ExpelMoves(t: Tables, ws: nat, user: nat)
    requires OwnConversations(t.channels)
    ensures Moves(t, Expelled(t, ws, user), ws, Expel(SpaceOf(t, ws), user))
  {
    forall other | other != ws ensures SpaceOf(Expelled(t, ws, user), other) == SpaceOf(t, other) {
      ExpelledSpace(t, ws, user, other);
    }
    ExpelledSpace(t, ws, user, ws);
    OthersStay(t.channels, t.participants, ws, user);
  }

  function WithBans(t: Tables, bans: set<Place>): Tables {
    t.(bans := bans)
  }

  lemma BanMoves(t: Tables, ws: nat, user: nat)
    requires OwnConversations(t.channels)
    ensures var s := SpaceOf(t, ws); Moves(t, WithBans(t, t.bans + {Place(ws, user)}), ws, s.(bans := s.bans + {user}))
    ensures var s := SpaceOf(t, ws); Moves(t, WithBans(t, t.bans - {Place(ws, user)}), ws, s.(bans := s.bans - {user}))
  {
  }

  lemma MovesThen(t: Tables, t1: Tables, t2: Tables, ws: nat, s1: Space, s2: Space)
    requires Moves(t, t1, ws, s1) && Moves(t1, t2, ws, s2)
    ensures Moves(t, t2, ws, s2)
  {
  }

  /** A ban row, and then out like after a kick. */
  lemma BanExpelMoves(t: Tables, ws: nat, user: nat)
    requires OwnConversations(t.channels)
    ensures var t1, s := WithBans(t, t.bans + {Place(ws, user)}), SpaceOf(t, ws);
      Moves(t, Expelled(t1, ws, user), ws, Expel(s.(bans := s.bans + {user}), user))
  {
    var t1 := WithBans(t, t.bans + {Place(ws, user)});
    BanMoves(t, ws, user);
    ExpelMoves(t1, ws, user);
    MovesThen(t, t1, Expelled(t1, ws, user), ws, SpaceOf(t1, ws), Expel(SpaceOf(t1, ws), user));
  }

  lemma PromoteMoves(t: Tables, ws: nat, user: nat, role: Role)
    requires OwnConversations(t.channels)
    ensures var s := SpaceOf(t, ws);
      Moves(t, t.(members := t.members[Place(ws, user) := role]), ws, s.(members := s.members[user := role]))
  {
    forall other
      ensures var before := MembersOf(t.members, other);
        MembersOf(t.members[Place(ws, user) := role], other) == if other == ws then before[user := role] else before
    {
      PutMember(t.members, Place(ws, user), role, other);
    }
  }

  // ----- channel, override and invite rows -----

  /** Ids the server has just generated: no row mentions them. */
  predicate Unused(t: Tables, id: nat, conversation: nat) {
    && id !in t.channels && !Backs(t.channels, conversation)
    && (forall p :: p in t.participants ==> p.conversation != conversation)
    && (forall o :: o in t.overrides ==> o.channel != id)
  }

  /** A channel row, and a participant row for every member row of its workspace. */
  function Opened(t: Tables, id: nat, row: ChannelRow): Tables {
    t.(channels := t.channels[id := row],
       participants := t.participants + set p | p in t.members && p.workspace == row.workspace ::
         Participant(row.conversation, p.user))
  }

  /** The conversation row goes; its participants, its channel and the channel's overrides go with it. */
  function Closed(t: Tables, id: nat): Tables
    requires id in t.channels
  {
    var conversation := t.channels[id].conversation;
    t.(channels := t.channels - {id},
       participants := (set p | p in t.participants && p.conversation != conversation),
       overrides := map o | o in t.overrides && o.channel != id :: t.overrides[o])
  }

  lemma OpenedSeats(t: Tables, id: nat, row: ChannelRow, conversation: nat)
    requires Unused(t, id, row.conversation)
    ensures SeatsOf(Opened(t, id, row).participants, conversation)
         == if conversation == row.conversation then MembersOf(t.members, row.workspace).Keys
           else SeatsOf(t.participants, conversation)
  {
  }

  lemma OpenedChannel(t: Tables, id: nat, row: ChannelRow, c: nat)
    requires OwnConversations(t.channels) && Unused(t, id, row.conversation) && (c == id || c in t.channels)
    ensures var t' := Opened(t, id, row);
      ChannelAt(t'.channels, t'.participants, t'.overrides, c)
      == if c == id then Channel(row.name, MembersOf(t.members, row.workspace).Keys, map[])
         else ChannelAt(t.channels, t.participants, t.overrides, c)
  {
    OpenedSeats(t, id, row, if c == id then row.conversation else t.channels[c].conversation);
    if c == id {
      assert OverridesOf(t.overrides, id) == map[];
    }
  }

  function At(t: Tables, c: nat): Channel
    requires c in t.channels
  {
    ChannelAt(t.channels, t.participants, t.overrides, c)
  }

  ghost predicate SameChannel(t: Tables, t': Tables, c: nat) {
    && (c in t.channels <==> c in t'.channels)
    && (c in t.channels ==> t'.channels[c].workspace == t.channels[c].workspace)
    && (c in t.channels ==> At(t', c) == At(t, c))
  }

  /** The other channels stand where and as they stood. */
  ghost predicate OthersStand(t: Tables, t': Tables, id: nat) {
    forall c :: c != id ==> SameChannel(t, t', c)
  }

  function Gathers(t: Tables, ws: nat): map<nat, Channel> {
    ChannelsOf(t.channels, t.participants, t.overrides, ws)
  }

  lemma GatherTouched(t: Tables, t': Tables, id: nat, ws: nat)
    requires id in t'.channels && OthersStand(t, t', id)
    requires id in t.channels ==> t'.channels[id].workspace == t.channels[id].workspace
    ensures Gathers(t', ws) == if ws == t'.channels[id].workspace then Gathers(t, ws)[id := At(t', id)]
      else Gathers(t, ws)
  {
    var before, after := Gathers(t, ws), Gathers(t', ws);
    forall c | c != id ensures (c in after <==> c in before) && (c in after ==> after[c] == before[c]) {
      assert SameChannel(t, t', c);
    }
  }

  lemma GatherDropped(t: Tables, t': Tables, id: nat, ws: nat)
    requires id in t.channels && id !in t'.channels && OthersStand(t, t', id)
    ensures Gathers(t', ws) == if ws == t.channels[id].workspace then Gathers(t, ws) - {id} else Gathers(t, ws)
  {
    var before, after := Gathers(t, ws), Gathers(t', ws);
    forall c | c != id ensures (c in after <==> c in before) && (c in after ==> after[c] == before[c]) {
      assert SameChannel(t, t', c);
    }
  }

  lemma OpenedGathers(t: Tables, id: nat, row: ChannelRow, ws: nat)
    requires OwnConversations(t.channels) && Unused(t, id, row.conversation)
    ensures var t', before := Opened(t, id, row), Gathers(t, ws);
      Gathers(t', ws)
      == if ws == row.workspace then before[id := Channel(row.name, MembersOf(t.members, ws).Keys, map[])] else before
  {
    var t' := Opened(t, id, row);
    forall c | c != id ensures SameChannel(t, t', c) {
      if c in t.channels {
        OpenedChannel(t, id, row, c);
      }
    }
    OpenedChannel(t, id, row, id);
    GatherTouched(t, t', id, ws);
  }

  lemma OpenedBacks(channels: map<nat, ChannelRow>, id: nat, row: ChannelRow, conversation: nat)
    requires id !in channels
    ensures Backs(channels[id := row], conversation)
      == (conversation == row.conversation || Backs(channels, conversation))
  {
    if Backs(channels, conversation) {
      var c :| c in channels && channels[c].conversation == conversation;
      assert channels[id := row][c].conversation == conversation;
    }
    assert channels[id := row][id] == row;
  }

  lemma OpenedOthers(t: Tables, id: nat, row: ChannelRow)
    requires Unused(t, id, row.conversation)
    ensures Others(Opened(t, id, row).channels, Opened(t, id, row).participants) == Others(t.channels, t.participants)
  {
    forall p: Participant {
      OpenedBacks(t.channels, id, row, p.conversation);
    }
  }

  ghost predicate Elsewhere(t: Tables, t': Tables, ws: nat) {
    forall other :: other != ws ==> Gathers(t', other) == Gathers(t, other)
  }

  /** Only channels, participants and overrides changed. */
  predicate SameElse(t: Tables, t': Tables) {
    t'.members == t.members && t'.bans == t.bans && t'.invites == t.invites
  }

  lemma SpaceFrom(t: Tables, t': Tables, ws: nat)
    requires SameElse(t, t')
    ensures SpaceOf(t', ws) == SpaceOf(t, ws).(channels := Gathers(t', ws))
  {
  }

  lemma ChannelsMove(t: Tables, t': Tables, ws: nat)
    requires SameElse(t, t') && Elsewhere(t, t', ws) && OwnConversations(t'.channels)
    requires Others(t'.channels, t'.participants) == Others(t.channels, t.participants)
    ensures Moves(t, t', ws, SpaceOf(t, ws).(channels := Gathers(t', ws)))
  {
    forall other | other != ws ensures SpaceOf(t', other) == SpaceOf(t, other) {
      SpaceFrom(t, t', other);
    }
    SpaceFrom(t, t', ws);
  }

  lemma OpenMoves(t: Tables, id: nat, row: ChannelRow)
    requires OwnConversations(t.channels) && Unused(t, id, row.conversation)
    ensures var s := SpaceOf(t, row.workspace);
      Moves(t, Opened(t, id, row), row.workspace,
        s.(channels := s.channels[id := Channel(row.name, s.members.Keys, map[])]))
  {
    var t' := Opened(t, id, row);
    forall ws | ws != row.workspace ensures Gathers(t', ws) == Gathers(t, ws) {
      OpenedGathers(t, id, row, ws);
    }
    OpenedGathers(t, id, row, row.workspace);
    OpenedOthers(t, id, row);
    assert forall c :: c in t.channels ==> t.channels[c].conversation != row.conversation;
    ChannelsMove(t, t', row.workspace);
  }

  lemma TouchedElsewhere(t: Tables, t': Tables, id: nat)
    requires id in t.channels && id in t'.channels && OthersStand(t, t', id)
    requires t'.channels[id].workspace == t.channels[id].workspace
    ensures var ws := t.channels[id].workspace;
      Elsewhere(t, t', ws) && Gathers(t', ws) == Gathers(t, ws)[id := At(t', id)]
  {
    var home := t.channels[id].workspace;
    forall ws | ws != home ensures Gathers(t', ws) == Gathers(t, ws) {
      GatherTouched(t, t', id, ws);
    }
    GatherTouched(t, t', id, home);
  }

  lemma DroppedElsewhere(t: Tables, t': Tables, id: nat)
    requires id in t.channels && id !in t'.channels && OthersStand(t, t', id)
    ensures var ws := t.channels[id].workspace; Elsewhere(t, t', ws) && Gathers(t', ws) == Gathers(t, ws) - {id}
  {
    var home := t.channels[id].workspace;
    forall ws | ws != home ensures Gathers(t', ws) == Gathers(t, ws) {
      GatherDropped(t, t', id, ws);
    }
    GatherDropped(t, t', id, home);
  }

  /** A change inside one channel's rows, as its workspace sees it. */
  lemma TouchMoves(t: Tables, t': Tables, id: nat)
    requires id in t.channels && id in t'.channels && t'.channels[id].workspace == t.channels[id].workspace
    requires SameElse(t, t') && OthersStand(t, t', id) && OwnConversations(t'.channels)
    requires Others(t'.channels, t'.participants) == Others(t.channels, t.participants)
    ensures var ws := t.channels[id].workspace;
      Moves(t, t', ws, SpaceOf(t, ws).(channels := SpaceOf(t, ws).channels[id := At(t', id)]))
  {
    TouchedElsewhere(t, t', id);
    ChannelsMove(t, t', t.channels[id].workspace);
  }

  function Renamed(t: Tables, id: nat, name: string): Tables
    requires id in t.channels
  {
    t.(channels := t.channels[id := t.channels[id].(name := name)])
  }

  lemma RenamedOthers(t: Tables, id: nat, name: string)
    requires id in t.channels
    ensures Others(Renamed(t, id, name).channels, t.participants) == Others(t.channels, t.participants)
  {
    forall k: nat ensures Backs(Renamed(t, id, name).channels, k) <==> Backs(t.channels, k) {
      var after := Renamed(t, id, name).channels;
      if Backs(t.channels, k) {
        var c :| c in t.channels && t.channels[c].conversation == k;
        assert after[c].conversation == k;
      }
      if Backs(after, k) {
        var c :| c in after && after[c].conversation == k;
        assert t.channels[c].conversation == k;
      }
    }
  }

  lemma RenamedStands(t: Tables, id: nat, name: string)
    requires id in t.channels
    ensures OthersStand(t, Renamed(t, id, name), id)
    ensures OwnConversations(Renamed(t, id, name).channels) == OwnConversations(t.channels)
    ensures At(Renamed(t, id, name), id) == At(t, id).(name := name)
  {
    var t' := Renamed(t, id, name);
    assert forall c :: c in t.channels <==> c in t'.channels;
    assert forall c :: c in t.channels ==> t.channels[c].conversation == t'.channels[c].conversation;
  }

  lemma RenameMoves(t: Tables, id: nat, name: string)
    requires OwnConversations(t.channels) && id in t.channels
    ensures var ws := t.channels[id].workspace; var s := SpaceOf(t, ws);
      Moves(t, Renamed(t, id, name), ws, s.(channels := s.channels[id := s.channels[id].(name := name)]))
  {
    RenamedStands(t, id, name);
    RenamedOthers(t, id, name);
    TouchMoves(t, Renamed(t, id, name), id);
  }

  function Overridden(t: Tables, id: nat, key: Key, allowed: bool): Tables {
    t.(overrides := t.overrides[OverrideKey(id, key) := allowed])
  }

  function Lifted(t: Tables, id: nat, key: Key): Tables {
    t.(overrides := t.overrides - {OverrideKey(id, key)})
  }

  lemma OverriddenRows(t: Tables, id: nat, key: Key, allowed: bool, c: nat)
    ensures var before := OverridesOf(t.overrides, c);
      OverridesOf(Overridden(t, id, key, allowed).overrides, c) == if c == id then before[key := allowed] else before
  {
  }

  lemma LiftedRows(t: Tables, id: nat, key: Key, c: nat)
    ensures var before := OverridesOf(t.overrides, c);
      OverridesOf(Lifted(t, id, key).overrides, c) == if c == id then before - {key} else before
  {
  }

  lemma OverrideMoves(t: Tables, id: nat, key: Key, allowed: bool)
    requires OwnConversations(t.channels) && id in t.channels
    ensures var ws := t.channels[id].workspace; var s := SpaceOf(t, ws);
      var channel := s.channels[id].(overrides := s.channels[id].overrides[key := allowed]);
      Moves(t, Overridden(t, id, key, allowed), ws, s.(channels := s.channels[id := channel]))
  {
    var t' := Overridden(t, id, key, allowed);
    forall c | c != id ensures SameChannel(t, t', c) {
      OverriddenRows(t, id, key, allowed, c);
    }
    OverriddenRows(t, id, key, allowed, id);
    TouchMoves(t, t', id);
  }

  lemma LiftMoves(t: Tables, id: nat, key: Key)
    requires OwnConversations(t.channels) && id in t.channels
    ensures var ws := t.channels[id].workspace; var s := SpaceOf(t, ws);
      var channel := s.channels[id].(overrides := s.channels[id].overrides - {key});
      Moves(t, Lifted(t, id, key), ws, s.(channels := s.channels[id := channel]))
  {
    var t' := Lifted(t, id, key);
    forall c | c != id ensures SameChannel(t, t', c) {
      LiftedRows(t, id, key, c);
    }
    LiftedRows(t, id, key, id);
    TouchMoves(t, t', id);
  }

  lemma ClosedOthers(t: Tables, id: nat)
    requires OwnConversations(t.channels) && id in t.channels
    ensures Others(Closed(t, id).channels, Closed(t, id).participants) == Others(t.channels, t.participants)
  {
    var t' := Closed(t, id);
    forall p | p in t.participants
      ensures p in t'.participants && !Backs(t'.channels, p.conversation) <==> !Backs(t.channels, p.conversation)
    {
      if Backs(t.channels, p.conversation) {
        var c :| c in t.channels && t.channels[c].conversation == p.conversation;
        assert c != id ==> t'.channels[c].conversation == p.conversation;
      } else {
        assert t.channels[id].conversation != p.conversation;
      }
    }
  }

  lemma ClosedStands(t: Tables, id: nat)
    requires OwnConversations(t.channels) && id in t.channels
    ensures OthersStand(t, Closed(t, id), id)
  {
  }

  lemma CloseMoves(t: Tables, id: nat)
    requires OwnConversations(t.channels) && id in t.channels
    ensures var ws := t.channels[id].workspace;
      Moves(t, Closed(t, id), ws, SpaceOf(t, ws).(channels := SpaceOf(t, ws).channels - {id}))
  {
    ClosedStands(t, id);
    ClosedOthers(t, id);
    DroppedElsewhere(t, Closed(t, id), id);
    ChannelsMove(t, Closed(t, id), t.channels[id].workspace);
  }

  lemma PutInvite(invites: map<nat, InviteRow>, id: nat, row: InviteRow, ws: nat)
    requires id in invites ==> invites[id].workspace == row.workspace
    ensures var before := InvitesOf(invites, ws);
      InvitesOf(invites[id := row], ws) == if ws == row.workspace then before[id := row.invite] else before
  {
  }

  lemma InviteMoves(t: Tables, id: nat, row: InviteRow)
    requires OwnConversations(t.channels) && (id in t.invites ==> t.invites[id].workspace == row.workspace)
    ensures var s := SpaceOf(t, row.workspace);
      Moves(t, t.(invites := t.invites[id := row]), row.workspace, s.(invites := s.invites[id := row.invite]))
  {
    forall ws
      ensures var before := InvitesOf(t.invites, ws);
        InvitesOf(t.invites[id := row], ws) == if ws == row.workspace then before[id := row.invite] else before
    {
      PutInvite(t.invites, id, row, ws);
    }
  }

  /** One use charged, and a seat everywhere. */
  function Joined(t: Tables, ws: nat, user: nat, id: nat, used: Invite): Tables {
    Admitted(t.(invites := t.invites[id := InviteRow(ws, used)]), ws, user, used.role)
  }

  lemma JoinMoves(t: Tables, ws: nat, user: nat, id: nat, used: Invite)
    requires OwnConversations(t.channels) && id in t.invites && t.invites[id].workspace == ws
    ensures var s := SpaceOf(t, ws);
      Moves(t, Joined(t, ws, user, id, used), ws, Admit(s, user, used.role).(invites := s.invites[id := used]))
  {
    var row := InviteRow(ws, used);
    var t1 := t.(invites := t.invites[id := row]);
    InviteMoves(t, id, row);
    AdmitMoves(t1, ws, user, used.role);
    MovesThen(t, t1, Joined(t, ws, user, id, used), ws, SpaceOf(t1, ws), Admit(SpaceOf(t1, ws), user, used.role));
  }

  // ----- the tables and the transactions -----

  class Database {
    var members: map<Place, Role>
    var bans: set<Place>
    var channels: map<nat, ChannelRow>
    var participants: set<Participant>
    var overrides: map<OverrideKey, bool>
    var invites: map<nat, InviteRow>

    function View(): Tables
      reads this
    {
      Tables(members, bans, channels, participants, overrides, invites)
    }

    /** Channels of one workspace as the rows stand. */
    ghost function Gathered(ws: nat): map<nat, Channel>
      reads this
    {
      ChannelsOf(channels, participants, overrides, ws)
    }

    constructor ()
      ensures View() == Tables(map[], {}, map[], {}, map[], map[])
    {
      members, bans, channels, participants, overrides, invites := map[], {}, map[], {}, map[], map[];
    }

    /** A new workspace, under an id no row mentions yet. */
    method CreateWorkspace(owner: nat, ws: nat)
      requires OwnConversations(channels) && SpaceOf(View(), ws) == Space(map[], {}, map[], map[])
      modifies this`members
      ensures Moves(old(View()), View(), ws, Founded(owner))
    {
      PromoteMoves(View(), ws, owner, Owner);
      members := members[Place(ws, owner) := Owner];
    }

    // ----- single statements -----

    method OwnerCount(ws: nat) returns (n: nat)
      ensures n == |Owners(MembersOf(members, ws))|
    {
      OwnerRows(members, ws);
      n := |set p | p in members && p.workspace == ws && members[p] == Owner|;
    }

    predicate RowOf(row: (nat, Role), ws: nat)
      reads this
    {
      Place(ws, row.0) in members && members[Place(ws, row.0)] == row.1
    }

    /** Actor's and target's rows in id order, told apart afterwards. */
    method LockedRoles(ws: nat, actor: nat, target: nat) returns (actorRole: Option<Role>, targetRole: Option<Role>)
      ensures actorRole == RoleOf(MembersOf(members, ws), actor) && targetRole == RoleOf(MembersOf(members, ws), target)
    {
      Looked(members, ws, actor);
      Looked(members, ws, target);
      var low, high := if actor <= target then actor else target, if actor <= target then target else actor;
      var rows := if Place(ws, low) in members then [(low, members[Place(ws, low)])] else [];
      if low != high && Place(ws, high) in members {
        rows := rows + [(high, members[Place(ws, high)])];
      }
      actorRole, targetRole := None, None;
      for i := 0 to |rows|
        invariant forall k :: 0 <= k < |rows| ==> rows[k].0 in {actor, target} && RowOf(rows[k], ws)
        invariant actorRole.Some? ==> RowOf((actor, actorRole.value), ws)
        invariant targetRole.Some? ==> RowOf((target, targetRole.value), ws)
        invariant forall k :: 0 <= k < i ==> if rows[k].0 == actor then actorRole.Some? else targetRole.Some?
      {
        if rows[i].0 == actor {
          actorRole := Some(rows[i].1);
        } else {
          targetRole := Some(rows[i].1);
        }
      }
      assert forall u :: u in {actor, target} && Place(ws, u) in members ==> (u, members[Place(ws, u)]) in rows;
      if actor == target {
        targetRole := actorRole;
      }
    }

    // ----- checks -----

    method Allow(ws: nat, actor: nat, permission: Permission) returns (denied: Option<Error>)
      ensures denied == Require(MembersOf(members, ws), BansOf(bans, ws), actor, permission)
    {
      BanRow(bans, ws, actor);
      Looked(members, ws, actor);
      if Place(ws, actor) in bans { return Some(Banned); }
      if Place(ws, actor) !in members { return Some(NotMember); }
      denied := if RoleHas(members[Place(ws, actor)], permission) then None else Some(Forbidden);
    }

    /** Permission, both rows, rank, and the last owner, in that order. */
    method Judge(ws: nat, actor: nat, target: nat, permission: Permission, granted: Option<Role>)
      returns (denied: Option<Error>)
      ensures denied == Manage(SpaceOf(View(), ws), actor, target, permission, granted)
    {
      denied := Allow(ws, actor, permission);
      if denied.Some? { return; }
      var actorRole, targetRole := LockedRoles(ws, actor, target);
      if targetRole == None { return Some(NotMember); }
      if !RankOk(actorRole.value, targetRole.value, granted) { return Some(Forbidden); }
      if targetRole.value == Owner && granted != Some(Owner) {
        var owners := OwnerCount(ws);
        if owners < 2 { return Some(BadInput); }
      }
    }

    // ----- membership -----

    method MayAdd(actor: nat, ws: nat, target: nat, role: Role) returns (denied: Option<Error>)
      ensures var s := SpaceOf(View(), ws);
        Apply(s, Op.AddMember(actor, target, role)) == if denied.Some? then (s, Failed(denied.value))
          else (Admit(s, target, role), Done)
    {
      denied := Allow(ws, actor, ManageMembers);
      if denied.Some? { return; }
      Looked(members, ws, actor);
      Looked(members, ws, target);
      BanRow(bans, ws, target);
      if !RankOk(members[Place(ws, actor)], Guest, Some(role)) { return Some(Forbidden); }
      if Place(ws, target) in members { return Some(BadInput); }
      if Place(ws, target) in bans { return Some(Banned); }
    }

    method AddMember(actor: nat, ws: nat, target: nat, role: Role) returns (outcome: Outcome)
      requires OwnConversations(channels)
      modifies this`members, this`participants
      ensures Did(old(View()), View(), ws, Op.AddMember(actor, target, role), outcome)
    {
      var denied := MayAdd(actor, ws, target, role);
      if denied.Some? { return Failed(denied.value); }
      AdmitMoves(View(), ws, target, role);
      members := members[Place(ws, target) := role];
      participants := Enrolled(channels, participants, ws, target);
      outcome := Done;
    }

    method SetRole(actor: nat, ws: nat, target: nat, role: Role) returns (outcome: Outcome)
      requires OwnConversations(channels)
      modifies this`members
      ensures Did(old(View()), View(), ws, Op.SetRole(actor, target, role), outcome)
    {
      var denied := Judge(ws, actor, target, ManageRoles, Some(role));
      if denied.Some? { return Failed(denied.value); }
      PromoteMoves(View(), ws, target, role);
      members := members[Place(ws, target) := role];
      outcome := Done;
    }

    method RemoveMember(actor: nat, ws: nat, target: nat) returns (outcome: Outcome)
      requires OwnConversations(channels)
      modifies this`members, this`participants, this`overrides
      ensures Did(old(View()), View(), ws, Op.RemoveMember(actor, target), outcome)
    {
      var denied := Judge(ws, actor, target, KickMembers, None);
      if denied.Some? { return Failed(denied.value); }
      ExpelMoves(View(), ws, target);
      members := members - {Place(ws, target)};
      participants := Withdrawn(channels, participants, ws, target);
      overrides := Stripped(channels, overrides, ws, target);
      outcome := Done;
    }

    method Leave(user: nat, ws: nat) returns (outcome: Outcome)
      requires OwnConversations(channels)
      modifies this`members, this`participants, this`overrides
      ensures Did(old(View()), View(), ws, Op.Leave(user), outcome)
    {
      Looked(members, ws, user);
      BanRow(bans, ws, user);
      if Place(ws, user) !in members { return Failed(NotMember); }
      if Place(ws, user) in bans { return Failed(Banned); }
      var owners := OwnerCount(ws);
      if members[Place(ws, user)] == Owner && owners < 2 { return Failed(BadInput); }
      ExpelMoves(View(), ws, user);
      members := members - {Place(ws, user)};
      participants := Withdrawn(channels, participants, ws, user);
      overrides := Stripped(channels, overrides, ws, user);
      outcome := Done;
    }

    method MayBan(actor: nat, ws: nat, target: nat, reason: string) returns (denied: Option<Error>)
      ensures var s := SpaceOf(View(), ws);
        Apply(s, Op.BanMember(actor, target, reason)) == if denied.Some? then (s, Failed(denied.value))
          else (Expel(s.(bans := s.bans + {target}), target), Done)
    {
      denied := Allow(ws, actor, Permission.BanMembers);
      if denied.Some? { return; }
      if |Trim(reason)| > MAX_REASON { return Some(BadInput); }
      denied := Judge(ws, actor, target, Permission.BanMembers, None);
    }

    method BanMember(actor: nat, ws: nat, target: nat, reason: string) returns (outcome: Outcome)
      requires OwnConversations(channels)
      modifies this`members, this`bans, this`participants, this`overrides
      ensures Did(old(View()), View(), ws, Op.BanMember(actor, target, reason), outcome)
    {
      var denied := MayBan(actor, ws, target, reason);
      if denied.Some? { return Failed(denied.value); }
      BanExpelMoves(View(), ws, target);
      bans := bans + {Place(ws, target)};
      members := members - {Place(ws, target)};
      participants := Withdrawn(channels, participants, ws, target);
      overrides := Stripped(channels, overrides, ws, target);
      outcome := Done;
    }

    method Unban(actor: nat, ws: nat, target: nat) returns (outcome: Outcome)
      requires OwnConversations(channels)
      modifies this`bans
      ensures Did(old(View()), View(), ws, Op.Unban(actor, target), outcome)
    {
      var denied := Allow(ws, actor, Permission.BanMembers);
      if denied.Some? { return Failed(denied.value); }
      BanMoves(View(), ws, target);
      bans := bans - {Place(ws, target)};
      outcome := Done;
    }

    // ----- channels -----

    /** The workspace of a channel; an unknown channel is in none. */
    function Home(id: nat): nat
      reads this
    {
      if id in channels then channels[id].workspace else 0
    }

    method Reachable(actor: nat, id: nat, permission: Permission) returns (denied: Option<Error>)
      ensures denied == Reach(SpaceOf(View(), Home(id)), actor, id, permission)
    {
      if id !in channels { return Some(NotMember); }
      denied := Allow(channels[id].workspace, actor, permission);
    }

    method IsTaken(ws: nat, name: string, but: Option<nat>) returns (taken: bool)
      ensures taken == NameTaken(Gathered(ws), name, but)
    {
      taken := exists c :: c in channels && channels[c].workspace == ws && Some(c) != but && channels[c].name == name;
      assert forall c :: c in Gathered(ws) <==> c in channels && channels[c].workspace == ws;
    }

    /** A participant row for every member row of the workspace, one at a time. */
    method SeatEveryone(ws: nat, conversation: nat)
      modifies this`participants
      ensures participants == old(participants) + set p | p in members && p.workspace == ws ::
        Participant(conversation, p.user)
    {
      var snapshot := set p | p in members && p.workspace == ws;
      var rest := snapshot;
      while rest != {}
        invariant rest <= snapshot
        invariant participants == old(participants) + set p | p in snapshot - rest :: Participant(conversation, p.user)
        decreases rest
      {
        var p :| p in rest;
        participants := participants + {Participant(conversation, p.user)};
        rest := rest - {p};
      }
      assert snapshot - rest == snapshot;
    }

    method CreateChannel(actor: nat, ws: nat, id: nat, conversation: nat, name: string) returns (outcome: Outcome)
      requires OwnConversations(channels) && Unused(View(), id, conversation)
      modifies this`channels, this`participants
      ensures Did(old(View()), View(), ws, Op.CreateChannel(actor, id, name), outcome)
    {
      var denied := Allow(ws, actor, ManageChannels);
      if denied.Some? { return Failed(denied.value); }
      var clean := Trim(name);
      if !GoodName(clean) { return Failed(BadInput); }
      var taken := IsTaken(ws, clean, None);
      if taken {
        // The unique name fails the last insertion, and the transaction with it.
        return Failed(BadInput);
      }
      OpenMoves(View(), id, ChannelRow(ws, conversation, clean));
      SeatEveryone(ws, conversation);
      channels := channels[id := ChannelRow(ws, conversation, clean)];
      assert View() == Opened(old(View()), id, ChannelRow(ws, conversation, clean));
      outcome := Done;
    }

    method RenameChannel(actor: nat, id: nat, name: string) returns (outcome: Outcome)
      requires OwnConversations(channels)
      modifies this`channels
      ensures Did(old(View()), View(), old(Home(id)), Op.RenameChannel(actor, id, name), outcome)
    {
      var denied := Reachable(actor, id, ManageChannels);
      if denied.Some? { return Failed(denied.value); }
      var clean := Trim(name);
      if !GoodName(clean) { return Failed(BadInput); }
      var taken := IsTaken(channels[id].workspace, clean, Some(id));
      if taken { return Failed(BadInput); }
      RenameMoves(View(), id, clean);
      channels := channels[id := channels[id].(name := clean)];
      outcome := Done;
    }

    method DeleteChannel(actor: nat, id: nat) returns (outcome: Outcome)
      requires OwnConversations(channels)
      modifies this`channels, this`participants, this`overrides
      ensures Did(old(View()), View(), old(Home(id)), Op.DeleteChannel(actor, id), outcome)
    {
      var denied := Reachable(actor, id, ManageChannels);
      if denied.Some? { return Failed(denied.value); }
      CloseMoves(View(), id);
      var conversation := channels[id].conversation;
      participants := set p | p in participants && p.conversation != conversation;
      channels := channels - {id};
      overrides := map o | o in overrides && o.channel != id :: overrides[o];
      outcome := Done;
    }

    method MayOverride(actor: nat, id: nat, key: Key, allowed: bool) returns (denied: Option<Error>)
      ensures var s := SpaceOf(View(), Home(id));
        && (denied.Some? ==> Apply(s, Op.SetOverride(actor, id, key, allowed)) == (s, Failed(denied.value)))
        && (denied == None ==> id in channels && id in s.channels)
        && (denied == None ==>
              var channel := s.channels[id].(overrides := s.channels[id].overrides[key := allowed]);
              Apply(s, Op.SetOverride(actor, id, key, allowed)) == (s.(channels := s.channels[id := channel]), Done))
    {
      if key.permission != SendMessages { return Some(BadInput); }
      denied := Reachable(actor, id, ManageChannels);
      if denied.Some? { return; }
      var ws, role := channels[id].workspace, Guest;
      Looked(members, ws, actor);
      if key.target.RoleTarget? {
        role := key.target.role;
      } else {
        Looked(members, ws, key.target.user);
        if Place(ws, key.target.user) !in members { return Some(BadInput); }
        role := members[Place(ws, key.target.user)];
      }
      if !RankOk(members[Place(ws, actor)], role, None) { return Some(Forbidden); }
    }

    method SetOverride(actor: nat, id: nat, key: Key, allowed: bool) returns (outcome: Outcome)
      requires OwnConversations(channels)
      modifies this`overrides
      ensures Did(old(View()), View(), old(Home(id)), Op.SetOverride(actor, id, key, allowed), outcome)
    {
      var denied := MayOverride(actor, id, key, allowed);
      if denied.Some? { return Failed(denied.value); }
      OverrideMoves(View(), id, key, allowed);
      overrides := overrides[OverrideKey(id, key) := allowed];
      outcome := Done;
    }

    method DeleteOverride(actor: nat, id: nat, key: Key) returns (outcome: Outcome)
      requires OwnConversations(channels)
      modifies this`overrides
      ensures Did(old(View()), View(), old(Home(id)), Op.DeleteOverride(actor, id, key), outcome)
    {
      var denied := Reachable(actor, id, ManageChannels);
      if denied.Some? { return Failed(denied.value); }
      LiftMoves(View(), id, key);
      overrides := overrides - {OverrideKey(id, key)};
      outcome := Done;
    }

    method ChannelAllowed(id: nat, user: nat, permission: Permission) returns (allowed: bool)
      ensures allowed == Allowed(SpaceOf(View(), Home(id)), id, user, permission)
    {
      if id !in channels { return false; }
      var ws := channels[id].workspace;
      Looked(members, ws, user);
      BanRow(bans, ws, user);
      if Place(ws, user) !in members { return false; }
      if Place(ws, user) in bans { return false; }
      var role := members[Place(ws, user)];
      allowed := RoleHas(role, permission);
      var roleKey, memberKey := Key(RoleTarget(role), permission), Key(MemberTarget(user), permission);
      OverrideRow(overrides, id, roleKey);
      OverrideRow(overrides, id, memberKey);
      if OverrideKey(id, roleKey) in overrides {
        allowed := overrides[OverrideKey(id, roleKey)];
      }
      if OverrideKey(id, memberKey) in overrides {
        allowed := overrides[OverrideKey(id, memberKey)];
      }
    }

    // ----- invites -----

    method CreateInvite(actor: nat, ws: nat, id: nat, role: Role, ttl: Option<int>, cap: Option<int>, now: int)
      returns (outcome: Outcome)
      requires OwnConversations(channels) && id !in invites
      modifies this`invites
      ensures Did(old(View()), View(), ws, Op.CreateInvite(actor, id, role, ttl, cap, now), outcome)
    {
      var denied := Allow(ws, actor, ManageMembers);
      if denied.Some? { return Failed(denied.value); }
      Looked(members, ws, actor);
      if !RankOk(members[Place(ws, actor)], Guest, Some(role)) { return Failed(Forbidden); }
      if role == Owner { return Failed(BadInput); }
      if cap.Some? && cap.value <= 0 { return Failed(BadInput); }
      var deadline := None;
      if ttl.Some? {
        if ttl.value <= 0 || ttl.value > MAX_TTL { return Failed(BadInput); }
        deadline := Some(now + ttl.value);
      }
      var row := InviteRow(ws, Invite(role, deadline, cap, 0, false));
      InviteMoves(View(), id, row);
      invites := invites[id := row];
      outcome := Done;
    }

    /** An invite of another workspace is as unknown as one that does not exist. */
    method RevokeInvite(actor: nat, ws: nat, id: nat) returns (outcome: Outcome)
      requires OwnConversations(channels)
      modifies this`invites
      ensures Did(old(View()), View(), ws, Op.RevokeInvite(actor, id), outcome)
    {
      var denied := Allow(ws, actor, ManageMembers);
      if denied.Some? { return Failed(denied.value); }
      if id !in invites || invites[id].workspace != ws { return Failed(NotMember); }
      var row := InviteRow(ws, invites[id].invite.(revoked := true));
      InviteMoves(View(), id, row);
      invites := invites[id := row];
      outcome := Done;
    }

    method MayJoin(user: nat, id: nat, now: int) returns (answer: Option<Outcome>)
      requires id in invites
      ensures var s, op := SpaceOf(View(), invites[id].workspace), Op.Join(user, id, now);
        var used := invites[id].invite.(uses := invites[id].invite.uses + 1);
        Apply(s, op) == if answer.Some? then (s, answer.value)
          else (Admit(s, user, used.role).(invites := s.invites[id := used]), Seated(used.role))
    {
      var ws, invite := invites[id].workspace, invites[id].invite;
      BanRow(bans, ws, user);
      Looked(members, ws, user);
      if Place(ws, user) in bans { return Some(Failed(Banned)); }
      if Place(ws, user) in members { return Some(Seated(members[Place(ws, user)])); }
      answer := if Usable(invite, now) then None else Some(Failed(InviteRejected));
    }

    method TakeSeat(ws: nat, user: nat, id: nat, used: Invite)
      modifies this`members, this`participants, this`invites
      ensures View() == Joined(old(View()), ws, user, id, used)
    {
      members := members[Place(ws, user) := used.role];
      invites := invites[id := InviteRow(ws, used)];
      participants := Enrolled(channels, participants, ws, user);
    }

    /** The invite names the workspace; an unknown code names none. */
    method JoinViaInvite(user: nat, id: nat, now: int) returns (outcome: Outcome)
      requires OwnConversations(channels)
      modifies this`members, this`participants, this`invites
      ensures old(id in invites) ==>
        Did(old(View()), View(), old(invites[id].workspace), Op.Join(user, id, now), outcome)
      ensures old(id !in invites) ==> View() == old(View()) && outcome == Failed(InviteRejected)
    {
      if id !in invites { return Failed(InviteRejected); }
      var answer := MayJoin(user, id, now);
      if answer.Some? { return answer.value; }
      var ws, used := invites[id].workspace, invites[id].invite.(uses := invites[id].invite.uses + 1);
      JoinMoves(View(), ws, user, id, used);
      TakeSeat(ws, user, id, used);
      outcome := Seated(used.role);
    }
  }
}
