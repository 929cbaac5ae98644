/**
 * The member panel of a room: the room's members, bucketed by role and shown
 * in the fixed role order owner, admin, moderator, member.
 */
module MemberList {
  import opened Text
  import opened Seqs
  import opened Backend
  import MessageList

  /** The `room_role` enumeration of the database. */
  datatype Role = Owner | Admin | Moderator | Member

  function RoleName(r: Role): (name: String)
    ensures r == Owner ==> name == "owner"
    ensures r == Admin ==> name == "admin"
    ensures r == Moderator ==> name == "moderator"
    ensures r == Member ==> name == "member"
  {
    match r
    case Owner => "owner"
    case Admin => "admin"
    case Moderator => "moderator"
    case Member => "member"
  }

  /** Distinct roles have distinct names, so the string switches below can tell every role apart. */
  lemma RoleNameInjective(a: Role, b: Role)
    ensures RoleName(a) == RoleName(b) <==> a == b
  {
    if a != b {
      assert RoleName(a)[0] != RoleName(b)[0] || |RoleName(a)| != |RoleName(b)|;
    }
  }

  const ROLE_ORDER: seq<Role> := [Owner, Admin, Moderator, Member]

  datatype MemberProfile = MemberProfile(username: String, displayName: Option<String>, avatarUrl: Option<String>)

  /** A `room_members` row joined with the member's profile (which the join may leave null). */
  datatype RoomMember = RoomMember(userId: Id, role: Role, joinedAt: int, profile: Option<MemberProfile>)

  function HasRole(r: Role): RoomMember -> bool {
    (m: RoomMember) => m.role == r
  }

  /** The members of one role, in list order. */
  function Bucket(members: seq<RoomMember>, r: Role): seq<RoomMember> {
    Filter(members, HasRole(r))
  }

  /**
   * The `groupedMembers` reduce: one entry per role that occurs, holding that
   * role's members in list order.
   */
  method GroupMembers(members: seq<RoomMember>) returns (acc: map<Role, seq<RoomMember>>)
    ensures forall r :: r in acc <==> Bucket(members, r) != []
    ensures forall r :: r in acc ==> acc[r] == Bucket(members, r)
  {
    acc := map[];
    var i := 0;
    while i < |members|
      invariant 0 <= i <= |members|
      invariant forall r :: r in acc <==> Bucket(members[..i], r) != []
      invariant forall r :: r in acc ==> acc[r] == Bucket(members[..i], r)
    {
      var member := members[i];
      if member.role !in acc {
        acc := acc[member.role := []];
      }
      acc := acc[member.role := acc[member.role] + [member]];
      forall r ensures Bucket(members[..i + 1], r) == Bucket(members[..i], r) + Bucket([member], r) {
        assert members[..i + 1] == members[..i] + [member];
        FilterAppend(members[..i], [member], HasRole(r));
      }
      i := i + 1;
    }
    assert members[..|members|] == members;
  }

  /** Every member lands in exactly one bucket: the four buckets together hold the whole list. */
  lemma {:induction false} BucketsMultiset(members: seq<RoomMember>)
    ensures multiset(Bucket(members, Owner)) + multiset(Bucket(members, Admin))
            + multiset(Bucket(members, Moderator)) + multiset(Bucket(members, Member)) == multiset(members)
  {
    if members != [] {
      var m := members[0];
      var t := members[1..];
      BucketsMultiset(t);
      assert members == [m] + t;
      assert multiset(members) == multiset{m} + multiset(t);
      var o, a, d, u := Bucket(t, Owner), Bucket(t, Admin), Bucket(t, Moderator), Bucket(t, Member);
      match m.role
      case Owner =>
        assert Bucket(members, Owner) == [m] + o;
        assert Bucket(members, Admin) == a && Bucket(members, Moderator) == d && Bucket(members, Member) == u;
      case Admin =>
        assert Bucket(members, Admin) == [m] + a;
        assert Bucket(members, Owner) == o && Bucket(members, Moderator) == d && Bucket(members, Member) == u;
      case Moderator =>
        assert Bucket(members, Moderator) == [m] + d;
        assert Bucket(members, Owner) == o && Bucket(members, Admin) == a && Bucket(members, Member) == u;
      case Member =>
        assert Bucket(members, Member) == [m] + u;
        assert Bucket(members, Owner) == o && Bucket(members, Admin) == a && Bucket(members, Moderator) == d;
    }
  }

  /** So the four bucket sizes add up to the member count. */
  lemma BucketsPartition(members: seq<RoomMember>)
    ensures |Bucket(members, Owner)| + |Bucket(members, Admin)| + |Bucket(members, Moderator)|
            + |Bucket(members, Member)| == |members|
  {
    BucketsMultiset(members);
    var o, a := multiset(Bucket(members, Owner)), multiset(Bucket(members, Admin));
    var d, u := multiset(Bucket(members, Moderator)), multiset(Bucket(members, Member));
    assert |o + a + d + u| == |o| + |a| + |d| + |u|;
  }

  /** Each bucket holds exactly the members of its role, in their list order. */
  lemma BucketContents(members: seq<RoomMember>, r: Role)
    ensures forall m :: m in Bucket(members, r) <==> m in members && m.role == r
    ensures IsSubsequence(Bucket(members, r), members)
  {
    FilterMembers(members, HasRole(r));
    FilterIsSubsequence(members, HasRole(r));
  }

  datatype RoleIcon = CrownIcon | ShieldIcon | UserCheckIcon | UserIcon

  /** `getRoleIcon`: a switch on the role string with a default. */
  function GetRoleIcon(role: String): (icon: RoleIcon)
    ensures icon == CrownIcon <==> role == "owner"
    ensures icon == ShieldIcon <==> role == "admin"
    ensures icon == UserCheckIcon <==> role == "moderator"
    ensures icon == UserIcon <==> role != "owner" && role != "admin" && role != "moderator"
  {
    if role == "owner" then CrownIcon
    else if role == "admin" then ShieldIcon
    else if role == "moderator" then UserCheckIcon
    else UserIcon
  }

  const DEFAULT_ROLE_COLOR: String := "bg-muted text-muted-foreground"

  /** `getRoleColor`: a switch on the role string with a default. */
  function GetRoleColor(role: String): (cls: String)
    ensures role == "owner" ==> cls == "bg-yellow-500/20 text-yellow-700 dark:text-yellow-300"
    ensures role == "admin" ==> cls == "bg-red-500/20 text-red-700 dark:text-red-300"
    ensures role == "moderator" ==> cls == "bg-blue-500/20 text-blue-700 dark:text-blue-300"
    ensures cls == DEFAULT_ROLE_COLOR <==> role != "owner" && role != "admin" && role != "moderator"
  {
    if role == "owner" then "bg-yellow-500/20 text-yellow-700 dark:text-yellow-300"
    else if role == "admin" then "bg-red-500/20 text-red-700 dark:text-red-300"
    else if role == "moderator" then "bg-blue-500/20 text-blue-700 dark:text-blue-300"
    else DEFAULT_ROLE_COLOR
  }

  /** The three privileged roles have pairwise different icons and colours; the plain member role takes the defaults. */
  lemma RoleStylesDistinct()
    ensures GetRoleIcon(RoleName(Owner)) != GetRoleIcon(RoleName(Admin))
    ensures GetRoleIcon(RoleName(Admin)) != GetRoleIcon(RoleName(Moderator))
    ensures GetRoleIcon(RoleName(Owner)) != GetRoleIcon(RoleName(Moderator))
    ensures GetRoleIcon(RoleName(Member)) == UserIcon && GetRoleColor(RoleName(Member)) == DEFAULT_ROLE_COLOR
    ensures forall r: Role :: r != Member ==> GetRoleColor(RoleName(r)) != DEFAULT_ROLE_COLOR
  {
  }

  datatype Badge = Badge(text: String, cls: String)

  /** One member row: avatar, name, `@handle` and the role badge. */
  datatype MemberRow = MemberRow(avatar: MessageList.Avatar, name: String, handle: String, badge: Option<Badge>)

  function RenderMember(m: RoomMember): (row: MemberRow)
    ensures m.profile.None? ==> row.name == "Unknown User" && row.handle == "@unknown"
    ensures m.profile.Some? ==> row.name == FirstPresent(m.profile.value.displayName, Some(m.profile.value.username), "Unknown User")
    ensures m.profile.Some? ==> row.handle == "@" + FirstPresent(Some(m.profile.value.username), None, "unknown")
    ensures row.badge.Some? <==> m.role != Member
    ensures row.badge.Some? ==> row.badge.value == Badge(RoleName(m.role), GetRoleColor(RoleName(m.role)))
    ensures row.name != []
    ensures m.profile.Some? && Present(m.profile.value.avatarUrl) ==>
              row.avatar == MessageList.AvatarImage(m.profile.value.avatarUrl.value)
    ensures !(m.profile.Some? && Present(m.profile.value.avatarUrl)) ==>
              row.avatar == MessageList.AvatarInitial(ToUpperChar(row.name[0]))
  {
    var name := match m.profile
      case None => "Unknown User"
      case Some(p) => FirstPresent(p.displayName, Some(p.username), "Unknown User");
    var handle := match m.profile
      case None => "unknown"
      case Some(p) => FirstPresent(Some(p.username), None, "unknown");
    var badge := if m.role != Member then Some(Badge(RoleName(m.role), GetRoleColor(RoleName(m.role)))) else None;
    var avatar := MessageList.AvatarFor(if m.profile.Some? then m.profile.value.avatarUrl else None, name);
    MemberRow(avatar, name, "@" + handle, badge)
  }

  /** One role section: icon, heading "<role>s (<n>)" and its members. */
  datatype Section = Section(role: Role, icon: RoleIcon, heading: String, members: seq<RoomMember>)

  function SectionFor(r: Role, ms: seq<RoomMember>): Section {
    Section(r, GetRoleIcon(RoleName(r)), RoleName(r) + "s (" + NatToString(|ms|) + ")", ms)
  }

  /** The sections for `roles`, skipping roles with no members. */
  function SectionsOf(grouped: map<Role, seq<RoomMember>>, roles: seq<Role>): seq<Section> {
    if roles == [] then []
    else
      var rest := SectionsOf(grouped, roles[1..]);
      var r := roles[0];
      if r in grouped && grouped[r] != [] then [SectionFor(r, grouped[r])] + rest else rest
  }

  /** The total number of members shown across sections. */
  function SectionSizes(sections: seq<Section>): nat {
    if sections == [] then 0 else |sections[0].members| + SectionSizes(sections[1..])
  }

  /** The section for role `r` when it has members, nothing otherwise. */
  function OptSection(r: Role, ms: seq<RoomMember>): seq<Section> {
    if ms != [] then [SectionFor(r, ms)] else []
  }

  lemma SectionsOfCons(members: seq<RoomMember>, grouped: map<Role, seq<RoomMember>>, roles: seq<Role>)
    requires roles != []
    requires forall r :: r in grouped <==> Bucket(members, r) != []
    requires forall r :: r in grouped ==> grouped[r] == Bucket(members, r)
    ensures SectionsOf(grouped, roles) == OptSection(roles[0], Bucket(members, roles[0])) + SectionsOf(grouped, roles[1..])
  {
  }

  lemma {:induction false} SizesAppend(a: seq<Section>, b: seq<Section>)
    ensures SectionSizes(a + b) == SectionSizes(a) + SectionSizes(b)
  {
    if a == [] {
      assert a + b == b;
    } else {
      SizesAppend(a[1..], b);
      assert (a + b)[1..] == a[1..] + b;
    }
  }

  /** Rendered from the reduce's result, the sections follow the role order and show only non-empty roles. */
  lemma SectionsInRoleOrder(members: seq<RoomMember>, grouped: map<Role, seq<RoomMember>>)
    requires forall r :: r in grouped <==> Bucket(members, r) != []
    requires forall r :: r in grouped ==> grouped[r] == Bucket(members, r)
    ensures SectionsOf(grouped, ROLE_ORDER) ==
              OptSection(Owner, Bucket(members, Owner)) + (OptSection(Admin, Bucket(members, Admin))
              + (OptSection(Moderator, Bucket(members, Moderator)) + OptSection(Member, Bucket(members, Member))))
  {
    SectionsOfCons(members, grouped, [Member]);
    assert [Member][1..] == [];
    SectionsOfCons(members, grouped, [Moderator, Member]);
    assert [Moderator, Member][1..] == [Member];
    SectionsOfCons(members, grouped, [Admin, Moderator, Member]);
    assert [Admin, Moderator, Member][1..] == [Moderator, Member];
    SectionsOfCons(members, grouped, ROLE_ORDER);
    assert ROLE_ORDER[1..] == [Admin, Moderator, Member];
  }

  lemma OptSectionSize(r: Role, ms: seq<RoomMember>)
    ensures SectionSizes(OptSection(r, ms)) == |ms|
  {
    if ms != [] {
      assert OptSection(r, ms)[1..] == [];
    }
  }

  /** Together the sections show every member exactly once: their sizes add up to the member count. */
  lemma SectionsCoverMembers(members: seq<RoomMember>, grouped: map<Role, seq<RoomMember>>)
    requires forall r :: r in grouped <==> Bucket(members, r) != []
    requires forall r :: r in grouped ==> grouped[r] == Bucket(members, r)
    ensures SectionSizes(SectionsOf(grouped, ROLE_ORDER)) == |members|
  {
    var o := OptSection(Owner, Bucket(members, Owner));
    var a := OptSection(Admin, Bucket(members, Admin));
    var d := OptSection(Moderator, Bucket(members, Moderator));
    var m := OptSection(Member, Bucket(members, Member));
    SectionsInRoleOrder(members, grouped);
    BucketsPartition(members);
    OptSectionSize(Owner, Bucket(members, Owner));
    OptSectionSize(Admin, Bucket(members, Admin));
    OptSectionSize(Moderator, Bucket(members, Moderator));
    OptSectionSize(Member, Bucket(members, Member));
    SizesAppend(d, m);
    SizesAppend(a, d + m);
    SizesAppend(o, a + (d + m));
  }

  /** Every section shown holds its role's bucket, and that bucket is not empty. */
  lemma {:induction false} SectionsAreBuckets(members: seq<RoomMember>, grouped: map<Role, seq<RoomMember>>, roles: seq<Role>)
    requires forall r :: r in grouped ==> grouped[r] == Bucket(members, r)
    ensures forall s :: s in SectionsOf(grouped, roles) ==> s.members == Bucket(members, s.role) && s.members != []
  {
    if roles != [] {
      SectionsAreBuckets(members, grouped, roles[1..]);
    }
  }

  datatype Panel = Skeleton | Members(title: String, sections: seq<Section>)

  class MemberPanel {
    var members: seq<RoomMember>
    var loading: bool

    constructor ()
      ensures members == [] && loading
    {
      members := [];
      loading := true;
    }

    /** `loadMembers`: needs a current room; a successful load replaces the list, a failed one keeps it. */
    method LoadMembers(currentRoomId: Option<Id>, reply: Reply<seq<RoomMember>>)
      modifies this
      ensures !Present(currentRoomId) ==> members == old(members) && loading == old(loading)
      ensures Present(currentRoomId) && reply.Success? ==> members == Rows(reply)
      ensures Present(currentRoomId) && reply.Failure? ==> members == old(members)
      ensures Present(currentRoomId) ==> !loading
    {
      if !Present(currentRoomId) {
        return;
      }
      loading := true;
      if reply.Success? {
        members := Rows(reply);
      }
      loading := false;
    }

    /** What the panel shows: a skeleton while loading, else the member count and the role sections. */
    method Render() returns (p: Panel)
      ensures loading ==> p == Skeleton
      ensures !loading ==> p.Members? && p.title == "Members (" + NatToString(|members|) + ")"
      ensures !loading ==> SectionSizes(p.sections) == |members|
      ensures !loading ==> forall s :: s in p.sections ==> s.members == Bucket(members, s.role) && s.members != []
      ensures !loading ==>
                p.sections == OptSection(Owner, Bucket(members, Owner)) + (OptSection(Admin, Bucket(members, Admin))
                              + (OptSection(Moderator, Bucket(members, Moderator)) + OptSection(Member, Bucket(members, Member))))
    {
      if loading {
        return Skeleton;
      }
      var grouped := GroupMembers(members);
      SectionsInRoleOrder(members, grouped);
      SectionsCoverMembers(members, grouped);
      SectionsAreBuckets(members, grouped, ROLE_ORDER);
      p := Members("Members (" + NatToString(|members|) + ")", SectionsOf(grouped, ROLE_ORDER));
    }
  }
}
