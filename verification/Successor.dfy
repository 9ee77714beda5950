/**
  internal/omega/rotation_roots.go and internal/omega/root_rotation.go: which root may
  follow which, and what the classification guarantees about the keys.
 */
module Successor {
  import opened Wrappers
  import opened RootMeta

  datatype Group = Online | TargetsGroup | RootGroup

  const ROOT_LIFETIME := 365 * 86400

  /** root_rotation.go:33 */
  function RootExpiry(previous: int, created: int): (expires: int)
    ensures expires > previous
    ensures expires >= created + ROOT_LIFETIME
    ensures expires == created + ROOT_LIFETIME || expires == previous + 1
  {
    if created + ROOT_LIFETIME > previous then created + ROOT_LIFETIME else previous + 1
  }

  /** rotation_roots.go:67-88: the checks on one rotated role. */
  predicate FreshSingleKey(previous: Signed, next: Signed, role: Role) {
    && role in next.roles && role in previous.roles
    && next.roles[role].threshold == 1 && |next.roles[role].keyIds| == 1 && |previous.roles[role].keyIds| == 1
    && var id := next.roles[role].keyIds[0];
       && id in next.keys && id !in previous.keys
       && next.keys[id].ed25519 && ID(next.keys[id]) == id
       && previous.roles[role].keyIds[0] in previous.keys
  }

  /** rotation_roots.go:89-91: put the old key of one role back. */
  function Restore(copy: Signed, previous: Signed, next: Signed, role: Role): Signed
    requires role in next.roles && role in previous.roles
    requires |next.roles[role].keyIds| == 1 && |previous.roles[role].keyIds| == 1
    requires previous.roles[role].keyIds[0] in previous.keys
  {
    var was := previous.roles[role].keyIds[0];
    copy.(keys := (copy.keys - {next.roles[role].keyIds[0]})[was := previous.keys[was]],
          roles := copy.roles[role := previous.roles[role]])
  }

  function RestoreAll(copy: Signed, previous: Signed, next: Signed, roles: seq<Role>): Signed
    requires forall r :: r in roles ==> FreshSingleKey(previous, next, r)
  {
    if roles == [] then copy
    else
      assert FreshSingleKey(previous, next, roles[|roles| - 1]);
      Restore(RestoreAll(copy, previous, next, roles[..|roles| - 1]), previous, next, roles[|roles| - 1])
  }

  /** rotation_roots.go:54 as a relation: undoing the selected roles gives the previous root. */
  predicate RoleSuccessor(previous: Signed, next: Signed, roles: seq<Role>) {
    && next.version == previous.version + 1 && |next.keys| == 6
    && (forall r :: r in roles ==> FreshSingleKey(previous, next, r))
    && RestoreAll(next, previous, next, roles).(version := previous.version) == previous
  }

  /** rotation_roots.go:54 - the loop over a copy of the key map. */
  method CheckRoleSuccessor(previous: Signed, next: Signed, roles: seq<Role>) returns (ok: bool)
    ensures ok <==> RoleSuccessor(previous, next, roles)
  {
    if next.version != previous.version + 1 || |next.keys| != 6 { return false; }
    var copy := next;
    for i := 0 to |roles|
      invariant forall k :: 0 <= k < i ==> FreshSingleKey(previous, next, roles[k])
      invariant copy == RestoreAll(next, previous, next, roles[..i])
    {
      var role := roles[i];
      if role !in next.roles || role !in previous.roles || next.roles[role].threshold != 1 ||
         |next.roles[role].keyIds| != 1 || |previous.roles[role].keyIds| != 1 {
        assert !FreshSingleKey(previous, next, role);
        return false;
      }
      var id := next.roles[role].keyIds[0];
      if id !in next.keys || id in previous.keys || !next.keys[id].ed25519 || ID(next.keys[id]) != id ||
         previous.roles[role].keyIds[0] !in previous.keys {
        assert !FreshSingleKey(previous, next, role);
        return false;
      }
      assert roles[..i + 1][..i] == roles[..i];
      copy := Restore(copy, previous, next, role);
    }
    assert roles[..|roles|] == roles;
    ok := copy.(version := previous.version) == previous;
  }

  /** root_rotation.go:41-65 on the three keys of the new root role. */
  predicate FreshRootKeys(previous: Signed, next: Signed, ids: seq<KeyID>)
    requires |ids| == 3
  {
    && ids[0] != ids[1] && ids[0] != ids[2] && ids[1] != ids[2]
    && forall id :: id in ids ==> id in next.keys && id !in previous.keys && next.keys[id].ed25519 && ID(next.keys[id]) == id
  }

  function Keep(keys: map<KeyID, Key>, ids: seq<KeyID>): map<KeyID, Key> {
    map id | id in ids && id in keys :: keys[id]
  }

  /** root_rotation.go:98-105: put the old root quorum back. */
  function RestoreRoot(previous: Signed, next: Signed): Signed
    requires RootRole in previous.roles && RootRole in next.roles
  {
    next.(keys := (next.keys - IdSet(next.roles[RootRole].keyIds)) + Keep(previous.keys, previous.roles[RootRole].keyIds),
          roles := next.roles[RootRole := previous.roles[RootRole]],
          version := previous.version, expires := previous.expires)
  }

  /** root_rotation.go:67 */
  predicate RootSuccessor(previous: Signed, next: Signed) {
    && RootQuorum(next) && RootQuorum(previous) && |next.keys| == 6
    && next.version == previous.version + 1 && next.expires > previous.expires
    && FreshRootKeys(previous, next, next.roles[RootRole].keyIds)
    && (forall id :: id in previous.roles[RootRole].keyIds ==> id in previous.keys)
    && RestoreRoot(previous, next) == previous
  }

  /** rotation_roots.go:41 */
  function SuccessorGroup(previous: Signed, next: Signed): Option<Group> {
    if RoleSuccessor(previous, next, [SnapshotRole, TimestampRole]) then Some(Online)
    else if RoleSuccessor(previous, next, [TargetsRole]) then Some(TargetsGroup)
    else if RootSuccessor(previous, next) then Some(RootGroup)
    else None
  }

  function GroupOf(role: Role): Group {
    match role
    case RootRole => RootGroup
    case TargetsRole => TargetsGroup
    case SnapshotRole => Online
    case TimestampRole => Online
  }

  /** Every key of the role is new to the root, and every key it had is gone from it. */
  ghost predicate Replaced(previous: Signed, next: Signed, r: Role)
    requires r in previous.roles && r in next.roles
  {
    && (forall id :: id in next.roles[r].keyIds ==> id !in previous.keys)
    && (forall id :: id in previous.roles[r].keyIds ==> id !in next.keys)
  }

  ghost predicate Moves(previous: Signed, next: Signed, r: Role, group: Group) {
    && r in previous.roles && r in next.roles
    && if GroupOf(r) == group then Replaced(previous, next, r) else next.roles[r] == previous.roles[r]
  }

  /**
    What a reader expects of a rotation: only the rotated group changes, it changes to
    fresh keys throughout, its retired keys are gone, and only a root rotation extends
    the expiry.
   */
  ghost predicate Rotates(previous: Signed, next: Signed, group: Group) {
    && next.version == previous.version + 1 && next.policy == previous.policy
    && next.roles.Keys == previous.roles.Keys
    && Moves(previous, next, RootRole, group) && Moves(previous, next, TargetsRole, group)
    && Moves(previous, next, SnapshotRole, group) && Moves(previous, next, TimestampRole, group)
    && (forall id :: id in previous.keys && id in next.keys ==> next.keys[id] == previous.keys[id])
    && (if group == RootGroup then next.expires > previous.expires else next.expires == previous.expires)
  }

  /** The one root `SuccessorGroup` accepts that it should not: one key for both online roles. */
  ghost predicate SharedOnlineKey(next: Signed)
    requires WellShapedRoles(next)
  {
    next.roles[SnapshotRole].keyIds == next.roles[TimestampRole].keyIds
  }

  ghost predicate WellShapedRoles(s: Signed) {
    s.roles.Keys == {RootRole, TargetsRole, SnapshotRole, TimestampRole}
  }

  /** Adding back what was retired and removing what is new restores a set of the same size. */
  lemma SwapKeys<T>(now: set<T>, was: set<T>, added: set<T>, retired: set<T>)
    requires added <= now && retired <= was && added !! was
    requires (now - added) + retired == was && |now| == |was|
    ensures |added| == |retired| ==> retired !! now
    ensures |added| < |retired| ==> !(retired !! now)
  {
    assert now == (now - added) + added;
    assert |now| == |now - added| + |added|;
    if retired !! now {
      assert |was| == |now - added| + |retired|;
    }
    if |added| == |retired| {
      var both := (now - added) * retired;
      assert was == ((now - added) - both) + retired;
      assert |now - added| == |(now - added) - both| + |both|;
      assert |was| == |(now - added) - both| + |retired|;
    }
  }

  /** What the undone copy says about an online successor with keys `a`, `b` in place of `c`, `d`. */
  ghost predicate OnlineUndone(p: Signed, n: Signed, a: KeyID, b: KeyID, c: KeyID, d: KeyID) {
    && SnapshotRole in p.roles && TimestampRole in p.roles
    && n.version == p.version + 1 && n.expires == p.expires && n.policy == p.policy
    && |n.keys| == 6 && a in n.keys && b in n.keys && a !in p.keys && b !in p.keys
    && ID(n.keys[a]) == a && n.keys[a].ed25519 && ID(n.keys[b]) == b && n.keys[b].ed25519
    && p.roles[SnapshotRole].keyIds == [c] && p.roles[TimestampRole].keyIds == [d]
    && n.roles == p.roles[SnapshotRole := Assignment([a], 1)][TimestampRole := Assignment([b], 1)]
    && (n.keys.Keys - {a, b}) + {c, d} == p.keys.Keys
    && (forall id :: id in n.keys && id in p.keys && id != c && id != d ==> n.keys[id] == p.keys[id])
  }

  lemma OnlineSuccessor(p: Signed, n: Signed) returns (a: KeyID, b: KeyID, c: KeyID, d: KeyID)
    requires WellShaped(p) && RoleSuccessor(p, n, [SnapshotRole, TimestampRole])
    ensures OnlineUndone(p, n, a, b, c, d)
  {
    var roles := [SnapshotRole, TimestampRole];
    assert roles[..1] == [SnapshotRole] && [SnapshotRole][..0] == [];
    assert FreshSingleKey(p, n, roles[0]) && FreshSingleKey(p, n, roles[1]);
    var c1 := Restore(n, p, n, SnapshotRole);
    var c2 := Restore(c1, p, n, TimestampRole);
    assert RestoreAll(n, p, n, [SnapshotRole]) == c1;
    assert RestoreAll(n, p, n, roles) == c2;
    assert c2.keys == p.keys && c2.roles == p.roles;
    assert forall r :: r in n.roles <==> r in c2.roles;
    a, b := n.roles[SnapshotRole].keyIds[0], n.roles[TimestampRole].keyIds[0];
    c, d := p.roles[SnapshotRole].keyIds[0], p.roles[TimestampRole].keyIds[0];
    assert n.roles[SnapshotRole] == Assignment([a], 1) && n.roles[TimestampRole] == Assignment([b], 1);
    assert c2.keys.Keys == (n.keys.Keys - {a, b}) + {c, d};
    forall id | id in n.keys && id in p.keys && id != c && id != d ensures n.keys[id] == p.keys[id] {
      assert id != a && id != b && c2.keys[id] == n.keys[id];
    }
  }

  /** The new root with the keys of its online roles replaced, spelled out. */
  ghost predicate OnlineSwap(p: Signed, n: Signed, a: KeyID, b: KeyID, c: KeyID, d: KeyID)
    requires WellShaped(p)
  {
    && n.version == p.version + 1 && n.expires == p.expires && n.policy == p.policy
    && c == p.roles[SnapshotRole].keyIds[0] && d == p.roles[TimestampRole].keyIds[0]
    && n.roles == p.roles[SnapshotRole := Assignment([a], 1)][TimestampRole := Assignment([b], 1)]
    && a !in p.keys && b !in p.keys && a != b
    && n.keys.Keys == (p.keys.Keys - {c, d}) + {a, b}
    && ID(n.keys[a]) == a && n.keys[a].ed25519 && ID(n.keys[b]) == b && n.keys[b].ed25519
    && (forall id :: id in n.keys && id in p.keys ==> n.keys[id] == p.keys[id])
  }

  lemma OnlineSwapShape(p: Signed, n: Signed, a: KeyID, b: KeyID, c: KeyID, d: KeyID)
    requires WellShaped(p) && OnlineSwap(p, n, a, b, c, d)
    ensures WellShaped(n)
  {
    var r, t := p.roles[RootRole].keyIds, p.roles[TargetsRole].keyIds[0];
    assert n.roles[RootRole] == p.roles[RootRole] && n.roles[TargetsRole] == p.roles[TargetsRole];
    assert n.keys.Keys == {r[0], r[1], r[2], t, a, b};
  }

  lemma OnlineSwapRotates(p: Signed, n: Signed, a: KeyID, b: KeyID, c: KeyID, d: KeyID)
    requires WellShaped(p) && OnlineSwap(p, n, a, b, c, d)
    ensures Rotates(p, n, Online)
  {
  }

  lemma OnlineKeys(p: Signed, n: Signed, a: KeyID, b: KeyID, c: KeyID, d: KeyID)
    requires |p.keys| == 6 && c != d && OnlineUndone(p, n, a, b, c, d)
    ensures a != b ==> c !in n.keys && d !in n.keys && n.keys.Keys == (p.keys.Keys - {c, d}) + {a, b}
    ensures a == b ==> c in n.keys || d in n.keys
  {
    assert |{c, d}| == 2;
    SwapKeys(n.keys.Keys, p.keys.Keys, {a, b}, {c, d});
    if a == b {
      assert {a, b} == {a};
    } else {
      assert |{a, b}| == 2;
    }
  }

  /** An online successor keeps the shape exactly when its two roles have different keys. */
  lemma OnlineStep(p: Signed, n: Signed)
    requires WellShaped(p) && RoleSuccessor(p, n, [SnapshotRole, TimestampRole])
    ensures WellShapedRoles(n)
    ensures !SharedOnlineKey(n) ==> WellShaped(n) && Rotates(p, n, Online)
    ensures SharedOnlineKey(n) ==> !WellShaped(n) && !Rotates(p, n, Online)
  {
    var a, b, c, d := OnlineSuccessor(p, n);
    OnlineOutcome(p, n, a, b, c, d);
  }

  lemma OnlineOutcome(p: Signed, n: Signed, a: KeyID, b: KeyID, c: KeyID, d: KeyID)
    requires WellShaped(p) && OnlineUndone(p, n, a, b, c, d)
    ensures WellShapedRoles(n)
    ensures !SharedOnlineKey(n) ==> WellShaped(n) && Rotates(p, n, Online)
    ensures SharedOnlineKey(n) ==> !WellShaped(n) && !Rotates(p, n, Online)
  {
    SixKeys(p);
    OnlineKeys(p, n, a, b, c, d);
    if a == b {
      assert c in p.roles[SnapshotRole].keyIds && d in p.roles[TimestampRole].keyIds;
      assert !Replaced(p, n, SnapshotRole) || !Replaced(p, n, TimestampRole);
    } else {
      assert OnlineSwap(p, n, a, b, c, d);
      OnlineSwapShape(p, n, a, b, c, d);
      OnlineSwapRotates(p, n, a, b, c, d);
    }
  }

  /** A targets successor with key `a` in place of `c`. */
  ghost predicate TargetsSwap(p: Signed, n: Signed, a: KeyID, c: KeyID) {
    && TargetsRole in p.roles && p.roles[TargetsRole].keyIds == [c]
    && n.version == p.version + 1 && n.expires == p.expires && n.policy == p.policy
    && |n.keys| == 6 && a in n.keys && a !in p.keys && ID(n.keys[a]) == a && n.keys[a].ed25519
    && n.roles == p.roles[TargetsRole := Assignment([a], 1)]
    && (n.keys.Keys - {a}) + {c} == p.keys.Keys
    && (forall id :: id in n.keys && id in p.keys && id != c ==> n.keys[id] == p.keys[id])
  }

  lemma TargetsSuccessor(p: Signed, n: Signed) returns (a: KeyID, c: KeyID)
    requires WellShaped(p) && RoleSuccessor(p, n, [TargetsRole])
    ensures TargetsSwap(p, n, a, c)
  {
    assert [TargetsRole][..0] == [];
    assert FreshSingleKey(p, n, [TargetsRole][0]);
    var c1 := Restore(n, p, n, TargetsRole);
    assert RestoreAll(n, p, n, [TargetsRole]) == c1;
    assert c1.keys == p.keys && c1.roles == p.roles;
    assert forall r :: r in n.roles <==> r in c1.roles;
    a, c := n.roles[TargetsRole].keyIds[0], p.roles[TargetsRole].keyIds[0];
    assert n.roles[TargetsRole] == Assignment([a], 1);
    assert c1.keys.Keys == (n.keys.Keys - {a}) + {c};
    forall id | id in n.keys && id in p.keys && id != c ensures n.keys[id] == p.keys[id] {
      assert id != a && c1.keys[id] == n.keys[id];
    }
  }

  lemma TargetsOutcome(p: Signed, n: Signed, a: KeyID, c: KeyID)
    requires WellShaped(p) && TargetsSwap(p, n, a, c)
    ensures WellShaped(n) && Rotates(p, n, TargetsGroup)
  {
    SixKeys(p);
    SwapKeys(n.keys.Keys, p.keys.Keys, {a}, {c});
    TargetsShape(p, n, a, c);
    TargetsRotates(p, n, a, c);
  }

  lemma TargetsShape(p: Signed, n: Signed, a: KeyID, c: KeyID)
    requires WellShaped(p) && TargetsSwap(p, n, a, c) && c !in n.keys
    ensures WellShaped(n)
  {
    var r, s, m := p.roles[RootRole].keyIds, p.roles[SnapshotRole].keyIds[0], p.roles[TimestampRole].keyIds[0];
    assert n.keys.Keys == {r[0], r[1], r[2], a, s, m};
    assert n.roles[RootRole] == p.roles[RootRole] && n.roles[SnapshotRole] == p.roles[SnapshotRole];
  }

  lemma TargetsRotates(p: Signed, n: Signed, a: KeyID, c: KeyID)
    requires TargetsSwap(p, n, a, c) && p.roles.Keys == {RootRole, TargetsRole, SnapshotRole, TimestampRole} && c !in n.keys
    ensures Rotates(p, n, TargetsGroup)
  {
    assert n.roles.Keys == p.roles.Keys;
  }

  /** A root successor with quorum `a` in place of `c`. */
  ghost predicate RootSwap(p: Signed, n: Signed, a: seq<KeyID>, c: seq<KeyID>) {
    && |a| == 3 && |c| == 3 && a[0] != a[1] && a[0] != a[2] && a[1] != a[2]
    && RootRole in p.roles && p.roles[RootRole].keyIds == c
    && n.version == p.version + 1 && n.expires > p.expires && n.policy == p.policy && |n.keys| == 6
    && (forall id :: id in a ==> id in n.keys && id !in p.keys && n.keys[id].ed25519 && ID(n.keys[id]) == id)
    && n.roles == p.roles[RootRole := Assignment(a, 2)]
    && (n.keys.Keys - {a[0], a[1], a[2]}) + {c[0], c[1], c[2]} == p.keys.Keys
    && (forall id :: id in n.keys && id in p.keys && id !in c ==> n.keys[id] == p.keys[id])
  }

  lemma RestoredRoot(p: Signed, n: Signed, a: seq<KeyID>, c: seq<KeyID>)
    requires RootRole in p.roles && RootRole in n.roles && |a| == 3 && |c| == 3
    requires a == n.roles[RootRole].keyIds && c == p.roles[RootRole].keyIds && forall id :: id in c ==> id in p.keys
    requires RestoreRoot(p, n) == p && forall id :: id in a ==> id !in p.keys
    ensures (n.keys.Keys - {a[0], a[1], a[2]}) + {c[0], c[1], c[2]} == p.keys.Keys
    ensures forall id :: id in n.keys && id in p.keys && id !in c ==> n.keys[id] == p.keys[id]
    ensures n.roles == p.roles[RootRole := n.roles[RootRole]] && n.policy == p.policy
  {
    var r := RestoreRoot(p, n);
    assert forall x :: x in n.roles <==> x in r.roles;
    assert forall id :: id in a <==> id == a[0] || id == a[1] || id == a[2];
    assert forall id :: id in c <==> id == c[0] || id == c[1] || id == c[2];
    assert r.keys.Keys == (n.keys.Keys - {a[0], a[1], a[2]}) + {c[0], c[1], c[2]};
    forall id | id in n.keys && id in p.keys && id !in c ensures n.keys[id] == p.keys[id] {
      assert id !in a && r.keys[id] == n.keys[id];
    }
  }

  lemma RootStep(p: Signed, n: Signed) returns (a: seq<KeyID>, c: seq<KeyID>)
    requires RootSuccessor(p, n)
    ensures RootSwap(p, n, a, c)
  {
    a, c := n.roles[RootRole].keyIds, p.roles[RootRole].keyIds;
    RestoredRoot(p, n, a, c);
  }

  lemma RootKeys(p: Signed, n: Signed, a: seq<KeyID>, c: seq<KeyID>)
    requires |p.keys| == 6 && RootSwap(p, n, a, c) && c[0] != c[1] && c[0] != c[2] && c[1] != c[2]
    ensures c[0] !in n.keys && c[1] !in n.keys && c[2] !in n.keys
    ensures forall id :: id in n.keys <==> (id in p.keys && id !in c) || id in a
  {
    assert forall id :: id in a <==> id == a[0] || id == a[1] || id == a[2];
    assert forall id :: id in c <==> id == c[0] || id == c[1] || id == c[2];
    assert |{c[0], c[1], c[2]}| == 3 && |{a[0], a[1], a[2]}| == 3;
    SwapKeys(n.keys.Keys, p.keys.Keys, {a[0], a[1], a[2]}, {c[0], c[1], c[2]});
  }

  lemma RootShape(p: Signed, n: Signed, a: seq<KeyID>, c: seq<KeyID>)
    requires WellShaped(p) && RootSwap(p, n, a, c)
    requires forall id :: id in n.keys <==> (id in p.keys && id !in c) || id in a
    ensures WellShaped(n)
  {
    var t, s, m := p.roles[TargetsRole].keyIds[0], p.roles[SnapshotRole].keyIds[0], p.roles[TimestampRole].keyIds[0];
    RootIds(p.keys, n.keys, a, c, t, s, m);
    forall id | id in n.keys ensures ID(n.keys[id]) == id && n.keys[id].ed25519 {
      if id !in a { assert n.keys[id] == p.keys[id]; }
    }
  }

  lemma RootIds(p: map<KeyID, Key>, n: map<KeyID, Key>, a: seq<KeyID>, c: seq<KeyID>, t: KeyID, s: KeyID, m: KeyID)
    requires |a| == 3 && |c| == 3 && a[0] != a[1] && a[0] != a[2] && a[1] != a[2]
    requires p.Keys == {c[0], c[1], c[2], t, s, m} && SixDistinct(c[0], c[1], c[2], t, s, m)
    requires forall id :: id in a ==> id !in p
    requires forall id :: id in n <==> (id in p && id !in c) || id in a
    ensures n.Keys == {a[0], a[1], a[2], t, s, m} && SixDistinct(a[0], a[1], a[2], t, s, m)
  {
    assert forall id :: id in a <==> id == a[0] || id == a[1] || id == a[2];
    assert forall id :: id in c <==> id == c[0] || id == c[1] || id == c[2];
  }

  lemma RootRotates(p: Signed, n: Signed, a: seq<KeyID>, c: seq<KeyID>)
    requires RootSwap(p, n, a, c) && p.roles.Keys == {RootRole, TargetsRole, SnapshotRole, TimestampRole}
    requires c[0] !in n.keys && c[1] !in n.keys && c[2] !in n.keys
    ensures Rotates(p, n, RootGroup)
  {
    assert forall id :: id in c <==> id == c[0] || id == c[1] || id == c[2];
    assert Replaced(p, n, RootRole);
  }

  lemma RootOutcome(p: Signed, n: Signed, a: seq<KeyID>, c: seq<KeyID>)
    requires WellShaped(p) && RootSwap(p, n, a, c)
    ensures WellShaped(n) && Rotates(p, n, RootGroup)
  {
    SixKeys(p);
    RootKeys(p, n, a, c);
    RootShape(p, n, a, c);
    RootRotates(p, n, a, c);
  }

  /** The rotated group determines the classification: no root rotates two groups. */
  lemma GroupsExclude(p: Signed, n: Signed, g: Group, h: Group)
    requires WellShaped(p) && WellShaped(n) && Rotates(p, n, g) && Rotates(p, n, h)
    ensures g == h
  {
    assert p.roles[TargetsRole].keyIds[0] in p.roles[TargetsRole].keyIds;
    assert p.roles[SnapshotRole].keyIds[0] in p.roles[SnapshotRole].keyIds;
    assert p.roles[RootRole].keyIds[0] in p.roles[RootRole].keyIds;
    assert Moves(p, n, TargetsRole, g) && Moves(p, n, TargetsRole, h) && Moves(p, n, SnapshotRole, g) &&
           Moves(p, n, SnapshotRole, h) && Moves(p, n, RootRole, g) && Moves(p, n, RootRole, h);
  }

  /**
    Every accepted successor of a well-shaped root has the four roles; it is well shaped,
    and rotates exactly the group it is classified as, if and only if it does not give one
    key to both online roles.
   */
  lemma SuccessorKeepsShape(p: Signed, n: Signed)
    requires WellShaped(p) && SuccessorGroup(p, n).Some?
    ensures WellShapedRoles(n)
    ensures WellShaped(n) <==> !SharedOnlineKey(n)
    ensures Rotates(p, n, SuccessorGroup(p, n).value) <==> !SharedOnlineKey(n)
  {
    match SuccessorGroup(p, n).value
    case Online => OnlineStep(p, n);
    case TargetsGroup =>
      var a, c := TargetsSuccessor(p, n);
      TargetsOutcome(p, n, a, c);
    case RootGroup =>
      var a, c := RootStep(p, n);
      RootOutcome(p, n, a, c);
  }
}
