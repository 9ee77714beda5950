/**
  internal/omega/rotation_store.go, rotation_roots.go, root_rotation.go,
  membership_rotation.go and operator_keys.go: prepared rotations, the chain of roots they
  form, and which generation of private keys is in force. A private key is represented by
  its public key, and a digest by the value it digests.
 */
module Rotation {
  import opened Wrappers
  import opened RootMeta
  import opened Successor

  const MAX_ROOT_VERSION := 64

  datatype KeyName = Root1 | Root2 | Root3 | TargetsKeyName | SnapshotKeyName | TimestampKeyName

  datatype Mode = Disposable | Production | OtherMode
  datatype Custody = Plain | Encrypted | OtherCustody

  datatype Intent = Intent(
    schema: int,
    mode: Mode,
    fingerprint: int,
    rootVersion: int,
    previousRoot: Root,
    created: Option<int>,
    keys: map<Role, Key>,           // schema 1 embeds the online private keys
    custody: Custody,
    onlineKeys: map<Role, Key>,     // schema 4 names the public online keys only
    keyDigests: map<KeyName, bool>, // whether each recorded key-file digest is well formed
    targetsKey: Option<Key>,        // schema 2
    rootKeys: map<KeyName, Key>,    // schema 3
    rootExpires: Option<int>)
  {
    /** rotation_roots.go:176 */
    function PublicKey(role: Role): Option<Key> {
      if schema == 4 then (if role in onlineKeys then Some(onlineKeys[role]) else None)
      else if schema == 2 && role == TargetsRole && targetsKey.Some? then targetsKey
      else if role in keys then Some(keys[role]) else None
    }

    function Group(): Group {
      if schema == 3 then RootGroup else if schema == 2 then TargetsGroup else Online
    }

    predicate FreshKey(previous: Signed, role: Role) {
      PublicKey(role).Some? && PublicKey(role).value.ed25519 && ID(PublicKey(role).value) !in previous.keys
    }

    function DigestNames(): set<KeyName> {
      if schema == 2 then {TargetsKeyName} else if schema == 3 then {Root1, Root2, Root3}
      else {SnapshotKeyName, TimestampKeyName}
    }

    /** rotation_roots.go:111-133 */
    predicate CustodyValid() {
      if custody == Encrypted then
        && schema != 1 && |keys| == 0
        && |keyDigests| == (if schema == 2 then 1 else if schema == 3 then 3 else 2)
        && |onlineKeys| == (if schema == 4 then 2 else 0)
        && (forall n :: n in DigestNames() ==> n in keyDigests && keyDigests[n])
      else
        custody == Plain && mode == Disposable && schema != 4 && |onlineKeys| == 0 && |keyDigests| == 0
    }

    /** root_rotation.go:41 */
    predicate RootKeysValid(previous: Signed) {
      && |rootKeys| == 3 && Root1 in rootKeys && Root2 in rootKeys && Root3 in rootKeys
      && rootKeys[Root1] != rootKeys[Root2] && rootKeys[Root1] != rootKeys[Root3] && rootKeys[Root2] != rootKeys[Root3]
      && forall n :: n in rootKeys ==> rootKeys[n].ed25519 && ID(rootKeys[n]) !in previous.keys
    }

    /** rotation_roots.go:100 */
    predicate Valid(fp: int, previous: Root, version: int) {
      && 1 <= schema <= 4 && mode != OtherMode && fingerprint == fp
      && rootVersion == version && 2 <= version <= MAX_ROOT_VERSION && previousRoot == previous && created.Some?
      && (schema == 1 ==> |keys| == 2 && targetsKey.None?)
      && (schema == 4 ==> |keys| == 0 && targetsKey.None?)
      && (schema == 2 ==> |keys| == 0 && targetsKey.Some?)
      && (schema != 3 ==> |rootKeys| == 0 && rootExpires.None?)
      && (schema == 3 ==> |keys| == 0 && targetsKey.None? && |rootKeys| == 3)
      && CustodyValid()
      && (schema == 3 ==> rootExpires == Some(RootExpiry(previous.signed.expires, created.value)) &&
                          RootKeysValid(previous.signed))
      && (schema == 2 ==> FreshKey(previous.signed, TargetsRole))
      && (schema == 1 || schema == 4 ==>
            && FreshKey(previous.signed, SnapshotRole) && FreshKey(previous.signed, TimestampRole)
            && PublicKey(SnapshotRole).value != PublicKey(TimestampRole).value)
    }
  }

  datatype Record = Record(schema: int, fingerprint: int, rootVersion: int, intent: Intent, root: Root)

  predicate GroupSuccessor(previous: Signed, next: Signed, group: Group) {
    match group
    case Online => RoleSuccessor(previous, next, [SnapshotRole, TimestampRole])
    case TargetsGroup => RoleSuccessor(previous, next, [TargetsRole])
    case RootGroup => RootSuccessor(previous, next)
  }

  /** rotation_roots.go:230-255: the root carries exactly the prepared keys. */
  predicate CarriesKeys(intent: Intent, next: Signed) {
    && (intent.schema == 3 ==>
          && intent.rootExpires == Some(next.expires)
          && forall n :: n in intent.rootKeys ==> At(next.keys, ID(intent.rootKeys[n])) == Some(intent.rootKeys[n]))
    && (intent.schema == 2 ==> CarriesKey(intent, next, TargetsRole))
    && (intent.schema == 1 || intent.schema == 4 ==>
          CarriesKey(intent, next, SnapshotRole) && CarriesKey(intent, next, TimestampRole))
  }

  function At(keys: map<KeyID, Key>, id: KeyID): Option<Key> {
    if id in keys then Some(keys[id]) else None
  }

  predicate CarriesKey(intent: Intent, next: Signed, role: Role) {
    && intent.PublicKey(role).Some? && role in next.roles
    && |next.roles[role].keyIds| > 0 && next.roles[role].keyIds[0] == ID(intent.PublicKey(role).value)
  }

  /** rotation_roots.go:217 */
  predicate RecordValid(r: Record, fp: int, previous: Root, intent: Intent) {
    && r.schema == 1 && r.fingerprint == fp && r.rootVersion == intent.rootVersion && r.intent == intent
    && Delegates(previous.signed, RootRole, previous.sigs) && UpdatesRoot(previous, r.root)
    && GroupSuccessor(previous.signed, r.root.signed, intent.Group())
    && CarriesKeys(intent, r.root.signed)
  }

  /** rotation_roots.go:194: what reading both durable records of a root version accepts. */
  predicate ReadRotation(r: Record, fp: int, previous: Root, version: int) {
    r.intent.Valid(fp, previous, version) && RecordValid(r, fp, previous, r.intent)
  }

  /**
    `roots` is the bundled root followed by the roots of a release; `rotations` are the
    durable records of versions 2, 3, ... that were accepted one after the other.
   */
  ghost predicate Chain(fp: int, roots: seq<Root>, rotations: seq<Record>) {
    && |roots| == |rotations| + 1
    && forall i {:trigger rotations[i]} :: 0 <= i < |rotations| ==>
         ReadRotation(rotations[i], fp, roots[i], i + 2) && rotations[i].root == roots[i + 1]
  }

  /** One accepted rotation of a well-shaped root: the shape stays and only its group moves. */
  lemma RotationStep(r: Record, fp: int, previous: Root, version: int)
    requires WellShaped(previous.signed) && ReadRotation(r, fp, previous, version)
    ensures WellShaped(r.root.signed)
    ensures Rotates(previous.signed, r.root.signed, r.intent.Group())
    ensures SuccessorGroup(previous.signed, r.root.signed) == Some(r.intent.Group())
  {
    var p, n := previous.signed, r.root.signed;
    match r.intent.Group()
    case Online =>
      OnlineStep(p, n);
      assert r.intent.schema == 1 || r.intent.schema == 4;
      assert !SharedOnlineKey(n);
    case TargetsGroup =>
      var a, c := TargetsSuccessor(p, n);
      TargetsOutcome(p, n, a, c);
      if RoleSuccessor(p, n, [SnapshotRole, TimestampRole]) {
        OnlineStep(p, n);
        GroupsExclude(p, n, Online, TargetsGroup);
      }
    case RootGroup =>
      var a, c := RootStep(p, n);
      RootOutcome(p, n, a, c);
      if RoleSuccessor(p, n, [SnapshotRole, TimestampRole]) {
        OnlineStep(p, n);
        GroupsExclude(p, n, Online, RootGroup);
      }
      if RoleSuccessor(p, n, [TargetsRole]) {
        var b, d := TargetsSuccessor(p, n);
        TargetsOutcome(p, n, b, d);
        GroupsExclude(p, n, TargetsGroup, RootGroup);
      }
  }

  lemma ChainStep(r: Record, fp: int, previous: Root, version: int)
    requires WellShaped(previous.signed) && ReadRotation(r, fp, previous, version)
    ensures WellShaped(r.root.signed)
    ensures r.root.signed.version == previous.signed.version + 1 && r.root.signed.expires >= previous.signed.expires
  {
    RotationStep(r, fp, previous, version);
  }

  /** Along every accepted chain, every root keeps the shape and numbers are consecutive. */
  lemma {:induction false} ChainKeepsShape(fp: int, roots: seq<Root>, rotations: seq<Record>, i: nat)
    requires Chain(fp, roots, rotations) && WellShaped(roots[0].signed) && i <= |rotations|
    ensures WellShaped(roots[i].signed)
    ensures roots[i].signed.version == roots[0].signed.version + i && roots[i].signed.expires >= roots[0].signed.expires
  {
    if i > 0 {
      ChainKeepsShape(fp, roots, rotations, i - 1);
      ChainStep(rotations[i - 1], fp, roots[i - 1], i + 1);
    }
  }

  /** rotation_store.go:164-175 for one role with one key. */
  function SwapRole(s: Signed, role: Role, k: Key): Option<Signed> {
    if role !in s.roles || s.roles[role].keyIds == [] then None
    else
      var revoked := RevokeKey(s, s.roles[role].keyIds[0], role);
      if revoked.None? then None else AddKey(revoked.value, k, role)
  }

  lemma SwapRoleEffect(s: Signed, role: Role, k: Key)
    requires role in s.roles && |s.roles[role].keyIds| == 1 && s.roles[role].keyIds[0] != ID(k)
    requires forall r :: r in s.roles && r != role ==> s.roles[role].keyIds[0] !in s.roles[r].keyIds
    ensures SwapRole(s, role, k) ==
      Some(s.(roles := s.roles[role := s.roles[role].(keyIds := [ID(k)])],
              keys := (s.keys - {s.roles[role].keyIds[0]})[ID(k) := k]))
  {
    var id := s.roles[role].keyIds[0];
    assert s.roles[role].keyIds == [id];
    assert Drop([id], id) == [];
    var revoked := RevokeKey(s, id, role).value;
    assert revoked.roles[role].keyIds == [] && revoked.keys == s.keys - {id};
    var added := AddKey(revoked, k, role).value;
    assert added.roles[role].keyIds == [ID(k)];
    assert added.roles == s.roles[role := s.roles[role].(keyIds := [ID(k)])];
  }

  ghost predicate DistinctRootIds(s: Signed) {
    && RootRole in s.roles && |s.roles[RootRole].keyIds| == 3
    && (forall q, id :: q in s.roles && q != RootRole && id in s.roles[RootRole].keyIds ==> id !in s.roles[q].keyIds)
    && var ids := s.roles[RootRole].keyIds; ids[0] != ids[1] && ids[0] != ids[2] && ids[1] != ids[2]
  }

  /** rotation_store.go:152-156: revoke the old root quorum, key by key. */
  method RevokeQuorum(s: Signed) returns (r: Option<Signed>)
    requires DistinctRootIds(s)
    ensures r == Some(s.(roles := s.roles[RootRole := s.roles[RootRole].(keyIds := [])],
                         keys := s.keys - IdSet(s.roles[RootRole].keyIds)))
  {
    var ids := s.roles[RootRole].keyIds;
    var out := s;
    for i := 0 to |ids|
      invariant out == s.(roles := s.roles[RootRole := s.roles[RootRole].(keyIds := ids[i..])],
                          keys := s.keys - IdSet(ids[..i]))
    {
      RevokeOne(s, out, ids, i);
      var next := RevokeKey(out, ids[i], RootRole);
      if next.None? { return None; }
      out := next.value;
    }
    assert ids[|ids|..] == [] && ids[..|ids|] == ids;
    r := Some(out);
  }

  lemma RevokeOne(s: Signed, out: Signed, ids: seq<KeyID>, i: nat)
    requires DistinctRootIds(s) && ids == s.roles[RootRole].keyIds && i < |ids|
    requires out == s.(roles := s.roles[RootRole := s.roles[RootRole].(keyIds := ids[i..])], keys := s.keys - IdSet(ids[..i]))
    ensures RevokeKey(out, ids[i], RootRole) ==
      Some(s.(roles := s.roles[RootRole := s.roles[RootRole].(keyIds := ids[i + 1..])], keys := s.keys - IdSet(ids[..i + 1])))
  {
    assert ids[i..] == [ids[i]] + ids[i + 1..];
    DropHead(ids[i], ids[i + 1..]);
    var roles := s.roles[RootRole := s.roles[RootRole].(keyIds := ids[i + 1..])];
    assert out.roles[RootRole := out.roles[RootRole].(keyIds := ids[i + 1..])] == roles;
    forall q | q in roles ensures ids[i] !in roles[q].keyIds { assert ids[i] in s.roles[RootRole].keyIds; }
    RevokedIds(s.keys, ids, i);
  }

  lemma RevokedIds(keys: map<KeyID, Key>, ids: seq<KeyID>, i: nat)
    requires i < |ids|
    ensures (keys - IdSet(ids[..i])) - {ids[i]} == keys - IdSet(ids[..i + 1])
  {
    assert ids[..i + 1] == ids[..i] + [ids[i]];
    assert IdSet(ids[..i + 1]) == IdSet(ids[..i]) + {ids[i]};
  }

  /** rotation_store.go:157-161: add the three keys of the prepared root quorum. */
  method AddQuorum(s: Signed, k: Key, l: Key, m: Key) returns (r: Option<Signed>)
    requires RootRole in s.roles && s.roles[RootRole].keyIds == []
    requires k != l && k != m && l != m
    ensures r == Some(s.(roles := s.roles[RootRole := s.roles[RootRole].(keyIds := [ID(k), ID(l), ID(m)])],
                         keys := s.keys + map[ID(k) := k, ID(l) := l, ID(m) := m]))
  {
    var one := AddKey(s, k, RootRole);
    if one.None? { return None; }
    var two := AddKey(one.value, l, RootRole);
    if two.None? { return None; }
    r := AddKey(two.value, m, RootRole);
    AddKeyEffect(s, k, []);
    AddKeyEffect(one.value, l, [ID(k)]);
    AddKeyEffect(two.value, m, [ID(k)] + [ID(l)]);
    QuorumKeys(s.keys, k, l, m);
    Overwritten(s.roles, RootRole, one.value.roles[RootRole], two.value.roles[RootRole], r.value.roles[RootRole]);
    assert [ID(k)] + [ID(l)] + [ID(m)] == [ID(k), ID(l), ID(m)];
  }

  lemma AddKeyEffect(s: Signed, k: Key, ids: seq<KeyID>)
    requires RootRole in s.roles && s.roles[RootRole].keyIds == ids && ID(k) !in ids
    ensures AddKey(s, k, RootRole) ==
      Some(s.(roles := s.roles[RootRole := s.roles[RootRole].(keyIds := ids + [ID(k)])], keys := s.keys[ID(k) := k]))
  {
  }

  lemma Overwritten<K, V>(m: map<K, V>, k: K, a: V, b: V, c: V)
    ensures m[k := a][k := b][k := c] == m[k := c]
  {
  }

  lemma QuorumKeys(keys: map<KeyID, Key>, k: Key, l: Key, m: Key)
    ensures keys[ID(k) := k][ID(l) := l][ID(m) := m] == keys + map[ID(k) := k, ID(l) := l, ID(m) := m]
  {
  }

  lemma DropHead(id: KeyID, rest: seq<KeyID>)
    requires id !in rest
    ensures Drop([id] + rest, id) == rest
  {
    assert ([id] + rest)[1..] == rest;
    DropAbsent(id, rest);
  }

  lemma DropAbsent(id: KeyID, ids: seq<KeyID>)
    requires id !in ids
    ensures Drop(ids, id) == ids
  {
    if ids != [] {
      assert ids[0] in ids && forall x :: x in ids[1..] ==> x in ids;
      DropAbsent(id, ids[1..]);
    }
  }

  lemma BuiltTargets(p: Signed, n: Signed, k: Key)
    requires WellShaped(p) && k.ed25519 && ID(k) !in p.keys
    requires SwapRole(p.(version := p.version + 1), TargetsRole, k) == Some(n)
    ensures RoleSuccessor(p, n, [TargetsRole]) && n.roles[TargetsRole].keyIds == [ID(k)]
  {
    var c := p.roles[TargetsRole].keyIds[0];
    OwnKey(p, TargetsRole);
    SixKeys(p);
    SwapRoleEffect(p.(version := p.version + 1), TargetsRole, k);
    TargetsRestored(p, n, k, c);
  }

  lemma TargetsRestored(p: Signed, n: Signed, k: Key, c: KeyID)
    requires TargetsRole in p.roles && p.roles[TargetsRole] == Assignment([c], 1) && c in p.keys && |p.keys| == 6
    requires k.ed25519 && ID(k) !in p.keys
    requires n == p.(version := p.version + 1, roles := p.roles[TargetsRole := p.roles[TargetsRole].(keyIds := [ID(k)])],
                     keys := (p.keys - {c})[ID(k) := k])
    ensures RoleSuccessor(p, n, [TargetsRole])
  {
    assert n.keys.Keys == (p.keys.Keys - {c}) + {ID(k)};
    SwapCount(p.keys.Keys, {c}, {ID(k)});
    assert [TargetsRole][..0] == [];
    assert FreshSingleKey(p, n, TargetsRole);
    var back := Restore(n, p, n, TargetsRole);
    assert RestoreAll(n, p, n, [TargetsRole]) == back;
    assert back.roles == p.roles;
    assert back.keys == p.keys;
  }

  lemma OnlineBuilt(p: Signed, n: Signed, k: Key, l: Key)
    requires WellShaped(p) && k != l && ID(k) !in p.keys && ID(l) !in p.keys
    requires SwapRole(p.(version := p.version + 1), SnapshotRole, k).Some?
    requires SwapRole(SwapRole(p.(version := p.version + 1), SnapshotRole, k).value, TimestampRole, l) == Some(n)
    ensures var c, d := p.roles[SnapshotRole].keyIds[0], p.roles[TimestampRole].keyIds[0];
      n == p.(version := p.version + 1,
              roles := p.roles[SnapshotRole := Assignment([ID(k)], 1)][TimestampRole := Assignment([ID(l)], 1)],
              keys := ((p.keys - {c})[ID(k) := k] - {d})[ID(l) := l])
  {
    var s := p.(version := p.version + 1);
    OwnKey(p, SnapshotRole);
    OwnKey(p, TimestampRole);
    SwapRoleEffect(s, SnapshotRole, k);
    SecondSwap(p, SwapRole(s, SnapshotRole, k).value, k, l);
  }

  /** A role with one key shares it with no other role. */
  lemma OwnKey(p: Signed, role: Role)
    requires WellShaped(p) && role != RootRole
    ensures role in p.roles && |p.roles[role].keyIds| == 1 && p.roles[role].keyIds[0] in p.keys && p.roles[role].threshold == 1
    ensures forall r :: r in p.roles && r != role ==> p.roles[role].keyIds[0] !in p.roles[r].keyIds
  {
  }

  lemma SecondSwap(p: Signed, m: Signed, k: Key, l: Key)
    requires SnapshotRole in p.roles && TimestampRole in p.roles && k != l
    requires |p.roles[SnapshotRole].keyIds| == 1 && |p.roles[TimestampRole].keyIds| == 1
    requires p.roles[SnapshotRole].threshold == 1 && p.roles[TimestampRole].threshold == 1
    requires p.roles[TimestampRole].keyIds[0] in p.keys && ID(k) !in p.keys && ID(l) !in p.keys
    requires forall r :: r in p.roles && r != TimestampRole ==> p.roles[TimestampRole].keyIds[0] !in p.roles[r].keyIds
    requires m == p.(version := p.version + 1,
                     roles := p.roles[SnapshotRole := p.roles[SnapshotRole].(keyIds := [ID(k)])],
                     keys := (p.keys - {p.roles[SnapshotRole].keyIds[0]})[ID(k) := k])
    ensures SwapRole(m, TimestampRole, l) ==
      Some(m.(roles := p.roles[SnapshotRole := Assignment([ID(k)], 1)][TimestampRole := Assignment([ID(l)], 1)],
              keys := (m.keys - {p.roles[TimestampRole].keyIds[0]})[ID(l) := l]))
  {
    SwapRoleEffect(m, TimestampRole, l);
  }

  lemma OnlineRestored(p: Signed, n: Signed, k: Key, l: Key, c: KeyID, d: KeyID)
    requires SnapshotRole in p.roles && TimestampRole in p.roles && k != l && c != d
    requires p.roles[SnapshotRole] == Assignment([c], 1) && p.roles[TimestampRole] == Assignment([d], 1)
    requires c in p.keys && d in p.keys && ID(k) !in p.keys && ID(l) !in p.keys && k.ed25519 && l.ed25519
    requires n == p.(version := p.version + 1,
                     roles := p.roles[SnapshotRole := Assignment([ID(k)], 1)][TimestampRole := Assignment([ID(l)], 1)],
                     keys := ((p.keys - {c})[ID(k) := k] - {d})[ID(l) := l])
    requires |n.keys| == 6
    ensures RoleSuccessor(p, n, [SnapshotRole, TimestampRole])
  {
    var roles := [SnapshotRole, TimestampRole];
    assert roles[..1] == [SnapshotRole] && [SnapshotRole][..0] == [];
    assert FreshSingleKey(p, n, SnapshotRole) && FreshSingleKey(p, n, TimestampRole);
    var one := Restore(n, p, n, SnapshotRole);
    var two := Restore(one, p, n, TimestampRole);
    assert RestoreAll(n, p, n, [SnapshotRole]) == one;
    assert RestoreAll(n, p, n, roles) == two;
    assert two.roles == p.roles;
    assert two.keys == p.keys;
  }

  lemma SwapCount<T>(all: set<T>, gone: set<T>, added: set<T>)
    requires gone <= all && added !! all && |gone| == |added|
    ensures |(all - gone) + added| == |all|
  {
    assert all == (all - gone) + gone;
  }

  /** The facts about the online roles that a rotation of them relies on. */
  lemma OnlineFacts(p: Signed) returns (c: KeyID, d: KeyID)
    requires WellShaped(p)
    ensures SnapshotRole in p.roles && TimestampRole in p.roles && c != d && c in p.keys && d in p.keys && |p.keys| == 6
    ensures p.roles[SnapshotRole] == Assignment([c], 1) && p.roles[TimestampRole] == Assignment([d], 1)
  {
    c, d := p.roles[SnapshotRole].keyIds[0], p.roles[TimestampRole].keyIds[0];
    SixKeys(p);
  }

  lemma OnlineCount(p: Signed, n: Signed, k: Key, l: Key, c: KeyID, d: KeyID)
    requires k != l && c != d && c in p.keys && d in p.keys && ID(k) !in p.keys && ID(l) !in p.keys && |p.keys| == 6
    requires n.keys == ((p.keys - {c})[ID(k) := k] - {d})[ID(l) := l]
    ensures |n.keys| == 6
  {
    assert n.keys.Keys == (p.keys.Keys - {c, d}) + {ID(k), ID(l)};
    assert |{c, d}| == 2 && |{ID(k), ID(l)}| == 2;
    SwapCount(p.keys.Keys, {c, d}, {ID(k), ID(l)});
  }

  lemma BuiltOnline(p: Signed, n: Signed, k: Key, l: Key)
    requires WellShaped(p) && k != l && k.ed25519 && l.ed25519 && ID(k) !in p.keys && ID(l) !in p.keys
    requires SwapRole(p.(version := p.version + 1), SnapshotRole, k).Some?
    requires SwapRole(SwapRole(p.(version := p.version + 1), SnapshotRole, k).value, TimestampRole, l) == Some(n)
    ensures RoleSuccessor(p, n, [SnapshotRole, TimestampRole])
  {
    OnlineBuilt(p, n, k, l);
    var c, d := OnlineFacts(p);
    OnlineCount(p, n, k, l, c, d);
    OnlineRestored(p, n, k, l, c, d);
  }

  lemma RootRestored(p: Signed, n: Signed, k: Key, l: Key, m: Key, c: seq<KeyID>)
    requires RootRole in p.roles && p.roles[RootRole].keyIds == c && k != l && k != m && l != m
    requires forall id :: id in c ==> id in p.keys
    requires ID(k) !in p.keys && ID(l) !in p.keys && ID(m) !in p.keys
    requires RootRole in n.roles && n.roles[RootRole].keyIds == [ID(k), ID(l), ID(m)]
    requires n.keys == (p.keys - IdSet(c)) + map[ID(k) := k, ID(l) := l, ID(m) := m]
    ensures (n.keys - IdSet(n.roles[RootRole].keyIds)) + Keep(p.keys, c) == p.keys
  {
    var back := (n.keys - IdSet(n.roles[RootRole].keyIds)) + Keep(p.keys, c);
    assert forall id :: id in n.roles[RootRole].keyIds <==> id == ID(k) || id == ID(l) || id == ID(m);
    assert back.Keys == p.keys.Keys;
    assert forall id :: id in p.keys ==> back[id] == p.keys[id];
  }

  lemma RootFacts(p: Signed)
    requires WellShaped(p)
    ensures DistinctRootIds(p) && |p.keys| == 6 && RootQuorum(p)
    ensures forall id :: id in p.roles[RootRole].keyIds ==> id in p.keys
  {
    SixKeys(p);
    var c := p.roles[RootRole].keyIds;
    assert forall id :: id in c <==> id == c[0] || id == c[1] || id == c[2];
  }

  lemma BuiltRoot(p: Signed, n: Signed, k: Key, l: Key, m: Key, c: seq<KeyID>)
    requires RootQuorum(p) && c == p.roles[RootRole].keyIds && |p.keys| == 6
    requires c[0] != c[1] && c[0] != c[2] && c[1] != c[2] && forall id :: id in c ==> id in p.keys
    requires k != l && k != m && l != m
    requires k.ed25519 && l.ed25519 && m.ed25519 && ID(k) !in p.keys && ID(l) !in p.keys && ID(m) !in p.keys
    requires n.version == p.version + 1 && n.expires > p.expires && n.policy == p.policy
    requires n.roles == p.roles[RootRole := Assignment([ID(k), ID(l), ID(m)], 2)]
    requires n.keys == (p.keys - IdSet(c)) + map[ID(k) := k, ID(l) := l, ID(m) := m]
    ensures RootSuccessor(p, n)
  {
    RootCount(p.keys, n.keys, k, l, m, c);
    BuiltFresh(p, n, k, l, m, p.keys - IdSet(c));
    RootRestored(p, n, k, l, m, c);
    RootAssembled(p, n, [ID(k), ID(l), ID(m)], c);
  }

  lemma RootAssembled(p: Signed, n: Signed, a: seq<KeyID>, c: seq<KeyID>)
    requires RootQuorum(p) && c == p.roles[RootRole].keyIds && |n.keys| == 6 && |a| == 3
    requires n.version == p.version + 1 && n.expires > p.expires && n.policy == p.policy
    requires n.roles == p.roles[RootRole := Assignment(a, 2)] && forall id :: id in c ==> id in p.keys
    requires FreshRootKeys(p, n, a) && (n.keys - IdSet(a)) + Keep(p.keys, c) == p.keys
    ensures RootSuccessor(p, n)
  {
    UndoUpdate(p.roles, RootRole, Assignment(a, 2));
  }

  lemma BuiltFresh(p: Signed, n: Signed, k: Key, l: Key, m: Key, rest: map<KeyID, Key>)
    requires k != l && k != m && l != m && k.ed25519 && l.ed25519 && m.ed25519
    requires ID(k) !in p.keys && ID(l) !in p.keys && ID(m) !in p.keys
    requires n.keys == rest + map[ID(k) := k, ID(l) := l, ID(m) := m]
    ensures FreshRootKeys(p, n, [ID(k), ID(l), ID(m)])
  {
    assert n.keys[ID(k)] == k && n.keys[ID(l)] == l && n.keys[ID(m)] == m;
  }

  lemma UndoUpdate<K, V>(m: map<K, V>, k: K, v: V)
    requires k in m
    ensures m[k := v][k := m[k]] == m
  {
  }

  lemma RootCount(p: map<KeyID, Key>, n: map<KeyID, Key>, k: Key, l: Key, m: Key, c: seq<KeyID>)
    requires |c| == 3 && c[0] != c[1] && c[0] != c[2] && c[1] != c[2] && forall id :: id in c ==> id in p
    requires k != l && k != m && l != m && ID(k) !in p && ID(l) !in p && ID(m) !in p
    requires n == (p - IdSet(c)) + map[ID(k) := k, ID(l) := l, ID(m) := m]
    ensures |n| == |p|
  {
    assert IdSet(c) == {c[0], c[1], c[2]};
    var added := {ID(k), ID(l), ID(m)};
    assert n.Keys == (p.Keys - IdSet(c)) + added;
    assert |{c[0], c[1], c[2]}| == 3 && |added| == 3;
    SwapCount(p.Keys, IdSet(c), added);
  }

  method BuildRootSuccessor(p: Signed, k: Key, l: Key, m: Key, expires: int) returns (r: Option<Signed>)
    requires DistinctRootIds(p) && |p.keys| == 6 && RootQuorum(p) && expires > p.expires
    requires forall id :: id in p.roles[RootRole].keyIds ==> id in p.keys
    requires k != l && k != m && l != m
    requires k.ed25519 && l.ed25519 && m.ed25519 && ID(k) !in p.keys && ID(l) !in p.keys && ID(m) !in p.keys
    ensures r.Some? && RootSuccessor(p, r.value) && r.value.expires == expires
    ensures At(r.value.keys, ID(k)) == Some(k) && At(r.value.keys, ID(l)) == Some(l) && At(r.value.keys, ID(m)) == Some(m)
  {
    r := RevokeQuorum(p.(version := p.version + 1));
    r := AddQuorum(r.value, k, l, m);
    r := Some(r.value.(expires := expires));
    assert r.value.roles == p.roles[RootRole := Assignment([ID(k), ID(l), ID(m)], 2)];
    BuiltRoot(p, r.value, k, l, m, p.roles[RootRole].keyIds);
  }

  method BuildTargetsSuccessor(p: Signed, k: Key) returns (r: Option<Signed>)
    requires WellShaped(p) && k.ed25519 && ID(k) !in p.keys
    ensures r.Some? && RoleSuccessor(p, r.value, [TargetsRole])
    ensures TargetsRole in r.value.roles && r.value.roles[TargetsRole].keyIds == [ID(k)]
  {
    OwnKey(p, TargetsRole);
    SwapRoleEffect(p.(version := p.version + 1), TargetsRole, k);
    r := SwapRole(p.(version := p.version + 1), TargetsRole, k);
    BuiltTargets(p, r.value, k);
  }

  lemma TargetsIntent(intent: Intent, fp: int, previous: Root, version: int)
    requires intent.Valid(fp, previous, version) && intent.schema == 2
    ensures var k := intent.PublicKey(TargetsRole);
      k.Some? && k.value.ed25519 && ID(k.value) !in previous.signed.keys
  {
  }

  lemma OnlineSwaps(p: Signed, k: Key, l: Key)
    requires WellShaped(p) && ID(k) !in p.keys && ID(l) !in p.keys && k != l
    ensures var m := SwapRole(p.(version := p.version + 1), SnapshotRole, k);
      m.Some? && SwapRole(m.value, TimestampRole, l).Some?
  {
    var s := p.(version := p.version + 1);
    SwapRoleEffect(s, SnapshotRole, k);
    assert p.roles[TimestampRole].keyIds[0] in p.keys;
    SwapRoleEffect(SwapRole(s, SnapshotRole, k).value, TimestampRole, l);
  }

  method BuildOnlineSuccessor(p: Signed, k: Key, l: Key) returns (r: Option<Signed>)
    requires WellShaped(p) && k != l && k.ed25519 && l.ed25519 && ID(k) !in p.keys && ID(l) !in p.keys
    ensures r.Some? && RoleSuccessor(p, r.value, [SnapshotRole, TimestampRole])
    ensures SnapshotRole in r.value.roles && TimestampRole in r.value.roles
    ensures r.value.roles[SnapshotRole].keyIds == [ID(k)] && r.value.roles[TimestampRole].keyIds == [ID(l)]
  {
    OnlineSwaps(p, k, l);
    var m := SwapRole(p.(version := p.version + 1), SnapshotRole, k);
    r := SwapRole(m.value, TimestampRole, l);
    OnlineBuilt(p, r.value, k, l);
    BuiltOnline(p, r.value, k, l);
  }

  lemma OnlineIntent(intent: Intent, fp: int, previous: Root, version: int)
    requires intent.Valid(fp, previous, version) && (intent.schema == 1 || intent.schema == 4)
    ensures var k, l := intent.PublicKey(SnapshotRole), intent.PublicKey(TimestampRole);
      && k.Some? && l.Some? && k.value.ed25519 && l.value.ed25519 && k.value != l.value
      && ID(k.value) !in previous.signed.keys && ID(l.value) !in previous.signed.keys
  {
  }

  /** rotation_store.go:145-175: the unsigned successor an intent describes. */
  method BuildSuccessor(previous: Root, intent: Intent, fp: int) returns (r: Option<Signed>)
    requires WellShaped(previous.signed) && intent.Valid(fp, previous, previous.signed.version + 1)
    ensures r.Some? && GroupSuccessor(previous.signed, r.value, intent.Group()) && CarriesKeys(intent, r.value)
  {
    if intent.schema == 3 {
      r := BuildFromRootIntent(previous, intent, fp);
    } else if intent.schema == 2 {
      TargetsIntent(intent, fp, previous, previous.signed.version + 1);
      r := BuildTargetsSuccessor(previous.signed, intent.PublicKey(TargetsRole).value);
    } else {
      OnlineIntent(intent, fp, previous, previous.signed.version + 1);
      r := BuildOnlineSuccessor(previous.signed, intent.PublicKey(SnapshotRole).value, intent.PublicKey(TimestampRole).value);
    }
  }

  lemma RootIntent(intent: Intent, fp: int, previous: Root, version: int)
    requires intent.Valid(fp, previous, version) && intent.schema == 3
    ensures intent.rootKeys.Keys == {Root1, Root2, Root3} && intent.rootExpires.Some?
    ensures intent.RootKeysValid(previous.signed) && intent.rootExpires.value > previous.signed.expires
  {
    ThreeNames(intent);
  }

  method BuildFromRootIntent(previous: Root, intent: Intent, fp: int) returns (r: Option<Signed>)
    requires WellShaped(previous.signed) && intent.Valid(fp, previous, previous.signed.version + 1) && intent.schema == 3
    ensures r.Some? && RootSuccessor(previous.signed, r.value) && CarriesKeys(intent, r.value)
  {
    RootFacts(previous.signed);
    RootIntent(intent, fp, previous, previous.signed.version + 1);
    r := BuildRootSuccessor(previous.signed, intent.rootKeys[Root1], intent.rootKeys[Root2], intent.rootKeys[Root3],
                            intent.rootExpires.value);
    RootCarries(intent, r.value);
  }

  lemma RootCarries(intent: Intent, next: Signed)
    requires intent.schema == 3 && intent.rootKeys.Keys == {Root1, Root2, Root3} && intent.rootExpires == Some(next.expires)
    requires At(next.keys, ID(intent.rootKeys[Root1])) == Some(intent.rootKeys[Root1])
    requires At(next.keys, ID(intent.rootKeys[Root2])) == Some(intent.rootKeys[Root2])
    requires At(next.keys, ID(intent.rootKeys[Root3])) == Some(intent.rootKeys[Root3])
    ensures CarriesKeys(intent, next)
  {
  }

  lemma ThreeNames(intent: Intent)
    requires |intent.rootKeys| == 3 && Root1 in intent.rootKeys && Root2 in intent.rootKeys && Root3 in intent.rootKeys
    ensures intent.rootKeys.Keys == {Root1, Root2, Root3}
  {
    var rest := intent.rootKeys.Keys - {Root1, Root2, Root3};
    assert intent.rootKeys.Keys == rest + {Root1, Root2, Root3};
    assert |intent.rootKeys.Keys| == |rest| + 3;
  }

  /** Distinct private keys of the root role. */
  ghost predicate RootSigners(s: Signed, ks: seq<Key>) {
    && RootRole in s.roles
    && (forall k :: k in ks ==> ID(k) in s.roles[RootRole].keyIds && At(s.keys, ID(k)) == Some(k))
    && (forall i, j :: 0 <= i < j < |ks| ==> ks[i] != ks[j])
  }

  lemma TwoSigners(s: Signed, sigs: set<Key>, k: Key, l: Key)
    requires RootQuorum(s) && forall id :: id in s.roles[RootRole].keyIds ==> id in s.keys
    requires RootSigners(s, [k, l]) && k in sigs && l in sigs
    ensures Delegates(s, RootRole, sigs)
  {
    var voting := set id | id in s.roles[RootRole].keyIds && s.keys[id] in sigs;
    assert [k, l][0] == k && [k, l][1] == l;
    assert k in [k, l] && l in [k, l];
    assert ID(k) in voting && ID(l) in voting;
    assert voting == {ID(k), ID(l)} + (voting - {ID(k), ID(l)});
    assert |{ID(k), ID(l)}| == 2;
  }

  /**
    rotation_store.go:145-222: sign the successor with two current root keys, and a root
    rotation with two prepared keys as well. What it commits is what every later reader
    accepts, and is classified as exactly the role its intent reserved.
   */
  method FinishRotation(previous: Root, intent: Intent, fp: int, current: seq<Key>, successors: seq<Key>)
    returns (r: Option<Record>)
    requires WellShaped(previous.signed) && Delegates(previous.signed, RootRole, previous.sigs)
    requires intent.Valid(fp, previous, previous.signed.version + 1)
    requires RootSigners(previous.signed, current)
    requires forall k :: k in successors ==> exists n :: n in intent.rootKeys && intent.rootKeys[n] == k
    requires forall i, j :: 0 <= i < j < |successors| ==> successors[i] != successors[j]
    ensures r.Some? <==> |current| >= 2 && (intent.schema == 3 ==> |successors| >= 2)
    ensures r.Some? ==> r.value.intent == intent && ReadRotation(r.value, fp, previous, previous.signed.version + 1)
    ensures r.Some? ==> WellShaped(r.value.root.signed)
    ensures r.Some? ==> SuccessorGroup(previous.signed, r.value.root.signed) == Some(intent.Group())
  {
    if |current| < 2 || (intent.schema == 3 && |successors| < 2) {
      return None;
    }
    var built := BuildSuccessor(previous, intent, fp);
    var next := built.value;
    var sigs := {current[0], current[1]};
    if intent.schema == 3 {
      sigs := sigs + {successors[0], successors[1]};
    }
    r := Some(Record(1, fp, intent.rootVersion, intent, Root(next, sigs)));
    FirstSigners(previous, intent, current, successors);
    if intent.schema == 3 {
      PreparedThreshold(previous, intent, fp, next, sigs, successors[0], successors[1]);
    }
    SignedRotation(previous, intent, fp, next, sigs, current[0], current[1]);
  }

  /** The first two signers of each kind are two different keys in force. */
  lemma FirstSigners(previous: Root, intent: Intent, current: seq<Key>, successors: seq<Key>)
    requires RootSigners(previous.signed, current) && |current| >= 2
    requires forall k :: k in successors ==> exists n :: n in intent.rootKeys && intent.rootKeys[n] == k
    ensures RootSigners(previous.signed, [current[0], current[1]])
    ensures |successors| >= 2 ==>
      && (exists n :: n in intent.rootKeys && intent.rootKeys[n] == successors[0])
      && (exists n :: n in intent.rootKeys && intent.rootKeys[n] == successors[1])
  {
    assert current[0] in current && current[1] in current;
    if |successors| >= 2 { assert successors[0] in successors && successors[1] in successors; }
  }

  lemma SignedRotation(previous: Root, intent: Intent, fp: int, next: Signed, sigs: set<Key>, k: Key, l: Key)
    requires WellShaped(previous.signed) && Delegates(previous.signed, RootRole, previous.sigs)
    requires intent.Valid(fp, previous, previous.signed.version + 1)
    requires GroupSuccessor(previous.signed, next, intent.Group()) && CarriesKeys(intent, next)
    requires RootSigners(previous.signed, [k, l]) && k in sigs && l in sigs
    requires intent.schema == 3 ==> Delegates(next, RootRole, sigs)
    ensures var r := Record(1, fp, intent.rootVersion, intent, Root(next, sigs));
      && ReadRotation(r, fp, previous, previous.signed.version + 1) && WellShaped(next)
      && SuccessorGroup(previous.signed, next) == Some(intent.Group())
  {
    var r := Record(1, fp, intent.rootVersion, intent, Root(next, sigs));
    RootFacts(previous.signed);
    TwoSigners(previous.signed, sigs, k, l);
    if intent.schema != 3 {
      KeptThreshold(previous, intent, fp, next, sigs, k, l);
    }
    assert RecordValid(r, fp, previous, intent);
    RotationStep(r, fp, previous, previous.signed.version + 1);
  }

  lemma PreparedThreshold(previous: Root, intent: Intent, fp: int, next: Signed, sigs: set<Key>, k: Key, l: Key)
    requires WellShaped(previous.signed) && intent.Valid(fp, previous, previous.signed.version + 1) && intent.schema == 3
    requires RootSuccessor(previous.signed, next) && CarriesKeys(intent, next)
    requires k != l && k in sigs && l in sigs
    requires exists n :: n in intent.rootKeys && intent.rootKeys[n] == k
    requires exists n :: n in intent.rootKeys && intent.rootKeys[n] == l
    ensures Delegates(next, RootRole, sigs)
  {
    var a, c := RootStep(previous.signed, next);
    RootIntent(intent, fp, previous, previous.signed.version + 1);
    RootRoleKeys(previous.signed, next, a, c, k);
    RootRoleKeys(previous.signed, next, a, c, l);
    TwoSigners(next, sigs, k, l);
  }

  lemma KeptThreshold(previous: Root, intent: Intent, fp: int, next: Signed, sigs: set<Key>, k: Key, l: Key)
    requires WellShaped(previous.signed) && intent.Valid(fp, previous, previous.signed.version + 1) && intent.schema != 3
    requires GroupSuccessor(previous.signed, next, intent.Group()) && CarriesKeys(intent, next)
    requires RootSigners(previous.signed, [k, l]) && k in sigs && l in sigs
    ensures Delegates(next, RootRole, sigs) && next.version == previous.signed.version + 1
  {
    SameRootRole(previous, intent, fp, next);
    TwoSigners(next, sigs, k, l);
  }

  /** A prepared key carried by a root successor is one of its root keys. */
  lemma RootRoleKeys(p: Signed, n: Signed, a: seq<KeyID>, c: seq<KeyID>, k: Key)
    requires WellShaped(p) && RootSwap(p, n, a, c) && At(n.keys, ID(k)) == Some(k) && ID(k) !in p.keys
    ensures ID(k) in n.roles[RootRole].keyIds && RootQuorum(n) && forall id :: id in a ==> id in n.keys
  {
    SixKeys(p);
    RootKeys(p, n, a, c);
  }

  lemma SameRootRole(previous: Root, intent: Intent, fp: int, next: Signed)
    requires WellShaped(previous.signed) && intent.Valid(fp, previous, previous.signed.version + 1)
    requires GroupSuccessor(previous.signed, next, intent.Group()) && CarriesKeys(intent, next) && intent.schema != 3
    ensures RootQuorum(next) && next.version == previous.signed.version + 1
    ensures next.roles[RootRole] == previous.signed.roles[RootRole]
    ensures forall id :: id in next.roles[RootRole].keyIds ==> At(next.keys, id) == At(previous.signed.keys, id) && id in next.keys
  {
    var p := previous.signed;
    if intent.schema == 2 {
      var a, c := TargetsSuccessor(p, next);
      TargetsOutcome(p, next, a, c);
    } else {
      OnlineStep(p, next);
    }
    assert Rotates(p, next, intent.Group());
    RootFacts(p);
    RootFacts(next);
  }
}
