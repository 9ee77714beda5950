/**
  internal/omega/rotation_roots.go, membership_rotation.go, root_rotation.go and
  operator_keys.go: scanning the rotation history for the private keys in force.
 */
module Generations {
  import opened Wrappers
  import opened RootMeta
  import opened Successor
  import opened Rotation
  import R = Release

  function OnlineKeys(intent: Intent): Option<map<Role, Key>> {
    var s, t := intent.PublicKey(SnapshotRole), intent.PublicKey(TimestampRole);
    if s.Some? && t.Some? then Some(map[SnapshotRole := s.value, TimestampRole := t.value]) else None
  }

  /** renewal_custody.go:64 */
  ghost predicate OnlineAuthorised(keys: map<Role, Key>, s: Signed) {
    && SnapshotRole in keys && TimestampRole in keys && SnapshotRole in s.roles && TimestampRole in s.roles
    && s.roles[SnapshotRole] == Assignment([ID(keys[SnapshotRole])], 1)
    && s.roles[TimestampRole] == Assignment([ID(keys[TimestampRole])], 1)
  }

  ghost predicate TargetsAuthorised(key: Key, s: Signed) {
    TargetsRole in s.roles && s.roles[TargetsRole] == Assignment([ID(key)], 1)
  }

  ghost predicate RootAuthorised(keys: map<KeyName, Key>, s: Signed) {
    && RootRole in s.roles && keys.Keys == {Root1, Root2, Root3}
    && IdSet(s.roles[RootRole].keyIds) == {ID(keys[Root1]), ID(keys[Root2]), ID(keys[Root3])}
  }

  lemma OnlineGeneration(r: Record, fp: int, p: Root, version: int)
    requires WellShaped(r.root.signed) && ReadRotation(r, fp, p, version) && (r.intent.schema == 1 || r.intent.schema == 4)
    ensures OnlineKeys(r.intent).Some? && OnlineAuthorised(OnlineKeys(r.intent).value, r.root.signed)
  {
  }

  lemma TargetsGeneration(r: Record, fp: int, p: Root, version: int)
    requires WellShaped(r.root.signed) && ReadRotation(r, fp, p, version) && r.intent.schema == 2
    ensures r.intent.targetsKey.Some? && TargetsAuthorised(r.intent.targetsKey.value, r.root.signed)
  {
  }

  lemma RootGeneration(r: Record, fp: int, p: Root, version: int)
    requires WellShaped(p.signed) && ReadRotation(r, fp, p, version) && r.intent.schema == 3
    ensures RootAuthorised(r.intent.rootKeys, r.root.signed)
  {
    var a, c := RootStep(p.signed, r.root.signed);
    RootIntent(r.intent, fp, p, version);
    var ks := r.intent.rootKeys;
    assert CarriesKeys(r.intent, r.root.signed) && r.intent.RootKeysValid(p.signed);
    RootQuorumKeys(p.signed, r.root.signed, a, c, ks);
  }

  lemma RootQuorumKeys(p: Signed, n: Signed, a: seq<KeyID>, c: seq<KeyID>, ks: map<KeyName, Key>)
    requires WellShaped(p) && RootSwap(p, n, a, c) && ks.Keys == {Root1, Root2, Root3}
    requires ks[Root1] != ks[Root2] && ks[Root1] != ks[Root3] && ks[Root2] != ks[Root3]
    requires forall m :: m in ks ==> At(n.keys, ID(ks[m])) == Some(ks[m]) && ID(ks[m]) !in p.keys
    ensures RootAuthorised(ks, n)
  {
    RootRoleKeys(p, n, a, c, ks[Root1]);
    RootRoleKeys(p, n, a, c, ks[Root2]);
    RootRoleKeys(p, n, a, c, ks[Root3]);
    ThreeOfThree(a, ID(ks[Root1]), ID(ks[Root2]), ID(ks[Root3]));
  }

  lemma ThreeOfThree(a: seq<KeyID>, x: KeyID, y: KeyID, z: KeyID)
    requires |a| == 3 && x in a && y in a && z in a && x != y && x != z && y != z
    ensures IdSet(a) == {x, y, z}
  {
    assert forall id :: id in a <==> id == a[0] || id == a[1] || id == a[2];
  }

  /** `t` assigns the roles of `group` exactly as `s` does. */
  ghost predicate SameGroup(s: Signed, t: Signed, group: Group) {
    forall r :: GroupOf(r) == group ==> r in s.roles && r in t.roles && s.roles[r] == t.roles[r]
  }

  /**
    What each scan relies on: a rotation leaves the other groups alone, and its intent names
    exactly the keys its own group ends up with.
   */
  ghost predicate Generation(p: Signed, n: Signed, intent: Intent) {
    && 1 <= intent.schema <= 4
    && (forall g :: g != intent.Group() ==> SameGroup(p, n, g))
    && (intent.Group() == Online ==> OnlineKeys(intent).Some? && OnlineAuthorised(OnlineKeys(intent).value, n))
    && (intent.Group() == TargetsGroup ==> intent.targetsKey.Some? && TargetsAuthorised(intent.targetsKey.value, n))
    && (intent.Group() == RootGroup ==> RootAuthorised(intent.rootKeys, n))
  }

  ghost predicate Generations(roots: seq<Root>, intents: seq<Intent>) {
    && |roots| == |intents| + 1
    && forall i {:trigger intents[i]} :: 0 <= i < |intents| ==> Generation(roots[i].signed, roots[i + 1].signed, intents[i])
  }

  lemma StepGeneration(r: Record, fp: int, p: Root, version: int)
    requires WellShaped(p.signed) && ReadRotation(r, fp, p, version)
    ensures Generation(p.signed, r.root.signed, r.intent)
  {
    RotationStep(r, fp, p, version);
    forall g | g != r.intent.Group() ensures SameGroup(p.signed, r.root.signed, g) {
      StepGroup(p.signed, r.root.signed, r.intent.Group(), g);
    }
    if r.intent.schema == 3 {
      RootGeneration(r, fp, p, version);
    } else if r.intent.schema == 2 {
      TargetsGeneration(r, fp, p, version);
    } else {
      OnlineGeneration(r, fp, p, version);
    }
  }

  lemma StepGroup(p: Signed, n: Signed, rotated: Group, group: Group)
    requires Rotates(p, n, rotated)
    ensures rotated != group ==> SameGroup(p, n, group)
  {
  }

  function Intents(rotations: seq<Record>): (intents: seq<Intent>)
    ensures |intents| == |rotations| && forall i :: 0 <= i < |rotations| ==> intents[i] == rotations[i].intent
  {
    seq(|rotations|, i requires 0 <= i < |rotations| => rotations[i].intent)
  }

  lemma ChainGenerations(fp: int, roots: seq<Root>, rotations: seq<Record>)
    requires Chain(fp, roots, rotations) && WellShaped(roots[0].signed)
    ensures Generations(roots, Intents(rotations))
  {
    forall i | 0 <= i < |rotations|
      ensures Generation(roots[i].signed, roots[i + 1].signed, Intents(rotations)[i])
    {
      ChainKeepsShape(fp, roots, rotations, i);
      StepGeneration(rotations[i], fp, roots[i], i + 2);
    }
  }

  /** rotation_roots.go:259 - newest first; the first-generation keys if no rotation replaced them. */
  method ActiveOnlineKeys(roots: seq<Root>, intents: seq<Intent>, initial: map<Role, Key>) returns (keys: map<Role, Key>)
    requires Generations(roots, intents) && OnlineAuthorised(initial, roots[0].signed)
    requires SameGroup(roots[|intents|].signed, roots[|intents|].signed, Online)
    ensures OnlineAuthorised(keys, roots[|intents|].signed)
  {
    for i := |intents| downto 0
      invariant SameGroup(roots[i].signed, roots[|intents|].signed, Online)
    {
      if intents[i].schema == 1 || intents[i].schema == 4 {
        return OnlineKeys(intents[i]).value;
      }
      assert SameGroup(roots[i].signed, roots[i + 1].signed, Online);
    }
    return initial;
  }

  /** membership_rotation.go:181 and operator_keys.go:187 - newest first. */
  method ActiveMembershipKey(roots: seq<Root>, intents: seq<Intent>, initial: Key) returns (key: Key)
    requires Generations(roots, intents) && TargetsAuthorised(initial, roots[0].signed)
    requires SameGroup(roots[|intents|].signed, roots[|intents|].signed, TargetsGroup)
    ensures TargetsAuthorised(key, roots[|intents|].signed)
  {
    for i := |intents| downto 0
      invariant SameGroup(roots[i].signed, roots[|intents|].signed, TargetsGroup)
    {
      if intents[i].schema == 2 {
        return intents[i].targetsKey.value;
      }
      assert SameGroup(roots[i].signed, roots[i + 1].signed, TargetsGroup);
    }
    return initial;
  }

  lemma RootAuthorityKept(keys: map<KeyName, Key>, s: Signed, t: Signed)
    requires RootAuthorised(keys, s) && SameGroup(s, t, RootGroup)
    ensures RootAuthorised(keys, t)
  {
    assert GroupOf(RootRole) == RootGroup;
  }

  /** root_rotation.go:191 and operator_keys.go:147 - oldest first, keeping the last generation seen. */
  method ActiveRootKeys(roots: seq<Root>, intents: seq<Intent>, initial: map<KeyName, Key>) returns (keys: map<KeyName, Key>)
    requires Generations(roots, intents) && RootAuthorised(initial, roots[0].signed)
    ensures RootAuthorised(keys, roots[|intents|].signed)
  {
    keys := initial;
    for i := 0 to |intents|
      invariant RootAuthorised(keys, roots[i].signed)
    {
      if intents[i].schema == 3 {
        keys := intents[i].rootKeys;
      } else {
        RootAuthorityKept(keys, roots[i].signed, roots[i + 1].signed);
      }
    }
  }

  /**
    The keys the three scans pick are exactly the keys the current root authorises, however
    often and in whatever order the roles were rotated.
   */
  method ActiveKeys(fp: int, roots: seq<Root>, rotations: seq<Record>, online: map<Role, Key>, membership: Key,
                    quorum: map<KeyName, Key>)
    returns (o: map<Role, Key>, t: Key, r: map<KeyName, Key>)
    requires Chain(fp, roots, rotations) && WellShaped(roots[0].signed)
    requires OnlineAuthorised(online, roots[0].signed) && TargetsAuthorised(membership, roots[0].signed)
    requires RootAuthorised(quorum, roots[0].signed)
    ensures OnlineAuthorised(o, roots[|rotations|].signed)
    ensures TargetsAuthorised(t, roots[|rotations|].signed)
    ensures RootAuthorised(r, roots[|rotations|].signed)
  {
    ChainGenerations(fp, roots, rotations);
    ChainKeepsShape(fp, roots, rotations, |rotations|);
    o := ActiveOnlineKeys(roots, Intents(rotations), online);
    t := ActiveMembershipKey(roots, Intents(rotations), membership);
    r := ActiveRootKeys(roots, Intents(rotations), quorum);
  }

  function Sample(n: nat): Key { Key(n, true) }
  function SampleID(n: nat): KeyID { ID(Sample(n)) }

  function SixKeyRoot(snapshot: nat, timestamp: nat, version: int, keys: map<KeyID, Key>): Signed {
    Signed(version, 0, keys,
           map[RootRole := Assignment([SampleID(1), SampleID(2), SampleID(3)], 2), TargetsRole := Assignment([SampleID(4)], 1),
               SnapshotRole := Assignment([SampleID(snapshot)], 1), TimestampRole := Assignment([SampleID(timestamp)], 1)], 0)
  }

  /**
    Without the prepared intent, the classification accepts a root that gives one fresh key
    to both online roles and keeps a retired key: two root keys sign it, it counts as an
    online rotation, and the chain of the bundled root and this one is trusted.
   */
  lemma SharedKeyAccepted(network: int, fingerprint: int) returns (p: Root, n: Root)
    ensures WellShaped(p.signed) && R.TrustedRoots(R.Bundle(network, fingerprint, p), [n])
    ensures SuccessorGroup(p.signed, n.signed) == Some(Online)
    ensures SampleID(5) in p.signed.roles[SnapshotRole].keyIds && SampleID(5) in n.signed.keys
    ensures !WellShaped(n.signed)
  {
    var kept := map[SampleID(1) := Sample(1), SampleID(2) := Sample(2), SampleID(3) := Sample(3), SampleID(4) := Sample(4),
                    SampleID(5) := Sample(5)];
    p := Root(SixKeyRoot(5, 6, 1, kept[SampleID(6) := Sample(6)]), {Sample(1), Sample(2)});
    n := Root(SixKeyRoot(7, 7, 2, kept[SampleID(7) := Sample(7)]), {Sample(1), Sample(2)});
    assert WellShaped(p.signed) by {
      assert p.signed.keys.Keys == {SampleID(1), SampleID(2), SampleID(3), SampleID(4), SampleID(5), SampleID(6)};
    }
    SharedKeySigned(p, n);
    SharedKeySuccessor(p.signed, n.signed, kept);
    OnlineStep(p.signed, n.signed);
    TrustedPair(R.Bundle(network, fingerprint, p), n);
  }

  lemma TrustedPair(b: R.Bundle, n: Root)
    requires Delegates(b.root.signed, RootRole, b.root.sigs) && UpdatesRoot(b.root, n)
    requires SuccessorGroup(b.root.signed, n.signed).Some?
    ensures R.TrustedRoots(b, [n])
  {
    assert [n][..0] == [];
    assert R.RootChain(b, []);
  }

  lemma SharedKeySigned(p: Root, n: Root)
    requires RootQuorum(p.signed) && RootQuorum(n.signed) && n.signed.version == p.signed.version + 1
    requires p.signed.roles[RootRole].keyIds == n.signed.roles[RootRole].keyIds == [SampleID(1), SampleID(2), SampleID(3)]
    requires forall i :: 1 <= i <= 3 ==> At(p.signed.keys, SampleID(i)) == At(n.signed.keys, SampleID(i)) == Some(Sample(i))
    requires n.sigs == p.sigs == {Sample(1), Sample(2)}
    ensures UpdatesRoot(p, n) && Delegates(p.signed, RootRole, p.sigs)
  {
    assert At(p.signed.keys, SampleID(1)) == At(n.signed.keys, SampleID(1)) == Some(Sample(1));
    assert At(p.signed.keys, SampleID(2)) == At(n.signed.keys, SampleID(2)) == Some(Sample(2));
    assert At(p.signed.keys, SampleID(3)) == At(n.signed.keys, SampleID(3)) == Some(Sample(3));
    assert [Sample(1), Sample(2)][0] != [Sample(1), Sample(2)][1];
    TwoSigners(p.signed, n.sigs, Sample(1), Sample(2));
    TwoSigners(n.signed, n.sigs, Sample(1), Sample(2));
  }

  lemma SharedKeySuccessor(p: Signed, n: Signed, kept: map<KeyID, Key>)
    requires WellShaped(p) && SampleID(5) in kept && SampleID(6) !in kept && SampleID(7) !in kept && kept[SampleID(5)] == Sample(5)
    requires p == SixKeyRoot(5, 6, 1, kept[SampleID(6) := Sample(6)])
    requires n == SixKeyRoot(7, 7, 2, kept[SampleID(7) := Sample(7)])
    ensures RoleSuccessor(p, n, [SnapshotRole, TimestampRole])
  {
    SixKeys(p);
    assert p.keys.Keys == kept.Keys + {SampleID(6)} && n.keys.Keys == kept.Keys + {SampleID(7)};
    SharedKeyRestored(p, n, kept);
  }

  lemma SharedKeyRestored(p: Signed, n: Signed, kept: map<KeyID, Key>)
    requires SampleID(5) in kept && SampleID(6) !in kept && SampleID(7) !in kept && kept[SampleID(5)] == Sample(5) && |n.keys| == 6
    requires p == SixKeyRoot(5, 6, 1, kept[SampleID(6) := Sample(6)])
    requires n == SixKeyRoot(7, 7, 2, kept[SampleID(7) := Sample(7)])
    ensures RoleSuccessor(p, n, [SnapshotRole, TimestampRole])
  {
    var roles := [SnapshotRole, TimestampRole];
    assert roles[..1] == [SnapshotRole] && [SnapshotRole][..0] == [];
    assert FreshSingleKey(p, n, SnapshotRole) && FreshSingleKey(p, n, TimestampRole);
    var one := Restore(n, p, n, SnapshotRole);
    assert one.keys == kept;
    var two := Restore(one, p, n, TimestampRole);
    assert RestoreAll(n, p, n, [SnapshotRole]) == one;
    assert RestoreAll(n, p, n, roles) == two;
    assert two.keys == p.keys;
    assert two.roles == p.roles;
  }
}
