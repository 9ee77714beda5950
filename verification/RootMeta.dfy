/**
  TUF root metadata as the omega code uses it, with the go-tuf operations it calls. A key
  ID is the hash of its key, modelled as an injective constructor; a signature is the key
  that made it.
 */
module RootMeta {
  import opened Wrappers

  datatype Key = Key(material: nat, ed25519: bool)
  datatype KeyID = KeyID(of: Key)

  datatype Role = RootRole | TargetsRole | SnapshotRole | TimestampRole

  datatype Assignment = Assignment(keyIds: seq<KeyID>, threshold: int)

  datatype Signed = Signed(
    version: int,
    expires: int,
    keys: map<KeyID, Key>,
    roles: map<Role, Assignment>,
    policy: int) // specification version, consistent snapshots and unrecognised fields

  datatype Root = Root(signed: Signed, sigs: set<Key>)

  function ID(k: Key): KeyID { KeyID(k) }

  function IdSet(ids: seq<KeyID>): set<KeyID> { set k | k in ids }

  function Drop(ids: seq<KeyID>, id: KeyID): (r: seq<KeyID>)
    ensures forall x :: x in r <==> x in ids && x != id
    ensures |r| <= |ids|
  {
    if ids == [] then []
    else if ids[0] == id then Drop(ids[1..], id)
    else
      var r := [ids[0]] + Drop(ids[1..], id);
      assert forall x :: x in ids <==> x == ids[0] || x in ids[1..];
      r
  }

  /** The key is deleted only when no role still uses it. */
  function RevokeKey(s: Signed, id: KeyID, role: Role): Option<Signed> {
    if role !in s.roles || id !in s.roles[role].keyIds then None
    else
      var roles := s.roles[role := s.roles[role].(keyIds := Drop(s.roles[role].keyIds, id))];
      if exists r :: r in roles && id in roles[r].keyIds then Some(s.(roles := roles))
      else Some(s.(roles := roles, keys := s.keys - {id}))
  }

  function AddKey(s: Signed, k: Key, role: Role): Option<Signed> {
    if role !in s.roles then None
    else
      var a := s.roles[role];
      var ids := if ID(k) in a.keyIds then a.keyIds else a.keyIds + [ID(k)];
      Some(s.(roles := s.roles[role := a.(keyIds := ids)], keys := s.keys[ID(k) := k]))
  }

  /** A role's signature threshold, as every step of sections 5.3 to 5.6 of TUF checks it. */
  predicate Delegates(s: Signed, role: Role, sigs: set<Key>) {
    && role in s.roles
    && (forall id :: id in s.roles[role].keyIds ==> id in s.keys)
    && |set id | id in s.roles[role].keyIds && s.keys[id] in sigs| >= s.roles[role].threshold
  }

  /** Section 5.3 of TUF: version N+1, signed by the old and by the new threshold. */
  predicate UpdatesRoot(old_: Root, next: Root) {
    && Delegates(old_.signed, RootRole, next.sigs)
    && next.signed.version == old_.signed.version + 1
    && Delegates(next.signed, RootRole, next.sigs)
  }

  predicate SingleKey(s: Signed, role: Role) {
    role in s.roles && s.roles[role].threshold == 1 && |s.roles[role].keyIds| == 1
  }

  predicate RootQuorum(s: Signed) {
    RootRole in s.roles && s.roles[RootRole].threshold == 2 && |s.roles[RootRole].keyIds| == 3
  }

  ghost predicate SixDistinct(a: KeyID, b: KeyID, c: KeyID, d: KeyID, e: KeyID, f: KeyID) {
    && a != b && a != c && a != d && a != e && a != f
    && b != c && b != d && b != e && b != f
    && c != d && c != e && c != f
    && d != e && d != f
    && e != f
  }

  /** Root 2-of-3, every other role 1-of-1, six distinct Ed25519 keys and no other key. */
  ghost predicate WellShaped(s: Signed) {
    && s.roles.Keys == {RootRole, TargetsRole, SnapshotRole, TimestampRole}
    && RootQuorum(s) && SingleKey(s, TargetsRole) && SingleKey(s, SnapshotRole) && SingleKey(s, TimestampRole)
    && (forall id :: id in s.keys ==> ID(s.keys[id]) == id && s.keys[id].ed25519)
    && var r, t, n, m := s.roles[RootRole].keyIds, s.roles[TargetsRole].keyIds[0], s.roles[SnapshotRole].keyIds[0],
                         s.roles[TimestampRole].keyIds[0];
       && SixDistinct(r[0], r[1], r[2], t, n, m)
       && s.keys.Keys == {r[0], r[1], r[2], t, n, m}
  }

  lemma SixKeys(s: Signed)
    requires WellShaped(s)
    ensures |s.keys| == 6
  {
    var r, t, n, m := s.roles[RootRole].keyIds, s.roles[TargetsRole].keyIds[0], s.roles[SnapshotRole].keyIds[0],
                      s.roles[TimestampRole].keyIds[0];
    assert |{r[0], r[1], r[2]}| == 3;
    assert |{r[0], r[1], r[2]} + {t}| == 4;
    assert |{r[0], r[1], r[2]} + {t} + {n}| == 5;
    assert |{r[0], r[1], r[2]} + {t} + {n} + {m}| == 6;
    assert s.keys.Keys == {r[0], r[1], r[2]} + {t} + {n} + {m};
  }
}
