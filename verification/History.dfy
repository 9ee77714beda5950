/**
  internal/omega/publication_store.go and vercel.go: the journal of releases as a whole -
  which sequences of releases are accepted, what every accepted one preserves, and the
  public objects it stands for.
 */
module History {
  import opened Wrappers
  import opened RootMeta
  import opened Release
  import Generations
  import Strings
  import Pagination

  /** publication_store.go:447-468: the checks on entry `k`, given everything before it. */
  predicate Entry(b: Bundle, h: seq<Release>, k: nat)
    requires k < |h|
  {
    && h[k].version == k + 1 && h[k].previous == (if k == 0 then None else Some(h[k - 1])) && ValidRelease(b, h[k])
    && (k == 0 ==> h[k].schema == 1)
    && (k > 0 ==> Follows(h[k], h[k - 1]))
  }

  predicate Accepted(b: Bundle, h: seq<Release>) {
    forall k {:trigger Entry(b, h, k)} :: 0 <= k < |h| ==> Entry(b, h, k)
  }

  /** File `k + 1` is entry `k` of `h`; `None` stands for a file that does not decode. */
  ghost predicate Read(files: map<int, Option<Release>>, h: seq<Release>) {
    forall k {:trigger h[k]} :: 0 <= k < |h| ==> FileIs(files, k + 1, h[k])
  }

  ghost predicate FileIs(files: map<int, Option<Release>>, n: int, r: Release) {
    n in files && files[n] == Some(r)
  }

  /** The release files of a journal are exactly the entries of `h`. */
  ghost predicate Holds(files: map<int, Option<Release>>, h: seq<Release>) {
    files.Keys == Numbers(|h|) && Read(files, h)
  }

  ghost function Numbers(n: nat): (s: set<int>)
    ensures |s| == n && forall i :: i in s <==> 1 <= i <= n
  {
    if n == 0 then {} else Numbers(n - 1) + {n}
  }

  /**
    publication_store.go:426 - reading the numbered files in order accepts exactly the
    contiguous, chained and valid histories, and returns what the files hold.
   */
  method LoadReleases(b: Bundle, files: map<int, Option<Release>>) returns (r: Option<seq<Release>>)
    ensures r.Some? ==> Accepted(b, r.value) && Holds(files, r.value)
    ensures r.None? ==> forall h :: Holds(files, h) ==> !Accepted(b, h)
  {
    var releases: seq<Release> := [];
    for i := 0 to |files|
      invariant |releases| == i && Accepted(b, releases) && Read(files, releases)
    {
      if i + 1 !in files || files[i + 1].None? {
        forall h ensures !Holds(files, h) {
          if Holds(files, h) { Held(files, h, i); }
        }
        return None;
      }
      var next := files[i + 1].value;
      if next.version != i + 1 || next.previous != (if i == 0 then None else Some(releases[i - 1])) ||
         !ValidRelease(b, next) || (i == 0 && next.schema != 1) || (i > 0 && !Follows(next, releases[i - 1])) {
        forall h | Holds(files, h) ensures !Accepted(b, h) {
          assert |h| == |files.Keys| && h[i] == next && (i > 0 ==> h[i - 1] == releases[i - 1]);
          assert !Entry(b, h, i);
        }
        return None;
      }
      AppendAccepted(b, releases, next);
      AppendRead(files, releases, next);
      releases := releases + [next];
    }
    LoadedAll(files, releases);
    r := Some(releases);
  }

  lemma Held(files: map<int, Option<Release>>, h: seq<Release>, i: nat)
    requires Holds(files, h) && i < |files|
    ensures i < |h| && i + 1 in files && files[i + 1] == Some(h[i])
  {
    assert |h| == |files.Keys|;
    var r := h[i];
  }

  lemma AppendRead(files: map<int, Option<Release>>, h: seq<Release>, r: Release)
    requires Read(files, h) && |h| + 1 in files && files[|h| + 1] == Some(r)
    ensures Read(files, h + [r])
  {
    var g := h + [r];
    forall k | 0 <= k < |g| ensures FileIs(files, k + 1, g[k]) {
      if k < |h| { assert g[k] == h[k]; }
    }
  }

  lemma LoadedAll(files: map<int, Option<Release>>, h: seq<Release>)
    requires |h| == |files| && Read(files, h)
    ensures Holds(files, h)
  {
    forall n | n in Numbers(|h|) ensures n in files.Keys {
      var r := h[n - 1];
      assert (n - 1) + 1 in files;
    }
    SubsetSameSize(Numbers(|h|), files.Keys);
  }

  lemma SubsetSameSize<T>(a: set<T>, b: set<T>)
    requires a <= b && |a| == |b|
    ensures a == b
  {
    assert b == a + (b - a);
    assert |b| == |a| + |b - a|;
  }

  /** What may be appended: exactly the valid releases that follow the last one. */
  lemma AppendAccepted(b: Bundle, h: seq<Release>, r: Release)
    requires Accepted(b, h)
    ensures Accepted(b, h + [r]) <==>
      && r.version == |h| + 1 && r.previous == (if h == [] then None else Some(h[|h| - 1])) && ValidRelease(b, r)
      && (if h == [] then r.schema == 1 else Follows(r, h[|h| - 1]))
  {
    var g := h + [r];
    forall k | 0 <= k < |h| ensures Entry(b, g, k) {
      assert Entry(b, h, k);
      assert g[k] == h[k] && (k > 0 ==> g[k - 1] == h[k - 1]);
    }
    assert Entry(b, g, |h|) <==>
      && r.version == |h| + 1 && r.previous == (if h == [] then None else Some(h[|h| - 1])) && ValidRelease(b, r)
      && (if h == [] then r.schema == 1 else Follows(r, h[|h| - 1]));
  }

  /** Within one release no document outlives the one that vouches for it. */
  lemma ExpiryOrder(b: Bundle, r: Release)
    requires ValidRelease(b, r)
    ensures r.timestamp.expires <= r.snapshot.expires <= r.targets.signed.expires
    ensures r.targets.signed.expires <= CurrentRoot(b, r.roots).signed.expires
    ensures r.targets.signed.expires <= r.ApprovalTime() + 90 * DAY
  {
    assert ExpiryValid(CurrentRoot(b, r.roots).signed.expires, r);
  }

  /** The last release up to `k` that carries an offline approval of its own. */
  function LastApproval(h: seq<Release>, k: nat): (j: nat)
    requires k < |h|
    ensures j <= k
  {
    if k == 0 || !h[k].Continues() then k else LastApproval(h, k - 1)
  }

  lemma {:induction false} LastApprovalApproves(b: Bundle, h: seq<Release>, k: nat)
    requires Accepted(b, h) && k < |h|
    ensures h[LastApproval(h, k)].schema in {1, 3, 6}
    ensures forall i :: LastApproval(h, k) < i <= k ==> h[i].schema in {2, 4, 5}
  {
    assert Entry(b, h, k);
    if k > 0 && h[k].Continues() {
      LastApprovalApproves(b, h, k - 1);
    }
  }

  /**
    However many renewals, online rotations and membership-key rotations follow an
    approval, the membership stays what was approved and no published expiry moves past
    ninety days after that approval.
   */
  lemma {:induction false} ApprovalPreserved(b: Bundle, h: seq<Release>, k: nat)
    requires Accepted(b, h) && k < |h|
    ensures var a, r := h[LastApproval(h, k)], h[k];
      && r.manifest == a.manifest && r.ApprovalTime() == a.created && a.created <= r.created
      && r.targets.signed.expires == a.targets.signed.expires
      && r.timestamp.expires <= r.snapshot.expires <= r.targets.signed.expires <= a.created + 90 * DAY
      && r.targets.signed.expires <= CurrentRoot(b, r.roots).signed.expires
  {
    assert Entry(b, h, k);
    ExpiryOrder(b, h[k]);
    if k > 0 && h[k].Continues() {
      ApprovalPreserved(b, h, k - 1);
    }
  }

  /** A root transition may extend the approval, but it never changes the membership. */
  lemma {:induction false} OnlyPublicationChangesManifest(b: Bundle, h: seq<Release>, i: nat, k: nat)
    requires Accepted(b, h) && i <= k < |h| && forall j :: i < j <= k ==> h[j].schema != 1 && h[j].schema != 3
    ensures h[k].manifest == h[i].manifest
  {
    if i < k {
      OnlyPublicationChangesManifest(b, h, i, k - 1);
      assert Entry(b, h, k);
    }
  }

  lemma {:induction false} RootsGrow(b: Bundle, h: seq<Release>, i: nat, k: nat)
    requires Accepted(b, h) && i <= k < |h|
    ensures h[i].roots <= h[k].roots && h[i].created <= h[k].created
  {
    if i < k {
      RootsGrow(b, h, i, k - 1);
      assert Entry(b, h, k);
    }
  }

  /** A targets file is always the one its own version was first published with. */
  lemma {:induction false} TargetsOrigin(b: Bundle, h: seq<Release>, k: nat)
    requires Accepted(b, h) && k < |h|
    ensures 1 <= h[k].TargetsVer() <= k + 1 && h[k].targets == h[h[k].TargetsVer() - 1].targets
  {
    TargetsStep(b, h, k);
    if k > 0 && h[k].IsRenewal() {
      TargetsOrigin(b, h, k - 1);
    }
  }

  lemma TargetsStep(b: Bundle, h: seq<Release>, k: nat)
    requires Accepted(b, h) && k < |h|
    ensures h[k].IsRenewal() ==> k > 0 && h[k].TargetsVer() == h[k - 1].TargetsVer() && h[k].targets == h[k - 1].targets
    ensures !h[k].IsRenewal() ==> h[k].TargetsVer() == k + 1
  {
    assert Entry(b, h, k);
  }

  datatype ObjectName = RootName(n: int) | ManifestName(m: Manifest) | TargetsName(n: int) | SnapshotName(n: int) | TimestampName

  datatype Bytes =
    | RootBytes(root: Root)
    | ManifestBytes(manifest: Manifest)
    | TargetsBytes(targets: TargetsFile)
    | SnapshotBytes(snapshot: SnapshotFile)
    | TimestampBytes(timestamp: TimestampFile)

  datatype Object = Object(name: ObjectName, data: Bytes)

  /** release.go:215 */
  function Objects(b: Bundle, r: Release): seq<Object> {
    [Object(RootName(1), RootBytes(b.root)), Object(ManifestName(r.manifest), ManifestBytes(r.manifest)),
     Object(TargetsName(r.TargetsVer()), TargetsBytes(r.targets)), Object(SnapshotName(r.version), SnapshotBytes(r.snapshot))]
    + RootObjects(r.roots)
  }

  function RootObjects(roots: seq<Root>): (objects: seq<Object>) {
    seq(|roots|, i requires 0 <= i < |roots| => Object(RootName(i + 2), RootBytes(roots[i])))
  }

  /** What a release publishes under each kind of name. */
  ghost predicate Publishes(b: Bundle, r: Release, o: Object) {
    match o.name
    case RootName(n) =>
      || (n == 1 && o.data == RootBytes(b.root))
      || (2 <= n < |r.roots| + 2 && o.data == RootBytes(r.roots[n - 2]))
    case ManifestName(m) => m == r.manifest && o.data == ManifestBytes(m)
    case TargetsName(n) => n == r.TargetsVer() && o.data == TargetsBytes(r.targets)
    case SnapshotName(n) => n == r.version && o.data == SnapshotBytes(r.snapshot)
    case TimestampName => false
  }

  /** A release's object list is exactly what it publishes: nothing else, and nothing left out. */
  lemma ObjectsOf(b: Bundle, r: Release, o: Object)
    ensures o in Objects(b, r) <==> Publishes(b, r, o)
  {
    var all := Objects(b, r);
    if o in all {
      var i :| 0 <= i < |all| && all[i] == o;
      if i >= 4 { assert o == RootObjects(r.roots)[i - 4]; }
    }
    if Publishes(b, r, o) {
      assert all[0].name == RootName(1) && all[1].name == ManifestName(r.manifest);
      assert all[2].name == TargetsName(r.TargetsVer()) && all[3].name == SnapshotName(r.version);
      if o.name.RootName? && o.name.n > 1 {
        assert all[o.name.n + 2] == RootObjects(r.roots)[o.name.n - 2];
      }
    }
  }

  lemma PublishesAgree(b: Bundle, r: Release, s: Release, o: Object, p: Object)
    requires Publishes(b, r, o) && Publishes(b, s, p) && o.name == p.name
    requires r.roots <= s.roots && (r.version == s.version ==> r == s)
    requires r.TargetsVer() == s.TargetsVer() ==> r.targets == s.targets
    ensures o.data == p.data
  {
  }

  /** Two releases of one accepted history never disagree about an object they both name. */
  lemma ObjectsAgree(b: Bundle, h: seq<Release>, i: nat, k: nat, o: Object, p: Object)
    requires Accepted(b, h) && i <= k < |h|
    requires o in Objects(b, h[i]) && p in Objects(b, h[k]) && o.name == p.name
    ensures o.data == p.data
  {
    ObjectsOf(b, h[i], o);
    ObjectsOf(b, h[k], p);
    SharedObjects(b, h, i, k);
    PublishesAgree(b, h[i], h[k], o, p);
  }

  lemma SharedObjects(b: Bundle, h: seq<Release>, i: nat, k: nat)
    requires Accepted(b, h) && i <= k < |h|
    ensures h[i].roots <= h[k].roots && (h[i].version == h[k].version ==> i == k)
    ensures h[i].TargetsVer() == h[k].TargetsVer() ==> h[i].targets == h[k].targets
  {
    assert h[i].version == i + 1 by { assert Entry(b, h, i); }
    assert h[k].version == k + 1 by { assert Entry(b, h, k); }
    RootsGrow(b, h, i, k);
    TargetsOrigin(b, h, i);
    TargetsOrigin(b, h, k);
  }

  ghost predicate Named(b: Bundle, h: seq<Release>, o: Object) {
    exists i :: 0 <= i < |h| && o in Objects(b, h[i])
  }

  ghost predicate Conflict(b: Bundle, h: seq<Release>) {
    exists o, p :: Named(b, h, o) && Named(b, h, p) && o.name == p.name && o.data != p.data
  }

  /** The map holds exactly the named objects. */
  ghost predicate Collects(all: map<ObjectName, Bytes>, b: Bundle, h: seq<Release>) {
    && (forall n :: n in all ==> Named(b, h, Object(n, all[n])))
    && (forall o :: Named(b, h, o) ==> o.name in all && all[o.name] == o.data)
  }

  /** vercel.go:269-279: collect every object, refusing two different contents for one name. */
  method CollectObjects(b: Bundle, h: seq<Release>) returns (all: Option<map<ObjectName, Bytes>>)
    ensures all.None? <==> Conflict(b, h)
    ensures all.Some? ==> Collects(all.value, b, h)
  {
    var found: map<ObjectName, Bytes> := map[];
    for i := 0 to |h|
      invariant Collects(found, b, h[..i])
    {
      var objects := Objects(b, h[i]);
      ghost var before := found;
      for j := 0 to |objects|
        invariant Gathered(found, b, h[..i], objects[..j])
      {
        if objects[j].name in found && found[objects[j].name] != objects[j].data {
          FoundConflict(found, b, h, i, objects, j);
          return None;
        }
        GatherOne(found, b, h[..i], objects, j);
        found := found[objects[j].name := objects[j].data];
      }
      GatheredRelease(found, b, h, i, objects);
    }
    assert h[..|h|] == h;
    NoConflict(found, b, h);
    all := Some(found);
  }

  ghost predicate Gathered(all: map<ObjectName, Bytes>, b: Bundle, h: seq<Release>, os: seq<Object>) {
    && (forall n :: n in all ==> Named(b, h, Object(n, all[n])) || Object(n, all[n]) in os)
    && (forall o :: Named(b, h, o) || o in os ==> o.name in all && all[o.name] == o.data)
  }

  lemma GatherOne(all: map<ObjectName, Bytes>, b: Bundle, h: seq<Release>, os: seq<Object>, j: nat)
    requires j < |os| && Gathered(all, b, h, os[..j])
    requires os[j].name in all ==> all[os[j].name] == os[j].data
    ensures Gathered(all[os[j].name := os[j].data], b, h, os[..j + 1])
  {
    var next := all[os[j].name := os[j].data];
    assert os[..j + 1] == os[..j] + [os[j]];
    forall n | n in next ensures Named(b, h, Object(n, next[n])) || Object(n, next[n]) in os[..j + 1] {
      if n == os[j].name {
        assert Object(n, next[n]) == os[j];
      }
    }
  }

  lemma GatheredRelease(all: map<ObjectName, Bytes>, b: Bundle, h: seq<Release>, i: nat, os: seq<Object>)
    requires i < |h| && os == Objects(b, h[i]) && Gathered(all, b, h[..i], os[..|os|])
    ensures Collects(all, b, h[..i + 1])
  {
    assert os[..|os|] == os;
    forall o ensures Named(b, h[..i + 1], o) <==> Named(b, h[..i], o) || o in os {
      NamedNext(b, h, i, o);
    }
    GatheredAll(all, b, h[..i], h[..i + 1], os);
  }

  lemma GatheredAll(all: map<ObjectName, Bytes>, b: Bundle, h: seq<Release>, g: seq<Release>, os: seq<Object>)
    requires Gathered(all, b, h, os) && forall o :: Named(b, g, o) <==> Named(b, h, o) || o in os
    ensures Collects(all, b, g)
  {
  }

  lemma NamedNext(b: Bundle, h: seq<Release>, i: nat, o: Object)
    requires i < |h|
    ensures Named(b, h[..i + 1], o) <==> Named(b, h[..i], o) || o in Objects(b, h[i])
  {
    assert h[..i + 1][i] == h[i];
    if Named(b, h[..i], o) {
      var k :| 0 <= k < i && o in Objects(b, h[..i][k]);
      assert h[..i + 1][k] == h[..i][k];
    }
    if Named(b, h[..i + 1], o) && o !in Objects(b, h[i]) {
      var k :| 0 <= k < i + 1 && o in Objects(b, h[..i + 1][k]);
      assert h[..i + 1][k] == h[..i][k];
    }
  }

  lemma FoundConflict(all: map<ObjectName, Bytes>, b: Bundle, h: seq<Release>, i: nat, os: seq<Object>, j: nat)
    requires i < |h| && os == Objects(b, h[i]) && j < |os| && Gathered(all, b, h[..i], os[..j])
    requires os[j].name in all && all[os[j].name] != os[j].data
    ensures Conflict(b, h)
  {
    var o := Object(os[j].name, all[os[j].name]);
    assert os[j] in Objects(b, h[i]);
    if Named(b, h[..i], o) {
      var k :| 0 <= k < i && o in Objects(b, h[..i][k]);
      assert h[..i][k] == h[k];
    } else {
      assert o in os;
    }
    assert Named(b, h, o) && Named(b, h, os[j]);
  }

  lemma NoConflict(all: map<ObjectName, Bytes>, b: Bundle, h: seq<Release>)
    requires Collects(all, b, h)
    ensures !Conflict(b, h)
  {
  }

  lemma AcceptedHasNoConflict(b: Bundle, h: seq<Release>)
    requires Accepted(b, h)
    ensures !Conflict(b, h)
  {
    if Conflict(b, h) {
      var o, p :| Named(b, h, o) && Named(b, h, p) && o.name == p.name && o.data != p.data;
      var i :| 0 <= i < |h| && o in Objects(b, h[i]);
      var k :| 0 <= k < |h| && p in Objects(b, h[k]);
      if i <= k {
        ObjectsAgree(b, h, i, k, o, p);
      } else {
        ObjectsAgree(b, h, k, i, p, o);
      }
    }
  }

  /** vercel.go:269-280: for an accepted history never a conflict; every object of every release, and the latest timestamp. */
  method RetainedBytes(b: Bundle, h: seq<Release>) returns (r: Option<map<ObjectName, Bytes>>)
    requires h != []
    ensures r.None? <==> Conflict(b, h)
    ensures Accepted(b, h) ==> r.Some?
    ensures r.Some? ==> forall n :: n in r.value ==>
      if n == TimestampName then r.value[n] == TimestampBytes(h[|h| - 1].timestamp) else Named(b, h, Object(n, r.value[n]))
    ensures r.Some? ==> TimestampName in r.value
    ensures r.Some? ==> forall i, o :: 0 <= i < |h| && o in Objects(b, h[i]) ==>
      o.name in r.value && r.value[o.name] == o.data
  {
    r := CollectObjects(b, h);
    if r.None? {
      if Accepted(b, h) { AcceptedHasNoConflict(b, h); }
      return;
    }
    ghost var all := r.value;
    forall i, o | 0 <= i < |h| && o in Objects(b, h[i])
      ensures o.name != TimestampName && o.name in all && all[o.name] == o.data
    {
      ObjectsOf(b, h[i], o);
      assert Named(b, h, o);
    }
    r := Some(r.value[TimestampName := TimestampBytes(h[|h| - 1].timestamp)]);
  }

  /** Retained are exactly the objects of the releases and the latest timestamp. */
  ghost predicate Retained(b: Bundle, h: seq<Release>, o: Object)
    requires h != []
  {
    if o.name == TimestampName then o.data == TimestampBytes(h[|h| - 1].timestamp) else Named(b, h, o)
  }

  /** A published file name belongs to one object only. */
  ghost predicate Injective(path: ObjectName -> string) { forall m, n :: path(m) == path(n) ==> m == n }

  /**
    vercel.go:269 - for an accepted history never a conflict: the result is the latest
    timestamp and every object of every release, each once, with its exact bytes, in the
    order of their file names.
   */
  method RetainedObjects(b: Bundle, h: seq<Release>, path: ObjectName -> string) returns (r: Option<seq<Object>>)
    requires h != [] && Injective(path)
    ensures r.None? <==> Conflict(b, h)
    ensures Accepted(b, h) ==> r.Some?
    ensures r.Some? ==> forall o :: o in r.value <==> Retained(b, h, o)
    ensures r.Some? ==> forall i, j :: 0 <= i < j < |r.value| ==> Strings.Less(path(r.value[i].name), path(r.value[j].name))
  {
    var all := RetainedBytes(b, h);
    if all.None? { return None; }
    var objects := SortObjects(all.value, path);
    forall o ensures o in objects <==> Retained(b, h, o) { RetainedAll(b, h, all.value, o); }
    r := Some(objects);
  }

  lemma RetainedAll(b: Bundle, h: seq<Release>, all: map<ObjectName, Bytes>, o: Object)
    requires h != [] && TimestampName in all
    requires forall n :: n in all ==>
      if n == TimestampName then all[n] == TimestampBytes(h[|h| - 1].timestamp) else Named(b, h, Object(n, all[n]))
    requires forall i, o :: 0 <= i < |h| && o in Objects(b, h[i]) ==> o.name in all && all[o.name] == o.data
    ensures o.name in all && all[o.name] == o.data <==> Retained(b, h, o)
  {
    if o.name in all { assert Object(o.name, all[o.name]) == o || all[o.name] != o.data; }
  }

  /** vercel.go:281-289: the names, sorted, and then the objects in that order. */
  method SortObjects(all: map<ObjectName, Bytes>, path: ObjectName -> string) returns (objects: seq<Object>)
    requires Injective(path)
    ensures forall o :: o in objects <==> o.name in all && all[o.name] == o.data
    ensures forall i, j :: 0 <= i < j < |objects| ==> Strings.Less(path(objects[i].name), path(objects[j].name))
  {
    var paths := set n | n in all :: path(n);
    var byPath := map n | n in all :: path(n) := n;
    var names := Pagination.Scan(paths);
    names := Pagination.Sort(names);
    objects := [];
    for i := 0 to |names|
      invariant |objects| == i
      invariant forall k :: 0 <= k < i ==> objects[k].name in all && path(objects[k].name) == names[k] &&
                                           objects[k].data == all[objects[k].name]
    {
      assert names[i] in names && names[i] in paths;
      objects := objects + [Object(byPath[names[i]], all[byPath[names[i]]])];
    }
    forall o: Object | o.name in all && all[o.name] == o.data ensures o in objects {
      assert path(o.name) in paths && path(o.name) in names;
      var k :| 0 <= k < |names| && names[k] == path(o.name);
      assert objects[k] == o;
    }
  }

  /** The online keys picked from the rotation history are signers the root accepts. */
  lemma AuthorisedSigners(keys: map<Role, Key>, s: Signed)
    requires WellShaped(s) && Generations.OnlineAuthorised(keys, s)
    ensures AcceptsSigner(s, keys, SnapshotRole) && AcceptsSigner(s, keys, TimestampRole)
  {
    AuthorisedSigner(keys, s, SnapshotRole);
    AuthorisedSigner(keys, s, TimestampRole);
  }

  lemma AuthorisedSigner(keys: map<Role, Key>, s: Signed, role: Role)
    requires WellShaped(s) && role in keys && role in s.roles && s.roles[role] == Assignment([ID(keys[role])], 1)
    ensures AcceptsSigner(s, keys, role)
  {
    var id := ID(keys[role]);
    SoleSigner(s, role, {keys[role]}, id);
  }

  lemma SoleSigner(s: Signed, role: Role, sigs: set<Key>, id: KeyID)
    requires role in s.roles && s.roles[role] == Assignment([id], 1) && id in s.keys && s.keys[id] in sigs
    ensures Delegates(s, role, sigs)
  {
    var voting := set x | x in s.roles[role].keyIds && s.keys[x] in sigs;
    assert id in s.roles[role].keyIds;
    assert voting == {id};
  }

  /**
    Renewal makes progress: an accepted history below the version limit can be extended at
    every time from its latest creation up to the end of the approval in force.
   */
  method Renew(keys: map<Role, Key>, b: Bundle, h: seq<Release>, now: int, days: int) returns (next: Option<seq<Release>>)
    requires Accepted(b, h) && h != []
    ensures next.Some? <==>
      && |h| < MAX_RELEASES && ValidDays(days) && now != ZERO_TIME
      && h[|h| - 1].created <= now < h[|h| - 1].targets.signed.expires
      && AcceptsSigner(CurrentRoot(b, h[|h| - 1].roots).signed, keys, SnapshotRole)
      && AcceptsSigner(CurrentRoot(b, h[|h| - 1].roots).signed, keys, TimestampRole)
    ensures next.Some? ==> |next.value| == |h| + 1 && h <= next.value && Accepted(b, next.value)
    ensures next.Some? ==> LastApproval(next.value, |h|) == LastApproval(h, |h| - 1)
  {
    assert Entry(b, h, |h| - 1);
    var r := PrepareRenewal(keys, b, h[|h| - 1], now, days);
    if r.None? { return None; }
    AppendAccepted(b, h, r.value);
    SameLastApproval(h, r.value, |h| - 1);
    next := Some(h + [r.value]);
  }

  lemma {:induction false} SameLastApproval(h: seq<Release>, r: Release, k: nat)
    requires k < |h|
    ensures LastApproval(h + [r], k) == LastApproval(h, k)
  {
    if k > 0 {
      SameLastApproval(h, r, k - 1);
    }
  }
}
