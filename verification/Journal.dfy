/**
  internal/omega/publication_store.go: the journal directory that the commands allocating
  releases share, what keeps it in order, and what power losses do to it.
 */
module Journal {
  import opened Wrappers
  import opened Disk
  import opened Install

  const MAX_RELEASES := 10000

  datatype Name = ReleaseName(v: nat) | RenewalName(v: nat) | ApplyName(v: nat) | HandoffName(v: nat)

  /** Signing is deterministic: a renewed or applied release is a function of its reservation. */
  datatype Record =
    | Approval(v: nat, manifest: nat, signed: nat)
    | Intent(v: nat, created: nat)
    | Apply(v: nat, created: nat, offline: bool) // `offline`: the transition needs a targets handoff
    | Handoff(v: nat, signed: nat)
    | Renewed(intent: Record)
    | Applied(apply: Record, handoff: Option<Record>)

  type JournalDir = Dir<Name>
  type Contents = map<nat, Content<Record>>
  type Journal = FS<Name, Record>

  function Release(v: nat): Entry<Name> { Final(ReleaseName(v)) }
  function Renewal(v: nat): Entry<Name> { Final(RenewalName(v)) }
  function Application(v: nat): Entry<Name> { Final(ApplyName(v)) }
  function Targets(v: nat): Entry<Name> { Final(HandoffName(v)) }

  predicate Either(d: JournalDir, e: Entry<Name>) { e in d || Pending(e) in d }

  predicate RenewalClaim(d: JournalDir, v: nat) { Either(d, Renewal(v)) }

  predicate ApplyClaim(d: JournalDir, v: nat) { Either(d, Application(v)) || Either(d, Targets(v)) }

  /** A release, finished or not, that no reservation accounts for is an offline approval. */
  predicate OfflineClaim(d: JournalDir, v: nat) {
    Either(d, Release(v)) && Renewal(v) !in d && Application(v) !in d
  }

  /** Where a file may stand: versions are contiguous and every signed file has its reservation. */
  ghost predicate Placed(d: JournalDir, n: Name) {
    && 1 <= n.v <= MAX_RELEASES && (n.v > 1 ==> Release(n.v - 1) in d)
    && match n
       case ReleaseName(v) => (RenewalClaim(d, v) ==> Renewal(v) in d) && (ApplyClaim(d, v) ==> Application(v) in d)
       case RenewalName(v) => v > 1 && !ApplyClaim(d, v)
       case ApplyName(v) => v > 1 && !RenewalClaim(d, v)
       case HandoffName(v) => Application(v) in d && !RenewalClaim(d, v)
  }

  ghost predicate Holds(d: JournalDir, data: Contents, e: Entry<Name>, rec: Record) {
    e in d && d[e] in data && data[d[e]] == Whole(rec)
  }

  /** What a complete file may say: a release is exactly what its reservation determines. */
  ghost predicate Says(d: JournalDir, data: Contents, n: Name, rec: Record) {
    match n
    case RenewalName(v) => rec.Intent? && rec.v == v
    case ApplyName(v) => rec.Apply? && rec.v == v
    case HandoffName(v) => rec.Handoff? && rec.v == v
    case ReleaseName(v) =>
      if Renewal(v) in d then rec.Renewed? && Holds(d, data, Renewal(v), rec.intent)
      else if Application(v) in d then
        && rec.Applied? && Holds(d, data, Application(v), rec.apply)
        && rec.apply.Apply? && rec.apply.offline == rec.handoff.Some?
        && (rec.handoff.Some? ==> Holds(d, data, Targets(v), rec.handoff.value))
      else rec.Approval? && rec.v == v
  }

  predicate NeedsOffline(c: Content<Record>) { c.Whole? && c.value.Apply? && c.value.offline }

  /** No release stands under an application that still lacks its offline signature. */
  ghost predicate Countersigned(d: JournalDir, data: Contents, n: Name) {
    n.ReleaseName? && Application(n.v) in d && d[Application(n.v)] in data && NeedsOffline(data[d[Application(n.v)]]) ==>
      Targets(n.v) in d
  }

  ghost predicate Fits(d: JournalDir, data: Contents, e: Entry<Name>)
    requires e in d
  {
    d[e] in data &&
    match e
    case Final(n) => Placed(d, n) && Countersigned(d, data, n) && data[d[e]].Whole? && Says(d, data, n, data[d[e]].value)
    case Pending(Final(n)) =>
      Placed(d, n) && Countersigned(d, data, n) && (data[d[e]].Whole? ==> Says(d, data, n, data[d[e]].value))
    case Pending(Pending(_)) => false
  }

  ghost predicate Good(d: JournalDir, data: Contents) {
    forall e :: e in d ==> Fits(d, data, e)
  }

  /** At most one of the three commands holds a version, and its files say so. */
  lemma GoodExclusive(d: JournalDir, data: Contents, v: nat)
    requires Good(d, data)
    ensures !(RenewalClaim(d, v) && ApplyClaim(d, v))
    ensures !(OfflineClaim(d, v) && RenewalClaim(d, v))
    ensures !(OfflineClaim(d, v) && ApplyClaim(d, v))
  {
    if RenewalClaim(d, v) {
      var e := if Renewal(v) in d then Renewal(v) else Pending(Renewal(v));
      assert Fits(d, data, e);
    }
    if Either(d, Release(v)) {
      var e := if Release(v) in d then Release(v) else Pending(Release(v));
      assert Fits(d, data, e);
    }
  }

  /** Nothing stands beyond the version after the last release, and no release is missing. */
  lemma {:induction false} GoodContiguous(d: JournalDir, data: Contents, n: Name, v: nat)
    requires Good(d, data) && Either(d, Final(n)) && 1 <= v < n.v
    ensures Release(v) in d
    decreases n.v - v
  {
    var e := if Final(n) in d then Final(n) else Pending(Final(n));
    assert Fits(d, data, e);
    if v < n.v - 1 {
      GoodContiguous(d, data, ReleaseName(n.v - 1), v);
    }
  }

  /** Everything that holds whenever a process can be killed. */
  ghost predicate Inv(s: Journal) {
    s.WF() && Sound(s) && (forall d :: d in s.log ==> Good(d, s.data)) && Lined(s)
  }

  /**
    How the directories since the last sync hang together: committed files never go away or
    change, nothing was signed before its reservation was on disk, and a file that was
    committed since has been seen under its temporary name.
   */
  ghost predicate Lined(s: Journal)
    requires s.WF()
  {
    (forall n :: Steady(s, n)) && (forall v :: Covered(s, v))
  }

  ghost predicate Steady(s: Journal, n: Name)
    requires s.WF()
  {
    && (forall d :: d in s.log && Final(n) in d ==> At(s.dir, Final(n)) == At(d, Final(n)))
    && (forall d :: d in s.log && Final(n) in s.log[0] ==> Final(n) in d)
    && (forall d, b :: d in s.log && b in s.log && Final(n) in d && Final(n) !in b ==> Appeared(s, n))
  }

  ghost predicate Covered(s: Journal, v: nat) { forall d, b :: d in s.log && b in s.log ==> Covers(d, b, v) }

  /** Whatever `d` shows as signed has its reservation in `b`. */
  ghost predicate Covers(d: JournalDir, b: JournalDir, v: nat) {
    && (Either(d, Release(v)) && Renewal(v) in d ==> Renewal(v) in b)
    && (Either(d, Release(v)) && Application(v) in d ==> Application(v) in b)
    && (Either(d, Release(v)) && Targets(v) in d ==> Targets(v) in b)
    && (Either(d, Targets(v)) ==> Application(v) in b)
  }

  ghost predicate Appeared(s: Journal, n: Name) { exists c :: c in s.log && Pending(Final(n)) in c }

  /** A directory that some power loss can leave behind. */
  ghost predicate Mix(s: Journal, m: JournalDir) {
    forall e :: Recalls(s.log, m, e)
  }

  /** What holds even if the power fails and directory entries persist in any order. */
  ghost predicate Robust(s: Journal) {
    forall m :: Mix(s, m) ==> Good(m, s.data)
  }

  predicate SyncedDir(s: Journal) { s.log == [s.dir] }

  // Installing one more file.

  /** The condition under which the commands install `rec` as `n`. */
  ghost predicate MayInstall(d: JournalDir, data: Contents, n: Name, rec: Record) {
    && Placed(d, n) && Countersigned(d, data, n) && Says(d, data, n, rec)
    && (!n.ReleaseName? ==> !Either(d, Release(n.v)))
  }

  /** `m` is `s.dir` with an install of `rec` as `n` in some stage of completion. */
  ghost predicate Underway(s: Journal, data: Contents, m: JournalDir, n: Name, rec: Record) {
    && SameBut(m, s.dir, {Final(n), Pending(Final(n))})
    && (Final(n) in m ==> Holds(m, data, Final(n), rec))
    && (Pending(Final(n)) in m ==>
          || At(m, Pending(Final(n))) == At(s.dir, Pending(Final(n)))
          || (m[Pending(Final(n))] in data && (data[m[Pending(Final(n))]].Whole? ==> data[m[Pending(Final(n))]] == Whole(rec))))
  }

  lemma SameEntry(s: Journal, m: JournalDir, n: Name, e: Entry<Name>)
    requires SameBut(m, s.dir, {Final(n), Pending(Final(n))}) && e != Final(n) && e != Pending(Final(n))
    ensures At(m, e) == At(s.dir, e) && (e in m <==> e in s.dir) && (e in m ==> m[e] == s.dir[e])
  {
    assert e !in {Final(n), Pending(Final(n))};
  }

  /** Installing adds at most the claim of `n` itself, and takes none away. */
  lemma SameClaims(s: Journal, m: JournalDir, n: Name, v: nat)
    requires SameBut(m, s.dir, {Final(n), Pending(Final(n))}) && Final(n) !in s.dir
    ensures n != RenewalName(v) ==> RenewalClaim(m, v) == RenewalClaim(s.dir, v) && At(m, Renewal(v)) == At(s.dir, Renewal(v))
    ensures n != ApplyName(v) && n != HandoffName(v) ==> ApplyClaim(m, v) == ApplyClaim(s.dir, v)
    ensures n != ApplyName(v) ==> At(m, Application(v)) == At(s.dir, Application(v))
    ensures n != HandoffName(v) ==> At(m, Targets(v)) == At(s.dir, Targets(v))
    ensures Release(v) in s.dir ==> Release(v) in m
  {
    if n != RenewalName(v) { SameEntry(s, m, n, Renewal(v)); SameEntry(s, m, n, Pending(Renewal(v))); }
    if n != ApplyName(v) { SameEntry(s, m, n, Application(v)); SameEntry(s, m, n, Pending(Application(v))); }
    if n != HandoffName(v) { SameEntry(s, m, n, Targets(v)); SameEntry(s, m, n, Pending(Targets(v))); }
    if n != ReleaseName(v) { SameEntry(s, m, n, Release(v)); }
  }

  function Base(e: Entry<Name>): (n: Name)
    ensures e.Final? || e.of.Final? ==> e == Final(n) || e == Pending(Final(n))
  {
    match e
    case Final(n) => n
    case Pending(x) => Base(x)
  }

  ghost predicate NameOf(e: Entry<Name>, n: Name) { e == Final(n) || e == Pending(Final(n)) }

  /** The file being installed keeps its place, and so does every other one. */
  lemma StaysPlaced(s: Journal, m: JournalDir, n: Name, rec: Record, k: Name, e: Entry<Name>)
    requires Good(s.dir, s.data) && MayInstall(s.dir, s.data, n, rec) && Final(n) !in s.dir
    requires SameBut(m, s.dir, {Final(n), Pending(Final(n))})
    requires if k == n then true else e in s.dir && NameOf(e, k)
    ensures Placed(m, k)
  {
    if k != n { assert Fits(s.dir, s.data, e); }
    assert Placed(s.dir, k);
    if Either(s.dir, Targets(k.v)) {
      assert Fits(s.dir, s.data, if Targets(k.v) in s.dir then Targets(k.v) else Pending(Targets(k.v)));
    }
    assert k != n ==> Either(s.dir, Final(k));
    PlacedStays(s, m, n, k);
  }

  lemma PlacedStays(s: Journal, m: JournalDir, n: Name, k: Name)
    requires Placed(s.dir, n) && Placed(s.dir, k) && Final(n) !in s.dir && (!n.ReleaseName? ==> !Either(s.dir, Release(n.v)))
    requires SameBut(m, s.dir, {Final(n), Pending(Final(n))})
    requires k != n ==> Either(s.dir, Final(k))
    requires Either(s.dir, Targets(k.v)) ==> Application(k.v) in s.dir
    ensures Placed(m, k)
  {
    SameClaims(s, m, n, k.v);
    if k.v > 1 { SameClaims(s, m, n, k.v - 1); }
  }

  lemma StaysSaid(s: Journal, data: Contents, m: JournalDir, n: Name, rec: Record, k: Name, said: Record)
    requires Says(s.dir, s.data, k, said) && Final(n) !in s.dir
    requires SameBut(m, s.dir, {Final(n), Pending(Final(n))})
    requires k.ReleaseName? ==> n != RenewalName(k.v) && n != ApplyName(k.v)
    requires forall i :: i in s.data ==> i in data && data[i] == s.data[i]
    ensures Says(m, data, k, said)
  {
    SameClaims(s, m, n, k.v);
  }

  lemma StaysCountersigned(s: Journal, data: Contents, m: JournalDir, n: Name, rec: Record, k: Name)
    requires s.WF() && Countersigned(s.dir, s.data, k) && Final(n) !in s.dir
    requires SameBut(m, s.dir, {Final(n), Pending(Final(n))})
    requires k.ReleaseName? ==> n != ApplyName(k.v)
    requires forall i :: i in s.data ==> i in data && data[i] == s.data[i]
    ensures Countersigned(m, data, k)
  {
    SameClaims(s, m, n, k.v);
    if Targets(k.v) in s.dir { SameEntry(s, m, n, Targets(k.v)); }
  }

  lemma InstallKeepsGood(s: Journal, data: Contents, m: JournalDir, n: Name, rec: Record)
    requires s.WF() && Good(s.dir, s.data) && MayInstall(s.dir, s.data, n, rec) && Final(n) !in s.dir
    requires forall i :: i in s.data ==> i in data && data[i] == s.data[i]
    requires Underway(s, data, m, n, rec)
    ensures Good(m, data)
  {
    forall e | e in m ensures Fits(m, data, e) {
      if NameOf(e, n) {
        StaysPlaced(s, m, n, rec, n, e);
        StaysCountersigned(s, data, m, n, rec, n);
        StaysSaid(s, data, m, n, rec, n, rec);
        if At(m, e) == At(s.dir, e) {
          assert Fits(s.dir, s.data, e);
          if s.data[s.dir[e]].Whole? {
            StaysSaid(s, data, m, n, rec, n, s.data[s.dir[e]].value);
          }
        }
      } else {
        SameEntry(s, m, n, e);
        OtherFits(s, data, m, n, rec, e);
      }
    }
  }

  lemma OtherFits(s: Journal, data: Contents, m: JournalDir, n: Name, rec: Record, e: Entry<Name>)
    requires s.WF() && Good(s.dir, s.data) && MayInstall(s.dir, s.data, n, rec) && Final(n) !in s.dir
    requires forall i :: i in s.data ==> i in data && data[i] == s.data[i]
    requires Underway(s, data, m, n, rec) && e in m && !NameOf(e, n) && At(m, e) == At(s.dir, e)
    ensures Fits(m, data, e)
  {
    assert e in s.dir && Fits(s.dir, s.data, e);
    var k := Base(e);
    assert k != n && NameOf(e, k);
    StaysPlaced(s, m, n, rec, k, e);
    if k.ReleaseName? {
      assert Either(s.dir, Release(k.v));
    }
    StaysCountersigned(s, data, m, n, rec, k);
    if s.data[s.dir[e]].Whole? {
      StaysSaid(s, data, m, n, rec, k, s.data[s.dir[e]].value);
    }
  }

  /** However far an install got, every directory it left behind is good. */
  lemma InstallKeepsInv(s: Journal, t: Journal, n: Name, rec: Record)
    requires Inv(s) && t.WF() && Sound(t) && Installing(s, t, Final(n), rec)
    requires Final(n) in s.dir || (MayInstall(s.dir, s.data, n, rec) && (Signed(s.dir, n) ==> SyncedDir(s)))
    ensures Inv(t)
    ensures SyncedDir(s) ==> Robust(t)
  {
    assert s.dir in s.log && Good(s.dir, s.data);
    if Final(n) in s.dir {
      if SyncedDir(s) { SyncedRobust(s); }
    } else {
      InstallKeepsLined(s, t, n, rec);
      forall d | d in t.log ensures Good(d, t.data) {
        if d in s.log {
          SameDataGood(d, s.data, t.data);
        } else {
          InstallKeepsGood(s, t.data, d, n, rec);
        }
      }
      if SyncedDir(s) {
        forall m | Mix(t, m) ensures Good(m, t.data) {
          MixUnderway(s, t, m, n, rec);
          InstallKeepsGood(s, t.data, m, n, rec);
        }
      }
    }
  }

  /** A file that is signed under a reservation. */
  predicate Signed(d: JournalDir, n: Name) {
    n.HandoffName? || (n.ReleaseName? && (Renewal(n.v) in d || Application(n.v) in d))
  }

  /** A directory since the last sync is an earlier one, or the last of those but for the two names of the install. */
  ghost predicate Later(s: Journal, d: JournalDir, n: Name) {
    d in s.log || SameBut(d, s.dir, {Final(n), Pending(Final(n))})
  }

  lemma LoggedDirs(s: Journal, t: Journal, n: Name)
    requires s.WF() && t.WF() && Lined(s) && Logged(s, t, Final(n)) && Final(n) !in s.dir
    ensures forall d :: d in t.log ==> Later(s, d, n)
    ensures forall d :: d in t.log && Final(n) in d ==> At(t.dir, Final(n)) == At(d, Final(n))
    ensures s.log <= t.log || forall d :: d in t.log ==> SameBut(d, s.dir, {Final(n), Pending(Final(n))}) && Final(n) in d
    ensures forall d, b :: d in t.log && b in t.log && Final(n) in d && Final(n) !in b ==> Pending(Final(n)) in d
  {
    assert Steady(s, n);
    forall d | d in t.log
      ensures Later(s, d, n) && (Final(n) in d ==> At(t.dir, Final(n)) == At(d, Final(n)))
      ensures forall b :: b in t.log && Final(n) in d && Final(n) !in b ==> Pending(Final(n)) in d
    {
      var i :| 0 <= i < |t.log| && t.log[i] == d;
      if s.log <= t.log && i < |s.log| { assert s.log[i] == d && d in s.log; }
    }
  }

  lemma SameFinals(s: Journal, t: Journal, n: Name, k: Name)
    requires s.WF() && t.WF() && Lined(s) && k != n && Final(n) !in s.dir
    requires forall d :: d in t.log ==> Later(s, d, n)
    requires SameBut(t.dir, s.dir, {Final(n), Pending(Final(n))})
    ensures At(t.dir, Final(k)) == At(s.dir, Final(k))
    ensures forall d :: d in t.log && Final(k) in d ==> At(s.dir, Final(k)) == At(d, Final(k))
    ensures forall d :: d in t.log && d !in s.log ==> At(d, Final(k)) == At(s.dir, Final(k))
  {
    assert Final(k) !in {Final(n), Pending(Final(n))} && Steady(s, k);
    forall d | d in t.log && d !in s.log ensures At(d, Final(k)) == At(s.dir, Final(k)) { assert Later(s, d, n); }
  }

  /** However far an install got, what the directories have in common is kept. */
  lemma InstallKeepsLined(s: Journal, t: Journal, n: Name, rec: Record)
    requires Inv(s) && t.WF() && Installing(s, t, Final(n), rec) && Final(n) !in s.dir
    requires MayInstall(s.dir, s.data, n, rec) && (Signed(s.dir, n) ==> SyncedDir(s))
    ensures Lined(t)
  {
    forall k ensures Steady(t, k) { InstallSteady(s, t, n, rec, k); }
    forall v ensures Covered(t, v) {
      forall d, b | d in t.log && b in t.log ensures Covers(d, b, v) { InstallCovers(s, t, n, rec, d, b, v); }
    }
  }

  lemma InstallSteady(s: Journal, t: Journal, n: Name, rec: Record, k: Name)
    requires Inv(s) && t.WF() && Installing(s, t, Final(n), rec) && Final(n) !in s.dir
    ensures Steady(t, k)
  {
    LoggedDirs(s, t, n);
    assert s.dir in s.log && t.dir in t.log;
    if k != n { SameFinals(s, t, n, k); }
    forall d | d in t.log && Final(k) in t.log[0] ensures Final(k) in d { FirstKept(s, t, n, k, d); }
    forall d, b | d in t.log && b in t.log && Final(k) in d && Final(k) !in b ensures Appeared(t, k) {
      if k != n { StillAppeared(s, t, n, k, d, b); }
    }
  }

  lemma FirstKept(s: Journal, t: Journal, n: Name, k: Name, d: JournalDir)
    requires s.WF() && t.WF() && Lined(s) && Final(n) !in s.dir && Framed(s, t, {Final(n), Pending(Final(n))})
    requires Logged(s, t, Final(n)) && d in t.log && Final(k) in t.log[0]
    ensures Final(k) in d
  {
    LoggedDirs(s, t, n);
    assert t.log[0] in t.log && s.log[0] in s.log && Steady(s, k);
    assert s.log <= t.log ==> t.log[0] == s.log[0];
    if k != n { SameFinals(s, t, n, k); }
  }

  lemma StillAppeared(s: Journal, t: Journal, n: Name, k: Name, d: JournalDir, b: JournalDir)
    requires s.WF() && t.WF() && Lined(s) && Final(n) !in s.dir && Framed(s, t, {Final(n), Pending(Final(n))}) && k != n
    requires Logged(s, t, Final(n)) && d in t.log && b in t.log && Final(k) in d && Final(k) !in b
    ensures Appeared(t, k)
  {
    LoggedDirs(s, t, n);
    SameFinals(s, t, n, k);
    assert s.dir in s.log && Steady(s, k);
    if s.log <= t.log {
      assert b in s.log && Appeared(s, k);
      var c :| c in s.log && Pending(Final(k)) in c;
      assert c in t.log;
    }
  }

  lemma InstallCovers(s: Journal, t: Journal, n: Name, rec: Record, d: JournalDir, b: JournalDir, v: nat)
    requires Inv(s) && t.WF() && Final(n) !in s.dir && Framed(s, t, {Final(n), Pending(Final(n))})
    requires MayInstall(s.dir, s.data, n, rec) && (Signed(s.dir, n) ==> SyncedDir(s))
    requires Logged(s, t, Final(n)) && d in t.log && b in t.log
    ensures Covers(d, b, v)
  {
    LoggedDirs(s, t, n);
    assert s.dir in s.log;
    assert Later(s, d, n) && Later(s, b, n);
    var was := if d in s.log then d else s.dir;
    assert Covered(s, v) && Steady(s, RenewalName(v)) && Steady(s, ApplyName(v)) && Steady(s, HandoffName(v));
    assert Covers(was, s.dir, v) && Covers(was, if b in s.log then b else s.dir, v);
    if d !in s.log {
      if n != ReleaseName(v) { SameEntry(s, d, n, Release(v)); SameEntry(s, d, n, Pending(Release(v))); }
      if n != HandoffName(v) { SameEntry(s, d, n, Targets(v)); SameEntry(s, d, n, Pending(Targets(v))); }
    }
    if n != RenewalName(v) { SameFinals(s, t, n, RenewalName(v)); }
    if n != ApplyName(v) { SameFinals(s, t, n, ApplyName(v)); }
    if n != HandoffName(v) { SameFinals(s, t, n, HandoffName(v)); }
  }

  lemma SameDataGood(d: JournalDir, data: Contents, more: Contents)
    requires Good(d, data) && forall i :: i in data ==> i in more && more[i] == data[i]
    ensures Good(d, more)
  {
    forall e | e in d ensures Fits(d, more, e) {
      assert Fits(d, data, e);
    }
  }

  lemma SyncedRobust(s: Journal)
    requires s.WF() && SyncedDir(s) && Good(s.dir, s.data)
    ensures Robust(s)
  {
    forall m | Mix(s, m) ensures Good(m, s.data) {
      SameDir(s, m);
    }
  }

  lemma SameDir(s: Journal, m: JournalDir)
    requires SyncedDir(s) && Mix(s, m)
    ensures m == s.dir
  {
    forall e ensures At(m, e) == At(s.dir, e) {
      assert Recalls(s.log, m, e);
    }
    assert forall e :: e in m <==> At(m, e).Some?;
    assert forall e :: e in s.dir <==> At(s.dir, e).Some?;
  }

  lemma MixUnderway(s: Journal, t: Journal, m: JournalDir, n: Name, rec: Record)
    requires s.WF() && SyncedDir(s) && Final(n) !in s.dir && Installing(s, t, Final(n), rec) && Mix(t, m)
    ensures Underway(s, t.data, m, n, rec)
  {
    var es := {Final(n), Pending(Final(n))};
    forall e | e !in es ensures At(m, e) == At(s.dir, e) {
      assert Recalls(t.log, m, e);
      var d :| d in t.log && At(m, e) == At(d, e);
      assert d in s.log || SameBut(d, s.dir, es);
    }
    assert Recalls(t.log, m, Final(n));
    assert Recalls(t.log, m, Pending(Final(n)));
  }

  // Removing temporary files.

  lemma RemovalKeepsGood(b: JournalDir, d: JournalDir, data: Contents, es: set<Entry<Name>>)
    requires Good(b, data) && Removes(d, b, es) && forall e :: e in es ==> e.Pending?
    ensures Good(d, data)
  {
    assert forall n :: At(d, Final(n)) == At(b, Final(n));
    forall e | e in d ensures Fits(d, data, e) {
      assert At(b, e) == Some(d[e]) && Fits(b, data, e);
      RemovalKeepsFit(b, d, data, es, e);
    }
  }

  lemma RemovalKeepsFit(b: JournalDir, d: JournalDir, data: Contents, es: set<Entry<Name>>, e: Entry<Name>)
    requires e in b && e in d && d[e] == b[e] && Fits(b, data, e)
    requires forall x :: x in d ==> At(b, x) == Some(d[x])
    requires forall n :: At(d, Final(n)) == At(b, Final(n))
    ensures Fits(d, data, e)
  {
    var k := Base(e);
    assert At(d, Renewal(k.v)) == At(b, Renewal(k.v)) && At(d, Application(k.v)) == At(b, Application(k.v));
    assert At(d, Targets(k.v)) == At(b, Targets(k.v));
    assert k.v > 1 ==> At(d, Release(k.v - 1)) == At(b, Release(k.v - 1));
    assert RenewalClaim(d, k.v) ==> RenewalClaim(b, k.v);
    assert ApplyClaim(d, k.v) ==> ApplyClaim(b, k.v);
  }

  lemma CleaningKeepsInv(s: Journal, t: Journal, es: set<Entry<Name>>)
    requires Inv(s) && t.WF() && Sound(t) && Cleaning(s, t, es) && forall e :: e in es ==> e.Pending?
    ensures Inv(t)
    ensures SyncedDir(s) ==> Robust(t)
  {
    assert s.dir in s.log && Good(s.dir, s.data);
    RemovedDirs(s, t, es);
    forall d | d in t.log ensures Good(d, t.data) {
      if d !in s.log { RemovalKeepsGood(s.dir, d, s.data, es); }
    }
    CleaningKeepsLined(s, t, es);
    if SyncedDir(s) {
      forall m | Mix(t, m) ensures Good(m, t.data) {
        MixRemoves(s, t, m, es);
        RemovalKeepsGood(s.dir, m, s.data, es);
      }
    }
  }

  lemma RemovedDirs(s: Journal, t: Journal, es: set<Entry<Name>>)
    requires Cleaning(s, t, es)
    ensures forall d :: d in t.log ==> d in s.log || Removes(d, s.dir, es)
    ensures s.log <= t.log || forall d :: d in t.log ==> Removes(d, s.dir, es)
  {
    forall d | d in t.log ensures d in s.log || Removes(d, s.dir, es) {
      var i :| 0 <= i < |t.log| && t.log[i] == d;
      if s.log <= t.log && i < |s.log| { assert s.log[i] == d; }
    }
  }

  lemma CleaningKeepsLined(s: Journal, t: Journal, es: set<Entry<Name>>)
    requires Inv(s) && t.WF() && Cleaning(s, t, es) && forall e :: e in es ==> e.Pending?
    ensures Lined(t)
  {
    RemovedDirs(s, t, es);
    assert s.dir in s.log && t.dir in t.log && t.log[0] in t.log && s.log[0] in s.log;
    forall d, n | Removes(d, s.dir, es) ensures At(d, Final(n)) == At(s.dir, Final(n)) { assert Final(n) !in es; }
    forall k ensures Steady(t, k) { CleaningSteady(s, t, es, k); }
    forall v ensures Covered(t, v) {
      assert Covered(s, v);
      forall d, b | d in t.log && b in t.log ensures Covers(d, b, v) { CleaningCovers(s, t, es, d, b, v); }
    }
  }

  lemma CleaningCovers(s: Journal, t: Journal, es: set<Entry<Name>>, d: JournalDir, b: JournalDir, v: nat)
    requires s.WF() && Covered(s, v) && (d in s.log || Removes(d, s.dir, es)) && (b in s.log || Removes(b, s.dir, es))
    requires forall c, n :: Removes(c, s.dir, es) ==> At(c, Final(n)) == At(s.dir, Final(n))
    ensures Covers(d, b, v)
  {
    assert s.dir in s.log;
    assert Covers(if d in s.log then d else s.dir, if b in s.log then b else s.dir, v);
    assert d !in s.log ==> At(d, Renewal(v)) == At(s.dir, Renewal(v)) && At(d, Application(v)) == At(s.dir, Application(v)) &&
                           At(d, Targets(v)) == At(s.dir, Targets(v)) && At(d, Release(v)) == At(s.dir, Release(v));
    assert b !in s.log ==> At(b, Renewal(v)) == At(s.dir, Renewal(v)) && At(b, Application(v)) == At(s.dir, Application(v)) &&
                           At(b, Targets(v)) == At(s.dir, Targets(v));
  }

  lemma CleaningSteady(s: Journal, t: Journal, es: set<Entry<Name>>, k: Name)
    requires s.WF() && Lined(s) && t.WF() && Cleaning(s, t, es)
    requires forall d, n :: Removes(d, s.dir, es) ==> At(d, Final(n)) == At(s.dir, Final(n))
    ensures Steady(t, k)
  {
    RemovedDirs(s, t, es);
    assert Steady(s, k);
    assert s.dir in s.log && t.dir in t.log && t.log[0] in t.log && s.log[0] in s.log;
    assert s.log <= t.log ==> t.log[0] == s.log[0];
    forall d, b | d in t.log && b in t.log && Final(k) in d && Final(k) !in b ensures Appeared(t, k) {
      assert s.log <= t.log && b in s.log;
      assert Appeared(s, k);
      var c :| c in s.log && Pending(Final(k)) in c;
      assert c in t.log;
    }
  }

  lemma MixRemoves(s: Journal, t: Journal, m: JournalDir, es: set<Entry<Name>>)
    requires SyncedDir(s) && Cleaning(s, t, es) && Mix(t, m)
    ensures Removes(m, s.dir, es)
  {
    forall e ensures e in m ==> At(s.dir, e) == Some(m[e])
             ensures e !in es ==> At(m, e) == At(s.dir, e)
    {
      assert Recalls(t.log, m, e);
      var d :| d in t.log && At(m, e) == At(d, e);
      RemovedDirs(s, t, es);
      assert d == s.dir || Removes(d, s.dir, es);
    }
  }

  // Power loss.

  lemma TornKeepsGood(s: Journal, t: Journal, d: JournalDir)
    requires s.WF() && Good(d, s.data) && t.data.Keys == s.data.Keys
    requires forall n :: Final(n) in d ==> d[Final(n)] in s.synced
    requires forall i :: i in s.data ==> t.data[i] == s.data[i] || (i !in s.synced && !t.data[i].Whole?)
    ensures Good(d, t.data)
  {
    forall e | e in d ensures Fits(d, t.data, e) {
      assert Fits(d, s.data, e);
      TornKeepsFit(s, t, d, e);
    }
  }

  lemma TornKeepsFit(s: Journal, t: Journal, d: JournalDir, e: Entry<Name>)
    requires e in d && Fits(d, s.data, e) && t.data.Keys == s.data.Keys
    requires forall n :: Final(n) in d ==> d[Final(n)] in s.synced
    requires forall i :: i in s.data ==> t.data[i] == s.data[i] || (i !in s.synced && !t.data[i].Whole?)
    ensures Fits(d, t.data, e)
  {
    var k := Base(e);
    assert Renewal(k.v) in d ==> d[Final(RenewalName(k.v))] in s.synced;
    assert Application(k.v) in d ==> d[Final(ApplyName(k.v))] in s.synced;
    assert Targets(k.v) in d ==> d[Final(HandoffName(k.v))] in s.synced;
  }

  /** A filesystem that keeps directory operations in order never breaks the journal. */
  lemma OrderedLossKeepsInv(s: Journal, t: Journal)
    requires Inv(s) && OrderedLoss(s, t)
    ensures Inv(t)
  {
    LossKeepsSound(s, t);
    TornKeepsGood(s, t, t.dir);
    SyncedLined(t);
  }

  /** A synced directory in order has nothing else to agree with. */
  lemma SyncedLined(s: Journal)
    requires s.WF() && SyncedDir(s) && Good(s.dir, s.data)
    ensures Lined(s)
  {
    forall v ensures Covered(s, v) {
      if Either(s.dir, Targets(v)) {
        assert Fits(s.dir, s.data, if Targets(v) in s.dir then Targets(v) else Pending(Targets(v)));
      }
    }
  }

  /** One that keeps them in any order does not break a robust journal. */
  lemma LossKeepsInv(s: Journal, t: Journal)
    requires Inv(s) && Robust(s) && Loss(s, t)
    ensures Inv(t)
  {
    LossKeepsSound(s, t);
    assert Mix(s, t.dir);
    forall n | Final(n) in t.dir ensures t.dir[Final(n)] in s.synced {
      assert Recalls(s.log, t.dir, Final(n));
    }
    TornKeepsGood(s, t, t.dir);
    SyncedLined(t);
  }

  // The commands.

  /** `v` is the first version without a release. */
  predicate Next(d: JournalDir, v: nat) {
    v > 0 && Release(v) !in d && (v > 1 ==> Release(v - 1) in d)
  }

  lemma NextUnique(s: Journal, v: nat, w: nat)
    requires Inv(s) && Next(s.dir, v) && Next(s.dir, w)
    ensures v == w
  {
    assert s.dir in s.log && Good(s.dir, s.data);
    if v < w - 1 { GoodContiguous(s.dir, s.data, ReleaseName(w - 1), v); }
    if w < v - 1 { GoodContiguous(s.dir, s.data, ReleaseName(v - 1), w); }
  }

  /** The number of releases: publication_store.go:426 reads them from 1 upward. */
  method Latest(j: Store<Name, Record>) returns (n: nat)
    requires Inv(j.fs)
    ensures n <= MAX_RELEASES && Next(j.fs.dir, n + 1)
    ensures forall v :: 1 <= v <= n ==> Release(v) in j.fs.dir
  {
    n := 0;
    while n < MAX_RELEASES && Release(n + 1) in j.fs.dir
      invariant n <= MAX_RELEASES && forall v :: 1 <= v <= n ==> Release(v) in j.fs.dir
    {
      n := n + 1;
    }
    if n == MAX_RELEASES {
      Beyond(j.fs);
    }
  }

  lemma InPlace(s: Journal, n: Name)
    requires Inv(s) && Either(s.dir, Final(n))
    ensures Placed(s.dir, n) && Countersigned(s.dir, s.data, n)
  {
    assert s.dir in s.log && Good(s.dir, s.data);
    assert Fits(s.dir, s.data, if Final(n) in s.dir then Final(n) else Pending(Final(n)));
  }

  lemma Beyond(s: Journal)
    requires Inv(s)
    ensures Release(MAX_RELEASES + 1) !in s.dir
  {
    if Release(MAX_RELEASES + 1) in s.dir {
      InPlace(s, ReleaseName(MAX_RELEASES + 1));
    }
  }
}
