/**
  internal/omega/publish.go, renew.go and rotation_store.go: who holds the next version, over
  whole runs of the commands with kills and power losses.
 */
module Claims {
  import opened Wrappers
  import opened Disk
  import opened Install
  import opened Journal
  import opened Commands

  datatype Holder = ByApproval | ByRenewal | ByRotation

  /** The command that version `v` is taken for. */
  predicate Claims(d: JournalDir, v: nat, k: Holder) {
    match k
    case ByApproval => OfflineClaim(d, v)
    case ByRenewal => RenewalClaim(d, v)
    case ByRotation => ApplyClaim(d, v)
  }

  /** No version is claimed by two of the three commands. */
  ghost predicate Exclusive(d: JournalDir) {
    forall v: nat, k, l :: Claims(d, v, k) && Claims(d, v, l) ==> k == l
  }

  lemma InvExclusive(s: Journal)
    requires Inv(s)
    ensures forall d :: d in s.log ==> Exclusive(d)
  {
    forall d, v: nat, k, l | d in s.log && Claims(d, v, k) && Claims(d, v, l) ensures k == l {
      GoodExclusive(d, s.data, v);
    }
  }

  // What a power loss can bring back.

  /** Two commands have stood in the directory with a claim to one version since the last sync, together or not. */
  ghost predicate Rivals(log: seq<JournalDir>) {
    exists d, b, v: nat, k, l :: d in log && b in log && k != l && Claims(d, v, k) && Claims(b, v, l)
  }

  /** A file of the version after one that was not yet released in some directory since the last sync. */
  ghost predicate Ahead(log: seq<JournalDir>) {
    exists d, b, n :: d in log && b in log && Precedes(d, b, n)
  }

  predicate Precedes(d: JournalDir, b: JournalDir, n: Name) { n.v > 1 && Named(b, n) && Release(n.v - 1) !in d }

  /** A claim that a power loss leaves behind has stood in some directory since the last sync. */
  lemma ClaimRecalled(s: Journal, m: JournalDir, v: nat, k: Holder)
    requires Inv(s) && Mix(s, m) && Claims(m, v, k)
    ensures exists d :: d in s.log && Claims(d, v, k)
  {
    if k == ByApproval {
      var e := if Release(v) in m then Release(v) else Pending(Release(v));
      assert Recalls(s.log, m, e) && Recalls(s.log, m, Renewal(v)) && Recalls(s.log, m, Application(v));
      var d :| d in s.log && At(m, e) == At(d, e);
      var b :| b in s.log && At(m, Renewal(v)) == At(b, Renewal(v));
      var c :| c in s.log && At(m, Application(v)) == At(c, Application(v));
      assert Covered(s, v) && Covers(d, b, v) && Covers(d, c, v);
    } else {
      var e := ClaimEntry(m, v, k);
      assert Recalls(s.log, m, e);
      var d :| d in s.log && At(m, e) == At(d, e);
    }
  }

  /** The entry that makes a reservation's claim. */
  function ClaimEntry(d: JournalDir, v: nat, k: Holder): Entry<Name> {
    match k
    case ByApproval => if Release(v) in d then Release(v) else Pending(Release(v))
    case ByRenewal => if Renewal(v) in d then Renewal(v) else Pending(Renewal(v))
    case ByRotation =>
      if Application(v) in d then Application(v)
      else if Pending(Application(v)) in d then Pending(Application(v))
      else if Targets(v) in d then Targets(v)
      else Pending(Targets(v))
  }

  /** The power loss in which each entry of `from` falls back to what it was in its directory. */
  lemma Fallback(s: Journal, from: map<Entry<Name>, JournalDir>) returns (t: Journal)
    requires s.WF() && forall e :: e in from ==> from[e] in s.log
    ensures Loss(s, t) && forall e :: e in from ==> At(t.dir, e) == At(from[e], e)
    ensures forall e :: e in from ==> (e in t.dir <==> e in from[e])
  {
    var keep := map e | e in from :: IndexOf(s.log, from[e]);
    t := Lose(s, keep, Harm({}, {}));
  }

  function IndexOf(log: seq<JournalDir>, d: JournalDir): (i: nat)
    requires d in log
    ensures i < |log| && log[i] == d
  {
    if log[0] == d then 0 else 1 + IndexOf(log[1..], d)
  }

  /** A reservation that stood in `b` and was not committed in `d` can come back as a temporary file. */
  lemma Temporary(s: Journal, d: JournalDir, b: JournalDir, n: Name) returns (c: JournalDir)
    requires Inv(s) && d in s.log && b in s.log && Named(b, n) && Final(n) !in d
    ensures c in s.log && Pending(Final(n)) in c
  {
    if Pending(Final(n)) in b { return b; }
    assert Steady(s, n);
    assert Appeared(s, n);
    c :| c in s.log && Pending(Final(n)) in c;
  }

  lemma ApprovalMeets(s: Journal, d: JournalDir, b: JournalDir, v: nat, k: Holder) returns (t: Journal)
    requires Inv(s) && d in s.log && b in s.log && k != ByApproval && Claims(d, v, ByApproval) && Claims(b, v, k)
    ensures Loss(s, t) && Claims(t.dir, v, ByApproval) && Claims(t.dir, v, k)
  {
    assert Covered(s, v) && Covers(b, d, v);
    var n := if k == ByRenewal then RenewalName(v) else ApplyName(v);
    var c := Temporary(s, d, b, n);
    var e := ClaimEntry(d, v, ByApproval);
    t := FallbackFour(s, e, Renewal(v), Application(v), d, Pending(Final(n)), c);
    ClaimsByEntries(t.dir, v, e, n, k);
  }

  lemma FallbackFour(s: Journal, e: Entry<Name>, f: Entry<Name>, g: Entry<Name>, d: JournalDir, h: Entry<Name>, c: JournalDir)
    returns (t: Journal)
    requires s.WF() && d in s.log && c in s.log && h != e && h != f && h != g
    ensures Loss(s, t) && (h in t.dir <==> h in c)
    ensures (e in t.dir <==> e in d) && (f in t.dir <==> f in d) && (g in t.dir <==> g in d)
  {
    var from := map[e := d, f := d, g := d, h := c];
    t := Fallback(s, from);
    assert from[e] == d && from[f] == d && from[g] == d && from[h] == c;
  }

  lemma ClaimsByEntries(d: JournalDir, v: nat, e: Entry<Name>, n: Name, k: Holder)
    requires (e == Release(v) || e == Pending(Release(v))) && e in d && Renewal(v) !in d && Application(v) !in d
    requires k != ByApproval && n == (if k == ByRenewal then RenewalName(v) else ApplyName(v)) && Pending(Final(n)) in d
    ensures Claims(d, v, ByApproval) && Claims(d, v, k)
  {
  }

  lemma ReservationsMeet(s: Journal, d: JournalDir, b: JournalDir, v: nat) returns (t: Journal)
    requires s.WF() && d in s.log && b in s.log && Claims(d, v, ByRenewal) && Claims(b, v, ByRotation)
    ensures Loss(s, t) && Claims(t.dir, v, ByRenewal) && Claims(t.dir, v, ByRotation)
  {
    t := FallbackTwo(s, ClaimEntry(d, v, ByRenewal), d, ClaimEntry(b, v, ByRotation), b);
  }

  lemma RivalsMeet(s: Journal) returns (t: Journal)
    requires Inv(s) && Rivals(s.log)
    ensures Loss(s, t) && !Exclusive(t.dir)
  {
    var d, b, v: nat, k, l :| d in s.log && b in s.log && k != l && Claims(d, v, k) && Claims(b, v, l);
    if k == ByApproval {
      t := ApprovalMeets(s, d, b, v, l);
    } else if l == ByApproval {
      t := ApprovalMeets(s, b, d, v, k);
    } else if k == ByRenewal {
      t := ReservationsMeet(s, d, b, v);
    } else {
      t := ReservationsMeet(s, b, d, v);
    }
    assert Claims(t.dir, v, k) && Claims(t.dir, v, l);
  }

  /** Exactly when no power loss can leave a version to two commands. */
  lemma LossExclusive(s: Journal)
    requires Inv(s)
    ensures (forall t :: Loss(s, t) ==> Exclusive(t.dir)) <==> !Rivals(s.log)
  {
    if Rivals(s.log) {
      var t := RivalsMeet(s);
    } else {
      forall t | Loss(s, t) ensures Exclusive(t.dir) {
        assert Mix(s, t.dir);
        forall v: nat, k, l | Claims(t.dir, v, k) && Claims(t.dir, v, l) ensures k == l {
          ClaimRecalled(s, t.dir, v, k);
          ClaimRecalled(s, t.dir, v, l);
        }
      }
    }
  }

  lemma AheadBreaks(s: Journal) returns (t: Journal)
    requires Inv(s) && Ahead(s.log)
    ensures Loss(s, t) && !Inv(t)
  {
    var d, b, n :| d in s.log && b in s.log && Precedes(d, b, n);
    var e, f := if Final(n) in b then Final(n) else Pending(Final(n)), Release(n.v - 1);
    t := FallbackTwo(s, e, b, f, d);
    if Inv(t) { InPlace(t, n); }
  }

  lemma FallbackTwo(s: Journal, e: Entry<Name>, d: JournalDir, f: Entry<Name>, b: JournalDir) returns (t: Journal)
    requires s.WF() && d in s.log && b in s.log && e != f
    ensures Loss(s, t) && (e in t.dir <==> e in d) && (f in t.dir <==> f in b)
  {
    var from := map[e := d, f := b];
    t := Fallback(s, from);
    assert from[e] == d && from[f] == b;
  }

  // A mixture of directories without rivals is in order.

  lemma MixedFinal(s: Journal, m: JournalDir, n: Name)
    requires s.WF() && Lined(s) && Mix(s, m)
    ensures Final(n) in m ==> At(m, Final(n)) == At(s.dir, Final(n))
    ensures (forall d :: d in s.log ==> Final(n) in d) ==> Final(n) in m
    ensures Final(n) !in m ==> exists d :: d in s.log && Final(n) !in d
  {
    assert Steady(s, n);
    assert Recalls(s.log, m, Final(n));
  }

  /** The only claim there is to the version of a file. */
  lemma SoleClaim(s: Journal, m: JournalDir, d: JournalDir, v: nat, k: Holder, l: Holder)
    requires Inv(s) && Mix(s, m) && !Rivals(s.log) && d in s.log && Claims(d, v, k) && Claims(m, v, l)
    ensures k == l
  {
    ClaimRecalled(s, m, v, l);
  }

  lemma MixedPlaced(s: Journal, m: JournalDir, d: JournalDir, n: Name)
    requires Inv(s) && Mix(s, m) && !Rivals(s.log) && !Ahead(s.log) && d in s.log && Named(d, n) && Placed(d, n)
    ensures Placed(m, n)
  {
    var v := n.v;
    if v > 1 {
      MixedFinal(s, m, ReleaseName(v - 1));
      if Release(v - 1) !in m {
        var c :| c in s.log && Release(v - 1) !in c;
        assert Precedes(c, d, n);
      }
    }
    MixedCover(s, m, d, v);
    match n
    case ReleaseName(_) =>
      if RenewalClaim(m, v) { SoleClaim(s, m, d, v, HolderOf(d, v), ByRenewal); }
      if ApplyClaim(m, v) { SoleClaim(s, m, d, v, HolderOf(d, v), ByRotation); }
    case RenewalName(_) =>
      if ApplyClaim(m, v) { SoleClaim(s, m, d, v, ByRenewal, ByRotation); }
    case ApplyName(_) =>
      if RenewalClaim(m, v) { SoleClaim(s, m, d, v, ByRotation, ByRenewal); }
    case HandoffName(_) =>
      if RenewalClaim(m, v) { SoleClaim(s, m, d, v, ByRotation, ByRenewal); }
  }

  /** Under whose reservation a release stands. */
  function HolderOf(d: JournalDir, v: nat): (k: Holder)
    ensures Either(d, Release(v)) ==> Claims(d, v, k)
  {
    if Renewal(v) in d then ByRenewal else if Application(v) in d then ByRotation else ByApproval
  }

  /** What is signed in `d` has its reservation in every mixture. */
  lemma MixedCover(s: Journal, m: JournalDir, d: JournalDir, v: nat)
    requires Inv(s) && Mix(s, m) && d in s.log
    ensures Covers(d, m, v)
  {
    forall n: Name | Final(n) !in m && n.v == v && (n.RenewalName? || n.ApplyName? || n.HandoffName?)
      ensures exists b :: b in s.log && Final(n) !in b && Covers(d, b, v)
    {
      MixedFinal(s, m, n);
      var b :| b in s.log && Final(n) !in b;
      assert Covered(s, v) && Covers(d, b, v);
    }
    assert RenewalName(v).v == v && ApplyName(v).v == v && HandoffName(v).v == v;
  }

  lemma MixedSays(s: Journal, m: JournalDir, d: JournalDir, n: Name, rec: Record)
    requires Inv(s) && Mix(s, m) && !Rivals(s.log) && d in s.log && Named(d, n) && Says(d, s.data, n, rec)
    ensures Says(m, s.data, n, rec)
  {
    if n.ReleaseName? { MixedReservation(s, m, d, n.v); }
  }

  /** A mixture has exactly the committed files that a signed release in `d` refers to. */
  lemma MixedReservation(s: Journal, m: JournalDir, d: JournalDir, v: nat)
    requires Inv(s) && Mix(s, m) && !Rivals(s.log) && d in s.log && Either(d, Release(v))
    ensures At(m, Renewal(v)) == At(d, Renewal(v)) && At(m, Application(v)) == At(d, Application(v))
    ensures Targets(v) in d ==> At(m, Targets(v)) == At(d, Targets(v))
  {
    MixedCover(s, m, d, v);
    MixedFinal(s, m, RenewalName(v));
    MixedFinal(s, m, ApplyName(v));
    MixedFinal(s, m, HandoffName(v));
    assert Steady(s, RenewalName(v)) && Steady(s, ApplyName(v)) && Steady(s, HandoffName(v));
    if Renewal(v) in m { SoleClaim(s, m, d, v, HolderOf(d, v), ByRenewal); }
    if Application(v) in m { SoleClaim(s, m, d, v, HolderOf(d, v), ByRotation); }
  }

  lemma MixedFits(s: Journal, m: JournalDir, e: Entry<Name>)
    requires Inv(s) && Mix(s, m) && !Rivals(s.log) && !Ahead(s.log) && e in m
    ensures Fits(m, s.data, e)
  {
    assert Recalls(s.log, m, e);
    var d :| d in s.log && At(m, e) == At(d, e);
    assert Fits(d, s.data, e);
    var n := Base(e);
    MixedPlaced(s, m, d, n);
    if n.ReleaseName? { MixedReservation(s, m, d, n.v); }
    if s.data[m[e]].Whole? { MixedSays(s, m, d, n, s.data[m[e]].value); }
  }

  /** Exactly when every power loss leaves a journal that the commands can go on with. */
  lemma LossInOrder(s: Journal)
    requires Inv(s)
    ensures (forall t :: Loss(s, t) ==> Inv(t)) <==> !Rivals(s.log) && !Ahead(s.log)
  {
    if Rivals(s.log) {
      var t := RivalsMeet(s);
      assert t.dir in t.log;
      if Inv(t) { InvExclusive(t); }
    } else if Ahead(s.log) {
      var t := AheadBreaks(s);
    } else {
      forall m | Mix(s, m) ensures Good(m, s.data) {
        forall e | e in m ensures Fits(m, s.data, e) { MixedFits(s, m, e); }
      }
      forall t | Loss(s, t) ensures Inv(t) { LossKeepsInv(s, t); }
    }
  }

  // Whole runs, watched from outside.

  /** The directory as it looks when a command ends, and how that command ended. */
  datatype Sight = Sight(dir: JournalDir, how: Outcome)

  /**
    What can be seen without looking inside a command: the directory as it was last synced,
    and then the directory after each command.
   */
  ghost predicate Watched(s: Journal, seen: seq<Sight>)
    requires s.WF()
  {
    && seen != [] && seen[0].dir == s.log[0] && seen[|seen| - 1].dir == s.dir
    && (forall i :: 0 <= i < |seen| ==> seen[i].dir in s.log)
    && (forall d, n :: d in s.log && Named(d, n) ==> Glimpsed(seen, n))
    && (forall i, n :: Vanishes(seen, i, n) ==> seen[i].how == Died)
  }

  ghost predicate Glimpsed(seen: seq<Sight>, n: Name) { exists i :: 0 <= i < |seen| && Named(seen[i].dir, n) }

  predicate Vanishes(seen: seq<Sight>, i: int, n: Name) {
    0 < i < |seen| && Named(seen[i - 1].dir, n) && !Named(seen[i].dir, n)
  }

  /**
    A command died after it had removed the temporary file of one command's claim to a
    version, and another command has claimed that version since.
   */
  predicate Contested(seen: seq<Sight>) {
    exists i, k | 0 < i <= k < |seen| :: Displaced(seen[i - 1].dir, seen[i], seen[k].dir)
  }

  predicate Displaced(was: JournalDir, next: Sight, later: JournalDir) {
    next.how == Died && exists e | e in was :: Supplants(was, next.dir, later, Base(e).v)
  }

  predicate Supplants(was: JournalDir, next: JournalDir, later: JournalDir, v: nat) {
    exists k, l :: k != l && Claims(was, v, k) && !Claims(next, v, k) && Claims(later, v, l)
  }

  /** A file of a version whose predecessor was not released when the directory was last synced. */
  predicate Overtaken(seen: seq<Sight>) {
    exists i | 0 <= i < |seen| :: Beyond(seen[i].dir, seen[0].dir)
  }

  predicate Beyond(d: JournalDir, synced: JournalDir) {
    exists e | e in d :: Base(e).v > 1 && Release(Base(e).v - 1) !in synced
  }

  lemma ClaimSeen(s: Journal, seen: seq<Sight>, d: JournalDir, v: nat, k: Holder) returns (i: nat)
    requires Inv(s) && Watched(s, seen) && d in s.log && Claims(d, v, k)
    ensures i < |seen| && Claims(seen[i].dir, v, k)
  {
    var n := match k
      case ByApproval => ReleaseName(v)
      case ByRenewal => RenewalName(v)
      case ByRotation => if Named(d, ApplyName(v)) then ApplyName(v) else HandoffName(v);
    assert Named(d, n) && Glimpsed(seen, n);
    i :| 0 <= i < |seen| && Named(seen[i].dir, n);
    assert Covered(s, v) && Covers(seen[i].dir, d, v);
  }

  /** Between two sights at which a claim stood and no longer stands, it was taken away. */
  lemma {:induction false} LastHeld(seen: seq<Sight>, p: nat, q: nat, v: nat, k: Holder) returns (i: nat)
    requires p < q < |seen| && Claims(seen[p].dir, v, k) && !Claims(seen[q].dir, v, k)
    ensures p < i <= q && Claims(seen[i - 1].dir, v, k) && !Claims(seen[i].dir, v, k)
    decreases q - p
  {
    if Claims(seen[q - 1].dir, v, k) { return q; }
    i := LastHeld(seen, p, q - 1, v, k);
  }

  /** Only a command that died takes a claim away without a sync. */
  lemma TakenAway(s: Journal, seen: seq<Sight>, i: nat, v: nat, k: Holder)
    requires Inv(s) && Watched(s, seen) && 0 < i < |seen| && Claims(seen[i - 1].dir, v, k) && !Claims(seen[i].dir, v, k)
    ensures seen[i].how == Died
  {
    assert seen[i].dir in s.log && seen[i - 1].dir in s.log;
    assert Covered(s, v) && Covers(seen[i].dir, seen[i - 1].dir, v);
    var n := match k
      case ByApproval => ReleaseName(v)
      case ByRenewal => RenewalName(v)
      case ByRotation => if Named(seen[i - 1].dir, ApplyName(v)) then ApplyName(v) else HandoffName(v);
    assert Vanishes(seen, i, n);
  }

  lemma ContestedFrom(s: Journal, seen: seq<Sight>, p: nat, q: nat, v: nat, k: Holder, l: Holder)
    requires Inv(s) && Watched(s, seen) && p < q < |seen| && k != l && Claims(seen[p].dir, v, k) && Claims(seen[q].dir, v, l)
    ensures Contested(seen)
  {
    InvExclusive(s);
    assert seen[q].dir in s.log;
    var i := LastHeld(seen, p, q, v, k);
    TakenAway(s, seen, i, v, k);
    var e := ClaimEntry(seen[i - 1].dir, v, k);
    assert e in seen[i - 1].dir && Base(e).v == v;
    assert Supplants(seen[i - 1].dir, seen[i].dir, seen[q].dir, Base(e).v);
    assert Displaced(seen[i - 1].dir, seen[i], seen[q].dir);
  }

  lemma SeenRivals(s: Journal, seen: seq<Sight>)
    requires Inv(s) && Watched(s, seen)
    ensures Rivals(s.log) <==> Contested(seen)
  {
    if Rivals(s.log) { RivalsSeen(s, seen); }
    if Contested(seen) { ContestedRivals(s, seen); }
  }

  lemma RivalsSeen(s: Journal, seen: seq<Sight>)
    requires Inv(s) && Watched(s, seen) && Rivals(s.log)
    ensures Contested(seen)
  {
    var d, b, v: nat, k, l :| d in s.log && b in s.log && k != l && Claims(d, v, k) && Claims(b, v, l);
    var p := ClaimSeen(s, seen, d, v, k);
    var q := ClaimSeen(s, seen, b, v, l);
    InvExclusive(s);
    assert seen[p].dir in s.log && Exclusive(seen[p].dir);
    assert p != q;
    if p < q {
      ContestedFrom(s, seen, p, q, v, k, l);
    } else {
      ContestedFrom(s, seen, q, p, v, l, k);
    }
  }

  lemma ContestedRivals(s: Journal, seen: seq<Sight>)
    requires s.WF() && Watched(s, seen) && Contested(seen)
    ensures Rivals(s.log)
  {
    var i, k :| 0 < i <= k < |seen| && Displaced(seen[i - 1].dir, seen[i], seen[k].dir);
    assert seen[i - 1].dir in s.log && seen[k].dir in s.log;
  }

  lemma SeenAhead(s: Journal, seen: seq<Sight>)
    requires Inv(s) && Watched(s, seen)
    ensures Ahead(s.log) <==> Overtaken(seen)
  {
    if Ahead(s.log) { AheadSeen(s, seen); }
    if Overtaken(seen) {
      var i :| 0 <= i < |seen| && Beyond(seen[i].dir, seen[0].dir);
      assert seen[0].dir in s.log && seen[i].dir in s.log;
      BeyondAhead(s, seen[0].dir, seen[i].dir);
    }
  }

  lemma AheadSeen(s: Journal, seen: seq<Sight>)
    requires Inv(s) && Watched(s, seen) && Ahead(s.log)
    ensures Overtaken(seen)
  {
    var d, b, n :| d in s.log && b in s.log && Precedes(d, b, n);
    assert Glimpsed(seen, n);
    var i :| 0 <= i < |seen| && Named(seen[i].dir, n);
    NotAtFirst(s, d, ReleaseName(n.v - 1));
    NamedBeyond(seen[i].dir, seen[0].dir, n);
  }

  lemma NamedBeyond(d: JournalDir, synced: JournalDir, n: Name)
    requires n.v > 1 && Named(d, n) && Release(n.v - 1) !in synced
    ensures Beyond(d, synced)
  {
    var e := if Final(n) in d then Final(n) else Pending(Final(n));
    assert e in d && Base(e) == n;
  }

  lemma NotAtFirst(s: Journal, d: JournalDir, n: Name)
    requires s.WF() && Lined(s) && d in s.log && Final(n) !in d
    ensures Final(n) !in s.log[0]
  {
    assert Steady(s, n);
  }

  lemma BeyondAhead(s: Journal, d: JournalDir, b: JournalDir)
    requires d in s.log && b in s.log && Good(b, s.data) && Beyond(b, d)
    ensures Ahead(s.log)
  {
    var e :| e in b && Base(e).v > 1 && Release(Base(e).v - 1) !in d;
    assert Fits(b, s.data, e);
    assert Precedes(d, b, Base(e));
  }

  /** One more command. */
  function Watch(s: Journal, t: Journal, seen: seq<Sight>, r: Outcome): seq<Sight>
    requires t.log != []
  {
    if s.log <= t.log then seen + [Sight(t.dir, r)] else [Sight(t.log[0], Done), Sight(t.dir, r)]
  }

  lemma StillWatched(s: Journal, t: Journal, seen: seq<Sight>, r: Outcome)
    requires Inv(s) && Watched(s, seen) && Kept(s, t, r)
    ensures Watched(t, Watch(s, t, seen, r))
  {
    var next := Watch(s, t, seen, r);
    assert t.dir in t.log && t.log[0] in t.log && s.log[0] in s.log;
    forall d, n | d in t.log && Named(d, n) ensures Glimpsed(next, n) {
      NextGlimpsed(s, t, seen, r, d, n);
    }
    forall i, n | Vanishes(next, i, n) ensures next[i].how == Died {
      NextVanishes(s, t, seen, r, i, n);
    }
  }

  lemma NextVanishes(s: Journal, t: Journal, seen: seq<Sight>, r: Outcome, i: nat, n: Name)
    requires s.WF() && t.WF() && Watched(s, seen) && Vanishes(Watch(s, t, seen, r), i, n)
    requires r != Died ==> t == s || SyncedDir(t)
    ensures Watch(s, t, seen, r)[i].how == Died
  {
    if s.log <= t.log && i < |seen| {
      assert Vanishes(seen, i, n);
    } else if r != Died {
      LastVanishes(s, t, r);
    }
  }

  lemma LastVanishes(s: Journal, t: Journal, r: Outcome)
    requires s.WF() && t.WF() && r != Died && (t == s || SyncedDir(t))
    ensures s.log <= t.log ==> s.dir == t.dir
    ensures !(s.log <= t.log) ==> t.log[0] == t.dir
  {
    assert s.log[|s.log| - 1] == s.dir;
  }

  lemma NextGlimpsed(s: Journal, t: Journal, seen: seq<Sight>, r: Outcome, d: JournalDir, n: Name)
    requires Inv(s) && Watched(s, seen) && Kept(s, t, r) && d in t.log && Named(d, n)
    ensures Glimpsed(Watch(s, t, seen, r), n)
  {
    var next := Watch(s, t, seen, r);
    assert next[|next| - 1].dir == t.dir;
    if s.log <= t.log {
      assert next[0] == seen[0] && next[|seen| - 1] == seen[|seen| - 1] && s.log[0] == t.log[0];
      var i :| 0 <= i < |t.log| && t.log[i] == d;
      if i < |s.log| {
        assert s.log[i] == d && d in s.log;
        var k :| 0 <= k < |seen| && Named(seen[k].dir, n);
        assert next[k] == seen[k];
      } else {
        assert Named(s.dir, n) || Named(t.log[0], n) || Named(t.dir, n);
      }
    } else {
      assert next[0].dir == t.log[0];
      assert Named(t.log[0], n) || Named(t.dir, n);
    }
  }

  /** A command, another file of the journal written and synced, or a power loss and what it kept. */
  datatype Event =
    | Run(command: Command, checks: Checks, steps: nat, cut: bool, listing: seq<Entry<Name>>)
    | DirectorySync
    | OrderedPowerLoss(upTo: nat, harm: Harm)
    | AnyPowerLoss(keep: map<Entry<Name>, nat>, harm: Harm)

  lemma LossDurable(s: Journal, t: Journal)
    requires s.WF() && Loss(s, t)
    ensures KeepsDurable(s, t)
  {
    forall n, v | Durable(s, Final(n), v) ensures Durable(t, Final(n), v) {
      LossKeepsDurable(s, t, Final(n), v);
    }
  }

  lemma Afresh(s: Journal)
    requires Inv(s) && SyncedDir(s)
    ensures Watched(s, [Sight(s.dir, Done)])
  {
    var seen := [Sight(s.dir, Done)];
    forall d, n | d in s.log && Named(d, n) ensures Glimpsed(seen, n) { assert Named(seen[0].dir, n); }
  }

  predicate IsLoss(event: Event) { event.OrderedPowerLoss? || event.AnyPowerLoss? }

  predicate NoLosses(script: seq<Event>) { forall i :: 0 <= i < |script| ==> !IsLoss(script[i]) }

  /** Where nothing is known of how it came about, every directory since the last sync counts as left by a killed command. */
  function FromLog(log: seq<JournalDir>): (seen: seq<Sight>)
    ensures |seen| == |log| && forall i :: 0 <= i < |log| ==> seen[i] == Sight(log[i], Died)
  {
    seq(|log|, i requires 0 <= i < |log| => Sight(log[i], Died))
  }

  lemma LogWatched(s: Journal)
    requires Inv(s)
    ensures Watched(s, FromLog(s.log))
  {
    var seen := FromLog(s.log);
    forall d, n | d in s.log && Named(d, n) ensures Glimpsed(seen, n) {
      var i :| 0 <= i < |s.log| && s.log[i] == d;
      assert Named(seen[i].dir, n);
    }
  }

  /**
    The commands as they are, in any order, killed anywhere, with power losses of any kind in
    between. Versions stay contiguous, no version is claimed twice, every release is what its
    reservation determines, and no durable record changes - up to the first unordered power
    loss, if any, that strikes while a version is contested or overtaken. That a version is
    contested is exactly when a power loss can leave it to two commands; that neither is the
    case is exactly when every power loss leaves the journal in order.
   */
  method RunAny(j: Store<Name, Record>, script: seq<Event>) returns (done: nat, seen: seq<Sight>)
    requires Inv(j.fs)
    modifies j
    ensures done <= |script| && Inv(j.fs) && Exclusive(j.fs.dir) && KeepsDurable(old(j.fs), j.fs) && Watched(j.fs, seen)
    ensures done < |script| ==> script[done].AnyPowerLoss? && (Contested(seen) || Overtaken(seen))
    ensures (forall t :: Loss(j.fs, t) ==> Exclusive(t.dir)) <==> !Contested(seen)
    ensures (forall t :: Loss(j.fs, t) ==> Inv(t)) <==> !Contested(seen) && !Overtaken(seen)
    ensures KeepsFrozen(old(j.fs), j.fs) && (NoLosses(script) ==> Holdfast(old(j.fs), j.fs))
  {
    seen := FromLog(j.fs.log);
    LogWatched(j.fs);
    done := 0;
    while done < |script| && !(script[done].AnyPowerLoss? && (Contested(seen) || Overtaken(seen)))
      invariant done <= |script| && Inv(j.fs) && KeepsDurable(old(j.fs), j.fs) && Watched(j.fs, seen)
      invariant KeepsFrozen(old(j.fs), j.fs) && (NoLosses(script) ==> Holdfast(old(j.fs), j.fs))
    {
      seen := Happen(j, script[done], seen);
      done := done + 1;
    }
    InvExclusive(j.fs);
    assert j.fs.dir in j.fs.log;
    LossExclusive(j.fs);
    LossInOrder(j.fs);
    SeenRivals(j.fs, seen);
    SeenAhead(j.fs, seen);
  }

  method Happen(j: Store<Name, Record>, event: Event, seen: seq<Sight>) returns (next: seq<Sight>)
    requires Inv(j.fs) && Watched(j.fs, seen) && (event.AnyPowerLoss? ==> !Contested(seen) && !Overtaken(seen))
    modifies j
    ensures Inv(j.fs) && Watched(j.fs, next) && KeepsDurable(old(j.fs), j.fs)
    ensures KeepsFrozen(old(j.fs), j.fs) && (!IsLoss(event) ==> Holdfast(old(j.fs), j.fs))
  {
    ghost var s := j.fs;
    match event {
      case Run(command, checks, steps, cut, listing) =>
        var before := j.fs;
        j.steps, j.cut := steps, cut;
        var r := Execute(j, command, checks, listing);
        StillWatched(s, j.fs, seen, r);
        return Watch(before, j.fs, seen, r);
      case DirectorySync =>
        j.steps := 2;
        var _ := Sync(j);
      case OrderedPowerLoss(upTo, harm) =>
        j.fs := LoseOrdered(j.fs, upTo, harm);
        OrderedLossKeepsInv(s, j.fs);
        LossDurable(s, j.fs);
        LossFrozen(s, j.fs);
      case AnyPowerLoss(keep, harm) =>
        j.fs := Lose(j.fs, keep, harm);
        SeenRivals(s, seen);
        SeenAhead(s, seen);
        LossInOrder(s);
        LossDurable(s, j.fs);
        LossFrozen(s, j.fs);
    }
    Afresh(j.fs);
    next := [Sight(j.fs.dir, Done)];
  }

  /** On a filesystem that persists directory operations in order nothing else is needed. */
  method RunOrdered(j: Store<Name, Record>, script: seq<Event>)
    requires Inv(j.fs) && forall i :: 0 <= i < |script| ==> !script[i].AnyPowerLoss?
    modifies j
    ensures Inv(j.fs) && Exclusive(j.fs.dir) && KeepsDurable(old(j.fs), j.fs)
  {
    var done, seen := RunAny(j, script);
  }

  // Files that lack only their last byte.

  lemma LossFrozen(s: Journal, t: Journal)
    requires s.WF() && Loss(s, t)
    ensures KeepsFrozen(s, t)
  {
    forall n | Frozen(s, n) ensures Frozen(t, n) {
      assert Recalls(s.log, t.dir, Final(n)) && Recalls(s.log, t.dir, Pending(Final(n)));
      var d :| d in s.log && At(t.dir, Final(n)) == At(d, Final(n));
      var b :| b in s.log && At(t.dir, Pending(Final(n))) == At(b, Pending(Final(n)));
      assert FrozenIn(s, d, n) && FrozenIn(s, b, n);
    }
  }

  /** The power loss in which both names of a file fall back to what they were in `d`, and the bytes under them are torn. */
  lemma Unfreeze(s: Journal, n: Name, d: JournalDir) returns (t: Journal)
    requires s.WF() && Sound(s) && d in s.log && !FrozenIn(s, d, n)
    ensures Loss(s, t) && !Spoilt(t, n)
  {
    var i := IndexOf(s.log, d);
    var torn := if Pending(Final(n)) in d then {d[Pending(Final(n))]} else {};
    var keep := map[Final(n) := i, Pending(Final(n)) := i];
    t := Lose(s, keep, Harm(torn, {}));
    assert keep[Final(n)] == i && keep[Pending(Final(n))] == i;
    assert At(t.dir, Final(n)) == At(d, Final(n)) && At(t.dir, Pending(Final(n))) == At(d, Pending(Final(n)));
  }

  /** Exactly when no power loss can clear a spoilt file away. */
  lemma SpoiltForGood(s: Journal, n: Name)
    requires s.WF() && Sound(s) && !n.HandoffName?
    ensures (forall t :: Loss(s, t) ==> Spoilt(t, n)) <==> Frozen(s, n)
  {
    if Frozen(s, n) {
      forall t | Loss(s, t) ensures Spoilt(t, n) {
        LossFrozen(s, t);
        FrozenSpoilt(t, n);
      }
    } else {
      var d :| d in s.log && !FrozenIn(s, d, n);
      var t := Unfreeze(s, n, d);
    }
  }

  /**
    A file that lost only its last byte stops the journal: whatever commands run, it stays, and
    its version is never released. If to begin with no power loss can clear it away, that holds
    through any power losses as well.
   */
  method Wedged(j: Store<Name, Record>, n: Name, script: seq<Event>) returns (done: nat, seen: seq<Sight>)
    requires Inv(j.fs) && Spoilt(j.fs, n) && (Frozen(j.fs, n) || NoLosses(script))
    modifies j
    ensures Inv(j.fs) && Spoilt(j.fs, n) && Release(n.v) !in j.fs.dir
    ensures old(Frozen(j.fs, n)) ==> forall t :: Loss(j.fs, t) ==> Spoilt(t, n) && Release(n.v) !in t.dir
    ensures done <= |script| && (done < |script| ==> script[done].AnyPowerLoss? && (Contested(seen) || Overtaken(seen)))
  {
    ghost var frozen := Frozen(j.fs, n);
    done, seen := RunAny(j, script);
    if frozen {
      FrozenSpoilt(j.fs, n);
      FrozenUnreleased(j.fs, n);
    }
    SpoiltUnreleased(j.fs, n);
  }

  lemma StandsPlaced(d: JournalDir, data: Contents, n: Name)
    requires Good(d, data) && Final(n) in d
    ensures Placed(d, n)
  {
    assert Fits(d, data, Final(n));
  }

  /** Even where a power loss breaks the order of the journal, it does not release that version. */
  lemma FrozenUnreleased(s: Journal, n: Name)
    requires Inv(s) && Frozen(s, n)
    ensures forall t :: Loss(s, t) ==> Spoilt(t, n) && Release(n.v) !in t.dir
  {
    forall d | d in s.log ensures Release(n.v) !in d {
      assert FrozenIn(s, d, n) && Good(d, s.data);
      if Release(n.v) in d { StandsPlaced(d, s.data, ReleaseName(n.v)); }
    }
    forall t | Loss(s, t) ensures Spoilt(t, n) && Release(n.v) !in t.dir {
      LossFrozen(s, t);
      FrozenSpoilt(t, n);
      assert Recalls(s.log, t.dir, Release(n.v));
    }
  }

  /**
    The witness: a command is killed just before the last byte of its claim to version 2. A
    power loss may make that permanent, or may clear it away.
   */
  lemma CutClaim(s: Journal, n: Name, k: Holder, rec: Record) returns (t: Journal, frozen: Journal, cleared: Journal)
    requires Inv(s) && SyncedDir(s) && s.dir.Keys == {Release(1)}
    requires n.v == 2 && Reserves(n, k) && Says(s.dir, s.data, n, rec)
    ensures t == Half(s, Final(n), rec) && KilledAt(s, Final(n), rec, true, t) && Inv(t) && Spoilt(t, n)
    ensures Loss(t, frozen) && Inv(frozen) && Frozen(frozen, n)
    ensures Loss(t, cleared) && Inv(cleared) && !Named(cleared.dir, n)
  {
    t := Half(s, Final(n), rec);
    InstallPathSafe(s, Final(n), rec, t);
    InstallKeepsInv(s, t, n, rec);
    HalfDirs(s, n, rec);
    frozen := LoseOrdered(t, 1, Harm({}, {}));
    cleared := LoseOrdered(t, 0, Harm({}, {}));
    OrderedLossKeepsInv(t, frozen);
    OrderedLossKeepsInv(t, cleared);
  }

  lemma HalfDirs(s: Journal, n: Name, rec: Record)
    requires s.WF() && SyncedDir(s) && s.dir.Keys == {Release(1)} && n.v == 2
    ensures var t := Half(s, Final(n), rec);
      t.WF() && t.dir == s.dir[Pending(Final(n)) := s.next] && t.log == [s.dir, t.dir] && t.data == s.data[s.next := Cut]
  {
    assert !Reuse(s, Final(n), rec) && Cleared(s, Final(n), rec) == s;
  }

  /** A new journal satisfies everything the commands rely on. */
  lemma EmptyJournal(s: Journal)
    requires s.WF() && s.dir == map[] && SyncedDir(s)
    ensures Inv(s) && Robust(s)
  {
    SyncedRobust(s);
    SyncedLined(s);
  }

  predicate Reserves(n: Name, k: Holder) {
    match k
    case ByApproval => n.ReleaseName?
    case ByRenewal => n.RenewalName?
    case ByRotation => n.ApplyName?
  }

  /**
    The witness for each pair of commands: one is killed while it writes its claim to version
    2; a later one removes the torn file, to give it back or to write it anew, and is killed
    before it syncs the directory; then another kind of command starts its own claim.
   */
  lemma Displacement(s: Journal, first: Name, k: Holder, was: Record, second: Name, l: Holder, rec: Record)
    requires Inv(s) && SyncedDir(s) && s.dir.Keys == {Release(1)}
    requires first.v == 2 && second.v == 2 && k != l && Reserves(first, k) && Reserves(second, l)
    ensures
      var torn := Created(s, Final(first), was);
      var dropped := torn.Remove(Pending(Final(first)));
      var rival := Created(dropped, Final(second), rec);
      && dropped == Cleared(torn, Final(first), was)
      && Contested([Sight(s.dir, Done), Sight(torn.dir, Died), Sight(dropped.dir, Died), Sight(rival.dir, Died)])
      && exists t :: Loss(rival, t) && Claims(t.dir, 2, k) && Claims(t.dir, 2, l)
  {
    var torn := Created(s, Final(first), was);
    var dropped := torn.Remove(Pending(Final(first)));
    var rival := Created(dropped, Final(second), rec);
    DisplacedDirs(s, torn, dropped, rival, first, second, was, rec);
    DisplacedSeen(s.dir, torn.dir, dropped.dir, rival.dir, first, k, second, l);
    var t := DisplacedLoss(rival, torn.dir, first, k, second, l);
  }

  lemma DisplacedLoss(rival: Journal, torn: JournalDir, first: Name, k: Holder, second: Name, l: Holder) returns (t: Journal)
    requires rival.WF() && torn in rival.log && first.v == 2 && second.v == 2 && first != second
    requires Reserves(first, k) && Reserves(second, l) && Pending(Final(first)) in torn && Pending(Final(second)) in rival.dir
    requires forall d :: d in rival.log ==> d.Keys <= {Release(1), Pending(Final(first)), Pending(Final(second))}
    ensures Loss(rival, t) && Claims(t.dir, 2, k) && Claims(t.dir, 2, l)
  {
    t := FallbackTwo(rival, Pending(Final(first)), torn, Pending(Final(second)), rival.dir);
    assert Recalls(rival.log, t.dir, Renewal(2)) && Recalls(rival.log, t.dir, Application(2));
    ClaimsPending(t.dir, first, k);
    ClaimsPending(t.dir, second, l);
  }

  lemma ClaimsPending(d: JournalDir, n: Name, k: Holder)
    requires Reserves(n, k) && Pending(Final(n)) in d && Renewal(n.v) !in d && Application(n.v) !in d
    ensures Claims(d, n.v, k)
  {
  }

  lemma DisplacedSeen(a: JournalDir, b: JournalDir, c: JournalDir, d: JournalDir, first: Name, k: Holder, second: Name, l: Holder)
    requires first.v == 2 && second.v == 2 && k != l && Reserves(first, k) && Reserves(second, l)
    requires b.Keys == {Release(1), Pending(Final(first))} && c.Keys == {Release(1)}
    requires d.Keys == {Release(1), Pending(Final(second))}
    ensures Contested([Sight(a, Done), Sight(b, Died), Sight(c, Died), Sight(d, Died)])
  {
    var seen := [Sight(a, Done), Sight(b, Died), Sight(c, Died), Sight(d, Died)];
    ClaimsPending(b, first, k);
    ClaimsPending(d, second, l);
    var e := Pending(Final(first));
    assert e in b && Base(e) == first && !Claims(c, 2, k);
    assert Supplants(b, c, d, Base(e).v);
    assert Displaced(seen[1].dir, seen[2], seen[3].dir);
    assert seen[2 - 1] == seen[1];
  }

  lemma DisplacedDirs(s: Journal, torn: Journal, dropped: Journal, rival: Journal, first: Name, second: Name, was: Record,
                      rec: Record)
    requires s.WF() && SyncedDir(s) && s.dir.Keys == {Release(1)} && first != second && first.v == 2 && second.v == 2
    requires torn == Created(s, Final(first), was) && dropped == torn.Remove(Pending(Final(first)))
    requires rival == Created(dropped, Final(second), rec)
    ensures torn.dir.Keys == {Release(1), Pending(Final(first))} && dropped.dir.Keys == {Release(1)}
    ensures rival.dir.Keys == {Release(1), Pending(Final(second))} && dropped == Cleared(torn, Final(first), was)
    ensures rival.WF() && torn.dir in rival.log
    ensures forall d :: d in rival.log ==> d.Keys <= {Release(1), Pending(Final(first)), Pending(Final(second))}
  {
    assert Pending(Final(first)) !in s.dir;
    assert torn.data[torn.dir[Pending(Final(first))]] == Torn;
    assert rival.log == [s.dir, torn.dir, dropped.dir, rival.dir];
  }

  /**
    The witness for a gap: a command is killed between linking release 2 and syncing the
    directory, and the next one is killed as it starts release 3.
   */
  lemma Overtaking(s: Journal, second: Record, third: Record)
    requires Inv(s) && SyncedDir(s) && s.dir.Keys == {Release(1)}
    ensures
      var linked := Linked(s, Release(2), second);
      var next := Created(linked, Release(3), third);
      && Overtaken([Sight(s.dir, Done), Sight(linked.dir, Died), Sight(next.dir, Died)])
      && exists t :: Loss(next, t) && Pending(Release(3)) in t.dir && Release(2) !in t.dir && !Inv(t)
  {
    var linked := Linked(s, Release(2), second);
    var next := Created(linked, Release(3), third);
    var seen := [Sight(s.dir, Done), Sight(linked.dir, Died), Sight(next.dir, Died)];
    OvertakingDirs(s, second, third);
    assert Base(Pending(Release(3))) == ReleaseName(3);
    assert Beyond(seen[2].dir, seen[0].dir);
    var t := FallbackTwo(next, Pending(Release(3)), next.dir, Release(2), s.dir);
    if Inv(t) { InPlace(t, ReleaseName(3)); }
  }

  lemma OvertakingDirs(s: Journal, second: Record, third: Record)
    requires s.WF() && SyncedDir(s) && s.dir.Keys == {Release(1)}
    ensures var linked := Linked(s, Release(2), second);
      var next := Created(linked, Release(3), third);
      next.WF() && s.dir in next.log && next.dir in next.log && Pending(Release(3)) in next.dir && Release(2) !in s.dir
  {
    var linked := Linked(s, Release(2), second);
    assert s.dir in linked.log && Pending(Release(3)) !in linked.dir;
  }
}
