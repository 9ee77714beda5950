/**
  internal/omega/renewal_custody.go: copying the publication journal of the authority home
  to the operational home, file by file, resuming what earlier runs left. The source is
  fixed while this runs; base file names and file contents are numbers, and an incomplete
  write equals no file of the source.
 */
module Copying {
  import opened Wrappers
  import opened Disk
  import opened Install

  type Journal = FS<nat, nat>
  type Source = map<Entry<nat>, nat>

  function Temp(n: nat): Entry<nat> { Pending(Final(n)) }

  /** A journal directory: files and their temporary files. */
  ghost predicate Plain(source: Source) { forall e :: e in source ==> e.Final? || e.of.Final? }

  /** A file and its temporary file; a receipt that is being replaced has other bytes than its successor. */
  predicate Twin(source: Source, n: nat) { Final(n) in source && Temp(n) in source }

  /** `order` is a listing of the source directory. */
  ghost predicate Lists(order: seq<Entry<nat>>, source: Source) {
    && (forall e :: e in order <==> e in source)
    && (forall i, j :: 0 <= i < j < |order| ==> order[i] != order[j])
  }

  /** The listing has the file before its temporary file. */
  ghost predicate FileFirst(order: seq<Entry<nat>>, n: nat) {
    exists i, j :: 0 <= i < j < |order| && order[i] == Final(n) && order[j] == Temp(n)
  }

  // One run of the copy.

  /** Every file of the copy is one of the source, with its bytes. */
  ghost predicate Faithful(s: Journal, source: Source) {
    && s.WF() && Sound(s)
    && forall d, n: nat :: d in s.log && Final(n) in d ==> Final(n) in source && s.data[d[Final(n)]] == Whole(source[Final(n)])
  }

  predicate Differs(s: Journal, source: Source, n: nat)
    requires s.WF()
  {
    Temp(n) in source && Temp(n) in s.dir && s.Read(Temp(n)) != Some(Whole(source[Temp(n)]))
  }

  /**
    The copy has a temporary file with other bytes than the source's, and a run will come
    upon it: the file is there already, or listed after it.
   */
  ghost predicate Stuck(s: Journal, source: Source, order: seq<Entry<nat>>, n: nat)
    requires s.WF()
  {
    Differs(s, source, n) && (FileFirst(order, n) ==> Final(n) in s.dir)
  }

  ghost predicate Obstructed(s: Journal, source: Source, order: seq<Entry<nat>>)
    requires s.WF()
  {
    exists n :: Stuck(s, source, order, n)
  }

  lemma InstallFaithful(s: Journal, t: Journal, source: Source, e: Entry<nat>)
    requires Faithful(s, source) && t.WF() && Sound(t) && Plain(source) && e in source && Installing(s, t, e, source[e])
    ensures Faithful(t, source)
  {
    assert s.dir in s.log;
    forall d, n: nat | d in t.log && Final(n) in d
      ensures Final(n) in source && t.data[d[Final(n)]] == Whole(source[Final(n)])
    {
      if d !in s.log && Final(n) != e {
        assert Final(n) !in {e, Pending(e)};
        assert At(d, Final(n)) == At(s.dir, Final(n));
      }
    }
  }

  /** `t` has under `e` the very bytes that `s` has, or nothing just as `s`. */
  ghost predicate Same(s: Journal, t: Journal, e: Entry<nat>)
    requires s.WF() && t.WF()
  {
    At(t.dir, e) == At(s.dir, e) && t.Read(e) == s.Read(e)
  }

  /** What the run so far has done to the two names of a file. */
  ghost predicate Progress(s: Journal, t: Journal, order: seq<Entry<nat>>, i: nat, n: nat)
    requires s.WF() && t.WF() && i <= |order|
  {
    if Temp(n) in order[..i] then true
    else if Final(n) in order[..i] then
      Final(n) in t.dir && (if Final(n) in s.dir then Same(s, t, Temp(n)) else Temp(n) !in t.dir)
    else Same(s, t, Temp(n)) && Same(s, t, Final(n))
  }

  ghost predicate AllProgress(s: Journal, t: Journal, order: seq<Entry<nat>>, i: nat)
    requires s.WF() && t.WF() && i <= |order|
  {
    forall n :: Progress(s, t, order, i, n)
  }

  lemma NotTouched(s: Journal, m: Journal, t: Journal, order: seq<Entry<nat>>, i: nat, n: nat, value: nat)
    requires s.WF() && m.WF() && i < |order| && Progress(s, m, order, i, n) && Installing(m, t, order[i], value)
    requires order[i] != Final(n) && order[i] != Temp(n) && (order[i].Final? || order[i].of.Final?)
    ensures Progress(s, t, order, i + 1, n)
  {
    assert order[..i + 1] == order[..i] + [order[i]];
    assert Final(n) !in {order[i], Pending(order[i])} && Temp(n) !in {order[i], Pending(order[i])};
    assert At(t.dir, Final(n)) == At(m.dir, Final(n)) && At(t.dir, Temp(n)) == At(m.dir, Temp(n));
  }

  lemma FileCopied(s: Journal, m: Journal, t: Journal, order: seq<Entry<nat>>, i: nat, n: nat, value: nat)
    requires s.WF() && m.WF() && i < |order| && Progress(s, m, order, i, n) && order[i] == Final(n)
    requires forall k :: 0 <= k < i ==> order[k] != Final(n)
    requires Installing(m, t, Final(n), value) && Final(n) in t.dir
    requires Final(n) in m.dir || Temp(n) !in t.dir
    ensures Progress(s, t, order, i + 1, n)
  {
    assert order[..i + 1] == order[..i] + [order[i]];
    assert Final(n) !in order[..i];
  }

  lemma {:induction false} TempVisited(order: seq<Entry<nat>>, i: nat, n: nat)
    requires i < |order| && order[i] == Temp(n) && forall k, j :: 0 <= k < j < |order| ==> order[k] != order[j]
    ensures Temp(n) !in order[..i]
    ensures FileFirst(order, n) <==> Final(n) in order[..i]
  {
    if Final(n) in order[..i] {
      var k :| 0 <= k < i && order[..i][k] == Final(n);
      assert order[k] == Final(n);
    }
    if FileFirst(order, n) {
      var k, j :| 0 <= k < j < |order| && order[k] == Final(n) && order[j] == Temp(n);
      assert j == i;
      assert order[..i][k] == Final(n);
    }
  }

  /** When the run comes to a temporary file, it is in the way exactly if it was so from the start. */
  lemma AtTemp(s: Journal, m: Journal, source: Source, order: seq<Entry<nat>>, i: nat, n: nat)
    requires s.WF() && m.WF() && i < |order| && order[i] == Temp(n) && Lists(order, source) && Progress(s, m, order, i, n)
    ensures Differs(m, source, n) <==> Stuck(s, source, order, n)
  {
    TempVisited(order, i, n);
    assert order[i] in order;
  }

  /** The entries visited so far are there, except temporary copies that their file replaced. */
  ghost predicate Visited(d: Dir<nat>, order: seq<Entry<nat>>, i: nat)
    requires i <= |order|
  {
    forall k :: 0 <= k < i ==> order[k] in d || (order[k].Pending? && order[k].of in d)
  }

  lemma VisitOne(s: Journal, t: Journal, order: seq<Entry<nat>>, i: nat, value: nat)
    requires s.WF() && i < |order| && Visited(s.dir, order, i) && Installing(s, t, order[i], value) && order[i] in t.dir
    requires forall e :: e in order ==> e.Final? || e.of.Final?
    ensures Visited(t.dir, order, i + 1)
  {
    forall k | 0 <= k < i + 1 ensures order[k] in t.dir || (order[k].Pending? && order[k].of in t.dir) {
      assert order[k] in order && order[i] in order;
      var es := {order[i], Pending(order[i])};
      if k < i && order[k] !in es {
        assert At(t.dir, order[k]) == At(s.dir, order[k]);
        if order[k] !in s.dir && order[k].of !in es {
          assert At(t.dir, order[k].of) == At(s.dir, order[k].of);
        }
      }
    }
  }

  /** The copied journal is exactly the source history, on stable storage. */
  ghost predicate Copied(s: Journal, source: Source) {
    && s.WF()
    && (forall n :: Final(n) in source ==> Durable(s, Final(n), source[Final(n)]))
    && (forall d, n: nat :: d in s.log && Final(n) in d ==> Final(n) in source)
  }

  ghost predicate HasAll(d: Dir<nat>, source: Source) { forall n :: Final(n) in source ==> Final(n) in d }

  lemma AllVisited(s: Journal, source: Source, order: seq<Entry<nat>>)
    requires Lists(order, source) && Visited(s.dir, order, |order|)
    ensures HasAll(s.dir, source)
  {
    forall n | Final(n) in source ensures Final(n) in s.dir {
      assert Final(n) in order;
      var k :| 0 <= k < |order| && order[k] == Final(n);
    }
  }

  lemma InstallCopied(s: Journal, t: Journal, source: Source, e: Entry<nat>)
    requires Copied(s, source) && Faithful(t, source) && e in source && (e.Final? || e.of.Final?)
    requires Installing(s, t, e, source[e])
    ensures Copied(t, source)
  {
    forall n | Final(n) in source ensures Durable(t, Final(n), source[Final(n)]) {
      assert Durable(s, Final(n), source[Final(n)]) && s.dir in s.log;
      if e != Final(n) {
        FrameKeepsDurable(s, t, {e, Pending(e)}, Final(n), source[Final(n)]);
      }
    }
  }

  lemma CleanedDirs(s: Journal, t: Journal, es: set<Entry<nat>>)
    requires Cleaning(s, t, es)
    ensures forall d :: d in t.log ==> d in s.log || Removes(d, s.dir, es)
  {
    forall d | d in t.log ensures d in s.log || Removes(d, s.dir, es) {
      var i :| 0 <= i < |t.log| && t.log[i] == d;
      if s.log <= t.log && i < |s.log| { assert s.log[i] == d; }
    }
  }

  lemma CleanedFaithful(s: Journal, t: Journal, source: Source, es: set<Entry<nat>>)
    requires Faithful(s, source) && t.WF() && Sound(t) && Cleaning(s, t, es) && forall e :: e in es ==> e.Pending?
    ensures Faithful(t, source) && (HasAll(s.dir, source) ==> HasAll(t.dir, source))
  {
    CleanedDirs(s, t, es);
    assert s.dir in s.log;
    forall d, n: nat | Removes(d, s.dir, es) ensures At(d, Final(n)) == At(s.dir, Final(n)) { assert Final(n) !in es; }
  }

  lemma SyncedCopy(s: Journal, t: Journal, source: Source)
    requires Faithful(s, source) && HasAll(s.dir, source) && t == s.SyncDir()
    ensures Copied(t, source) && Faithful(t, source)
  {
    assert s.dir in s.log;
  }

  /** The states in which a run over the rest of a listing can be killed or refused. */
  ghost predicate Leaves(s: Journal, source: Source, rest: seq<Entry<nat>>, t: Journal)
    requires s.WF()
    decreases |rest|
  {
    || t == s
    || (rest == [] && Tidied(s, t))
    || (rest != [] && rest[0] in source && LeavesAt(s, source, rest, t))
  }

  ghost predicate LeavesAt(s: Journal, source: Source, rest: seq<Entry<nat>>, t: Journal)
    requires s.WF() && rest != [] && rest[0] in source
    decreases |rest|, 0
  {
    if rest[0] in s.dir then s.Read(rest[0]) == Some(Whole(source[rest[0]])) && Leaves(s, source, rest[1..], t)
    else
      || KilledAt(s, rest[0], source[rest[0]], true, t)
      || Leaves(Installed(s, rest[0], source[rest[0]]), source, rest[1..], t)
  }

  /** The copy is complete, and perhaps some temporary twins are gone. */
  ghost predicate Tidied(s: Journal, t: Journal)
    requires s.WF()
  {
    exists es :: OnlyTwins(s, es) && t.WF() && Sound(t) && Cleaning(s, t, es)
  }

  ghost predicate OnlyTwins(s: Journal, es: set<Entry<nat>>)
    requires s.WF()
  {
    forall e :: e in es ==> e.Pending? && e in s.dir && e.of in s.dir && s.Read(e) == s.Read(e.of)
  }

  /**
    renewal_custody.go:331 - resumes a copy that earlier runs left unfinished. It is refused
    exactly if a temporary file is in the way.
   */
  method CopyPublication(dest: Store<nat, nat>, source: Source, order: seq<Entry<nat>>, listing: seq<Entry<nat>>)
    returns (r: Outcome)
    requires Faithful(dest.fs, source) && Plain(source) && Lists(order, source)
    modifies dest
    ensures Faithful(dest.fs, source)
    ensures r == Refused ==> Obstructed(old(dest.fs), source, order)
    ensures Obstructed(old(dest.fs), source, order) ==> r != Done
    ensures r == Done || old(Copied(dest.fs, source)) ==> Copied(dest.fs, source)
    ensures Leaves(old(dest.fs), source, order, dest.fs)
    ensures Spent(old(dest.steps), dest.steps, 8 * |order| + 4 * |listing| + 1, r)
  {
    ghost var was := dest.fs;
    assert order[0..] == order;
    for i := 0 to |order|
      invariant Faithful(dest.fs, source) && Visited(dest.fs.dir, order, i)
      invariant AllProgress(was, dest.fs, order, i)
      invariant forall t :: Leaves(dest.fs, source, order[i..], t) ==> Leaves(was, source, order, t)
      invariant forall k, n :: 0 <= k < i && order[k] == Temp(n) ==> !Stuck(was, source, order, n)
      invariant old(Copied(dest.fs, source)) ==> Copied(dest.fs, source)
      invariant old(dest.steps) <= dest.steps + 8 * i
    {
      ghost var s := dest.fs;
      assert order[i] in order;
      r := dest.Install(order[i], source[order[i]]);
      CopyStep(was, s, dest.fs, source, order, i, r);
      LeavesStep(s, dest.fs, source, order, i, r);
      if r != Done { return; }
      VisitOne(s, dest.fs, order, i, source[order[i]]);
    }
    AllVisited(dest.fs, source, order);
    NothingStuck(was, source, order);
    assert order[|order|..] == [];
    SameAsCopied(dest.fs, source);
    if !SameHistory(dest.fs, source) { return Refused; }
    r := FinishCopy(dest, source, listing);
  }

  lemma LeavesStep(s: Journal, t: Journal, source: Source, order: seq<Entry<nat>>, i: nat, r: Outcome)
    requires s.WF() && t.WF() && i < |order| && order[i] in source
    requires if order[i] in s.dir then t == s else KilledAt(s, order[i], source[order[i]], true, t)
    requires r == Done ==> t.Read(order[i]) == Some(Whole(source[order[i]]))
    requires r == Done && order[i] !in s.dir ==> t == Installed(s, order[i], source[order[i]])
    ensures Leaves(s, source, order[i..], t)
    ensures r == Done ==> forall u :: Leaves(t, source, order[i + 1..], u) ==> Leaves(s, source, order[i..], u)
  {
    assert order[i..][0] == order[i] && order[i..][1..] == order[i + 1..];
  }

  /** renewal_custody.go:391-397: the copied files read back as the source's. */
  predicate SameHistory(s: Journal, source: Source)
    requires s.WF()
  {
    && (forall e :: e in source && e.Final? ==> s.Read(e) == Some(Whole(source[e])))
    && (forall e :: e in s.dir && e.Final? ==> e in source)
  }

  lemma SameAsCopied(s: Journal, source: Source)
    requires Faithful(s, source) && HasAll(s.dir, source)
    ensures SameHistory(s, source)
  {
    assert s.dir in s.log;
    forall e | e in source && e.Final? ensures s.Read(e) == Some(Whole(source[e])) {
      assert e == Final(e.base) && Final(e.base) in s.dir;
    }
    forall e | e in s.dir && e.Final? ensures e in source { assert e == Final(e.base); }
  }

  lemma NothingStuck(s: Journal, source: Source, order: seq<Entry<nat>>)
    requires s.WF() && Lists(order, source)
    requires forall k, n :: 0 <= k < |order| && order[k] == Temp(n) ==> !Stuck(s, source, order, n)
    ensures !Obstructed(s, source, order)
  {
    forall n ensures !Stuck(s, source, order, n) {
      if Temp(n) in source {
        assert Temp(n) in order;
        var k :| 0 <= k < |order| && order[k] == Temp(n);
      }
    }
  }

  lemma CopyStep(was: Journal, s: Journal, t: Journal, source: Source, order: seq<Entry<nat>>, i: nat, r: Outcome)
    requires was.WF() && Faithful(s, source) && Plain(source) && Lists(order, source) && i < |order| && order[i] in source
    requires t.WF() && Sound(t) && Installing(s, t, order[i], source[order[i]])
    requires r == Refused <==> order[i] in s.dir && s.Read(order[i]) != Some(Whole(source[order[i]]))
    requires r == Done ==> t.Read(order[i]) == Some(Whole(source[order[i]]))
    requires r == Done && order[i] !in s.dir ==> Pending(order[i]) !in t.dir
    requires AllProgress(was, s, order, i)
    ensures Faithful(t, source) && (Copied(s, source) ==> Copied(t, source))
    ensures r == Refused ==> Obstructed(was, source, order)
    ensures r == Done ==> AllProgress(was, t, order, i + 1)
    ensures r == Done ==> forall n :: order[i] == Temp(n) ==> !Stuck(was, source, order, n)
  {
    InstallFaithful(s, t, source, order[i]);
    if Copied(s, source) { InstallCopied(s, t, source, order[i]); }
    assert s.dir in s.log;
    if order[i].Pending? {
      var n := order[i].of.base;
      assert Progress(was, s, order, i, n);
      AtTemp(was, s, source, order, i, n);
    }
    if r == Done {
      var next := i + 1;
      forall n ensures Progress(was, t, order, next, n) {
        assert Progress(was, s, order, i, n);
        StepProgress(was, s, t, source, order, i, n);
      }
    }
  }

  lemma StepProgress(was: Journal, s: Journal, t: Journal, source: Source, order: seq<Entry<nat>>, i: nat, n: nat)
    requires was.WF() && s.WF() && Plain(source) && Lists(order, source) && i < |order| && order[i] in source
    requires Installing(s, t, order[i], source[order[i]]) && order[i] in t.dir
    requires order[i] !in s.dir ==> Pending(order[i]) !in t.dir
    requires Progress(was, s, order, i, n)
    ensures Progress(was, t, order, i + 1, n)
  {
    if order[i] == Final(n) {
      FileCopied(was, s, t, order, i, n, source[order[i]]);
    } else if order[i] == Temp(n) {
      assert order[..i + 1] == order[..i] + [order[i]];
    } else {
      NotTouched(was, s, t, order, i, n, source[order[i]]);
    }
  }

  /** renewal_custody.go:398-401 */
  method FinishCopy(dest: Store<nat, nat>, source: Source, listing: seq<Entry<nat>>) returns (r: Outcome)
    requires Faithful(dest.fs, source) && HasAll(dest.fs.dir, source)
    modifies dest
    ensures Faithful(dest.fs, source) && r != Refused
    ensures r == Done || old(Copied(dest.fs, source)) ==> Copied(dest.fs, source)
    ensures Tidied(old(dest.fs), dest.fs)
    ensures Spent(old(dest.steps), dest.steps, 4 * |listing| + 1, r)
  {
    ghost var s := dest.fs;
    r := dest.CleanPendingTwins(listing);
    ghost var es := Twins(s, listing);
    CleanedFaithful(s, dest.fs, source, es);
    CleaningKeepsDurable(s, dest.fs, es);
    if Copied(s, source) { CleanedDirs(s, dest.fs, es); CleanedCopied(s, dest.fs, source, es); }
    assert OnlyTwins(s, es);
    if r != Done { return; }
    ghost var t := dest.fs;
    r := dest.SyncDir();
    if r == Done { SyncedCopy(t, dest.fs, source); }
    assert Cleaning(s, dest.fs, es);
  }

  lemma CleanedCopied(s: Journal, t: Journal, source: Source, es: set<Entry<nat>>)
    requires Copied(s, source) && t.WF() && Faithful(t, source)
    requires forall n, v :: Durable(s, Final(n), v) ==> Durable(t, Final(n), v)
    ensures Copied(t, source)
  {
  }

  // Which copies can always be resumed.

  /**
    How the directory may be listed from run to run: names in `early` always with the
    temporary file first, names in `late` always with the file first, others either way.
   */
  ghost predicate Respects(order: seq<Entry<nat>>, source: Source, early: set<nat>, late: set<nat>) {
    && (forall n :: n in early && Twin(source, n) ==> !FileFirst(order, n))
    && (forall n :: n in late && Twin(source, n) ==> FileFirst(order, n))
  }

  /**
    Every file that has a temporary file beside it has the same bytes as that, and is always
    listed on the same side of it; if power losses need not keep directory operations in
    order, always after it.
   */
  ghost predicate Resumable(source: Source, early: set<nat>, late: set<nat>, orderly: bool) {
    forall n :: Twin(source, n) ==> source[Final(n)] == source[Temp(n)] && (n in early || (orderly && n in late))
  }

  /** What a copy that can be resumed looks like. */
  ghost predicate Staged(d: Dir<nat>, s: Journal, source: Source, early: set<nat>, late: set<nat>) {
    forall n :: Temp(n) in d && Temp(n) in source && (Final(n) in source && n !in early ==> Final(n) in d) ==>
      d[Temp(n)] in s.synced && d[Temp(n)] in s.data && s.data[d[Temp(n)]] == Whole(source[Temp(n)])
  }

  ghost predicate Staging(s: Journal, source: Source, early: set<nat>, late: set<nat>) {
    Faithful(s, source) && forall d :: d in s.log ==> Staged(d, s, source, early, late)
  }

  lemma StagedUnstuck(s: Journal, source: Source, early: set<nat>, late: set<nat>, order: seq<Entry<nat>>, orderly: bool)
    requires Staging(s, source, early, late) && Resumable(source, early, late, orderly) && Respects(order, source, early, late)
    ensures !Obstructed(s, source, order)
  {
    assert s.dir in s.log;
    forall n: nat ensures !Stuck(s, source, order, n) {
      if Stuck(s, source, order, n) && Final(n) in source { assert Twin(source, n); }
    }
  }

  lemma StagedGrows(d: Dir<nat>, s: Journal, t: Journal, source: Source, early: set<nat>, late: set<nat>)
    requires Staged(d, s, source, early, late) && Grows(s, t)
    ensures Staged(d, t, source, early, late)
  {
  }

  /** Copying a file: its temporary file is a copy already, or may be anything until the file is there. */
  lemma FileStaged(s: Journal, t: Journal, d: Dir<nat>, source: Source, early: set<nat>, late: set<nat>, n: nat)
    requires s.WF() && t.WF() && Grows(s, t) && Final(n) in source && Final(n) !in s.dir && d in t.log
    requires Staged(s.dir, s, source, early, late)
    requires Twin(source, n) ==> source[Final(n)] == source[Temp(n)] && (n in early ==> Temp(n) in s.dir)
    requires SameBut(d, s.dir, {Final(n), Temp(n)}) && Partial(s, t, d, Final(n), source[Final(n)])
    ensures Staged(d, t, source, early, late)
  {
    forall k | k != n ensures At(d, Final(k)) == At(s.dir, Final(k)) && At(d, Temp(k)) == At(s.dir, Temp(k)) {
      assert Final(k) !in {Final(n), Temp(n)} && Temp(k) !in {Final(n), Temp(n)};
    }
    if Twin(source, n) && n in early {
      assert Ready(s, Final(n), source[Final(n)]);
    }
  }

  /** Copying a temporary file, under a temporary name of its own. */
  lemma TemporaryStaged(s: Journal, t: Journal, d: Dir<nat>, source: Source, early: set<nat>, late: set<nat>, n: nat)
    requires s.WF() && t.WF() && Grows(s, t) && Temp(n) in source && Temp(n) !in s.dir && d in t.log
    requires Staged(s.dir, s, source, early, late)
    requires SameBut(d, s.dir, {Temp(n), Pending(Temp(n))}) && Partial(s, t, d, Temp(n), source[Temp(n)])
    ensures Staged(d, t, source, early, late)
  {
    forall k ensures At(d, Final(k)) == At(s.dir, Final(k)) && (k != n ==> At(d, Temp(k)) == At(s.dir, Temp(k))) {
      assert Final(k) !in {Temp(n), Pending(Temp(n))};
      assert k != n ==> Temp(k) !in {Temp(n), Pending(Temp(n))};
    }
  }

  lemma InstallStaged(s: Journal, t: Journal, source: Source, early: set<nat>, late: set<nat>, e: Entry<nat>)
    requires Staging(s, source, early, late) && t.WF() && Sound(t) && Plain(source) && e in source && e !in s.dir
    requires Installing(s, t, e, source[e])
    requires e.Final? && Twin(source, e.base) ==> source[e] == source[Pending(e)] && (e.base in early ==> Pending(e) in s.dir)
    ensures Staging(t, source, early, late)
  {
    InstallFaithful(s, t, source, e);
    assert s.dir in s.log;
    forall d | d in t.log ensures Staged(d, t, source, early, late) {
      if d in s.log {
        StagedGrows(d, s, t, source, early, late);
      } else if e.Final? {
        FileStaged(s, t, d, source, early, late, e.base);
      } else {
        TemporaryStaged(s, t, d, source, early, late, e.of.base);
      }
    }
  }

  /** A file whose temporary file comes first finds it in place. */
  lemma TempInPlace(s: Journal, source: Source, order: seq<Entry<nat>>, i: nat, n: nat)
    requires Lists(order, source) && i < |order| && Visited(s.dir, order, i) && order[i] == Final(n) && Final(n) !in s.dir
    requires Twin(source, n) && !FileFirst(order, n)
    ensures Temp(n) in s.dir
  {
    assert Temp(n) in order;
    var j :| 0 <= j < |order| && order[j] == Temp(n);
    assert j < i;
  }

  lemma {:induction false} LeavesStaged(s: Journal, t: Journal, source: Source, early: set<nat>, late: set<nat>, orderly: bool,
                                        order: seq<Entry<nat>>, i: nat)
    requires Staging(s, source, early, late) && Resumable(source, early, late, orderly) && Plain(source)
    requires Lists(order, source) && Respects(order, source, early, late) && i <= |order| && Visited(s.dir, order, i)
    requires Leaves(s, source, order[i..], t)
    ensures Staging(t, source, early, late)
    decreases |order| - i
  {
    if t != s {
      if i == |order| {
        var es :| OnlyTwins(s, es) && t.WF() && Sound(t) && Cleaning(s, t, es);
        TidiedStaged(s, t, source, early, late, es);
      } else {
        var e := order[i];
        assert order[i..][0] == e && order[i..][1..] == order[i + 1..] && e in order;
        if e in s.dir {
          VisitedHere(s.dir, order, i);
          LeavesStaged(s, t, source, early, late, orderly, order, i + 1);
        } else {
          LeavesInstall(s, t, source, early, late, orderly, order, i);
          if !KilledAt(s, e, source[e], true, t) {
            LeavesStaged(Installed(s, e, source[e]), t, source, early, late, orderly, order, i + 1);
          }
        }
      }
    }
  }

  lemma VisitedHere(d: Dir<nat>, order: seq<Entry<nat>>, i: nat)
    requires i < |order| && Visited(d, order, i) && order[i] in d
    ensures Visited(d, order, i + 1)
  {
  }

  lemma LeavesInstall(s: Journal, t: Journal, source: Source, early: set<nat>, late: set<nat>, orderly: bool,
                      order: seq<Entry<nat>>, i: nat)
    requires Staging(s, source, early, late) && Resumable(source, early, late, orderly) && Plain(source)
    requires Lists(order, source) && Respects(order, source, early, late) && i < |order| && Visited(s.dir, order, i)
    requires order[i] in source && order[i] !in s.dir
    ensures KilledAt(s, order[i], source[order[i]], true, t) ==> Staging(t, source, early, late)
    ensures Staging(Installed(s, order[i], source[order[i]]), source, early, late)
    ensures Visited(Installed(s, order[i], source[order[i]]).dir, order, i + 1)
  {
    var e := order[i];
    var m := Installed(s, e, source[e]);
    if e.Final? && Twin(source, e.base) && e.base in early { TempInPlace(s, source, order, i, e.base); }
    InstallPathSafe(s, e, source[e], m);
    InstallStaged(s, m, source, early, late, e);
    InstalledThere(s, e, source[e]);
    VisitOne(s, m, order, i, source[e]);
    if KilledAt(s, e, source[e], true, t) {
      InstallPathSafe(s, e, source[e], t);
      InstallStaged(s, t, source, early, late, e);
    }
  }

  lemma InstalledThere(s: Journal, e: Entry<nat>, value: nat)
    requires s.WF() && e !in s.dir
    ensures e in Installed(s, e, value).dir
  {
    assert e in Linked(s, e, value).dir && e != Pending(e);
  }

  lemma TidiedStaged(s: Journal, t: Journal, source: Source, early: set<nat>, late: set<nat>, es: set<Entry<nat>>)
    requires Staging(s, source, early, late) && t.WF() && Sound(t) && OnlyTwins(s, es) && Cleaning(s, t, es)
    ensures Staging(t, source, early, late)
  {
    CleanedFaithful(s, t, source, es);
    CleanedDirs(s, t, es);
    assert s.dir in s.log;
    forall d | d in t.log ensures Staged(d, t, source, early, late) {
      if d !in s.log {
        forall n: nat | Temp(n) in d ensures At(s.dir, Temp(n)) == Some(d[Temp(n)]) && At(d, Final(n)) == At(s.dir, Final(n)) {
          assert Final(n) !in es;
        }
      }
    }
  }

  lemma OrderedStaged(s: Journal, t: Journal, source: Source, early: set<nat>, late: set<nat>)
    requires Staging(s, source, early, late) && OrderedLoss(s, t)
    ensures Staging(t, source, early, late)
  {
    LossKeepsSound(s, t);
    assert Staged(t.dir, s, source, early, late);
  }

  /** If every temporary file is listed first, each name stands for itself, and so survives in any mixture. */
  lemma AnyStaged(s: Journal, t: Journal, source: Source, early: set<nat>, late: set<nat>)
    requires Staging(s, source, early, late) && Loss(s, t) && Resumable(source, early, late, false)
    ensures Staging(t, source, early, late)
  {
    LossKeepsSound(s, t);
    forall n: nat | Final(n) in t.dir ensures Final(n) in source && t.data[t.dir[Final(n)]] == Whole(source[Final(n)]) {
      assert Recalls(s.log, t.dir, Final(n));
    }
    forall n: nat | Temp(n) in t.dir && Temp(n) in source
      ensures t.data[t.dir[Temp(n)]] == Whole(source[Temp(n)])
    {
      assert Recalls(s.log, t.dir, Temp(n));
      var d :| d in s.log && At(t.dir, Temp(n)) == At(d, Temp(n));
      assert Staged(d, s, source, early, late);
      if Final(n) in source { assert Twin(source, n); }
    }
  }

  /** An operational home that nothing has been copied to. */
  ghost predicate Blank(s: Journal) { s.WF() && s.dir == map[] && s.log == [s.dir] }

  /** A run that is killed or refused somewhere, or a power loss. */
  ghost predicate Moves(s: Journal, t: Journal, source: Source, early: set<nat>, late: set<nat>, orderly: bool) {
    && s.WF() && t.WF()
    && (KilledRun(s, t, source, early, late) || (if orderly then OrderedLoss(s, t) else Loss(s, t)))
  }

  ghost predicate KilledRun(s: Journal, t: Journal, source: Source, early: set<nat>, late: set<nat>)
    requires s.WF()
  {
    exists order :: Allowed(order, source, early, late) && Leaves(s, source, order, t)
  }

  ghost predicate Allowed(order: seq<Entry<nat>>, source: Source, early: set<nat>, late: set<nat>) {
    Lists(order, source) && Respects(order, source, early, late)
  }

  ghost predicate Trace(states: seq<Journal>, source: Source, early: set<nat>, late: set<nat>, orderly: bool) {
    && states != [] && Blank(states[0])
    && forall i :: 0 <= i < |states| ==> states[i].WF() && MovesTo(states, i, source, early, late, orderly)
  }

  ghost predicate MovesTo(states: seq<Journal>, i: nat, source: Source, early: set<nat>, late: set<nat>, orderly: bool)
    requires i < |states|
  {
    i > 0 ==> Moves(states[i - 1], states[i], source, early, late, orderly)
  }

  /** However often it was killed and whatever power losses it went through, the next run is not refused. */
  ghost predicate AlwaysResumes(source: Source, early: set<nat>, late: set<nat>, orderly: bool) {
    forall states, order :: Trace(states, source, early, late, orderly) && Allowed(order, source, early, late) ==>
      !Obstructed(states[|states| - 1], source, order)
  }

  lemma {:induction false} TraceStaged(states: seq<Journal>, source: Source, early: set<nat>, late: set<nat>, orderly: bool,
                                       i: nat)
    requires Trace(states, source, early, late, orderly) && Resumable(source, early, late, orderly) && Plain(source)
    requires i < |states|
    ensures Staging(states[i], source, early, late)
  {
    if i > 0 {
      TraceStaged(states, source, early, late, orderly, i - 1);
      var s, t := states[i - 1], states[i];
      assert MovesTo(states, i, source, early, late, orderly);
      if KilledRun(s, t, source, early, late) {
        var order :| Allowed(order, source, early, late) && Leaves(s, source, order, t);
        assert order[0..] == order;
        LeavesStaged(s, t, source, early, late, orderly, order, 0);
      } else if orderly {
        OrderedStaged(s, t, source, early, late);
      } else {
        AnyStaged(s, t, source, early, late);
      }
    }
  }

  // A listing of any kind exists.

  ghost function Enumerate(es: set<Entry<nat>>): (s: seq<Entry<nat>>)
    ensures forall e :: e in s <==> e in es
    ensures forall i, j :: 0 <= i < j < |s| ==> s[i] != s[j]
  {
    if es == {} then []
    else
      var e :| e in es;
      var rest := Enumerate(es - {e});
      assert e !in rest;
      [e] + rest
  }

  /** Temporary files that may come first, then files, then the other temporary files. */
  lemma ListingOf(source: Source, early: set<nat>, late: set<nat>, n: nat, fileFirst: bool) returns (order: seq<Entry<nat>>)
    requires Plain(source) && early !! late && Twin(source, n) && if fileFirst then n !in early else n !in late
    ensures Allowed(order, source, early, late) && |order| >= 2
    ensures if fileFirst then order[0] == Final(n) && order[1] == Temp(n) else order[0] == Temp(n) && order[1] == Final(n)
    ensures FileFirst(order, n) <==> fileFirst
  {
    var head := if fileFirst then [Final(n), Temp(n)] else [Temp(n), Final(n)];
    var x, y, z := ListingParts(source, late, n);
    order := head + x + y + z;
    ListingFrom(source, early, late, n, head, x, y, z);
    assert order[0] == head[0] && order[1] == head[1];
  }

  lemma ListingParts(source: Source, late: set<nat>, n: nat)
    returns (x: seq<Entry<nat>>, y: seq<Entry<nat>>, z: seq<Entry<nat>>)
    requires Plain(source)
    ensures Distinct(x) && Distinct(y) && Distinct(z)
    ensures forall e :: e in x <==> e in source && e !in {Final(n), Temp(n)} && e.Pending? && e.of.base !in late
    ensures forall e :: e in y <==> e in source && e !in {Final(n), Temp(n)} && e.Final?
    ensures forall e :: e in z <==> e in source && e !in {Final(n), Temp(n)} && e.Pending? && e.of.base in late
  {
    var own := {Final(n), Temp(n)};
    x := Enumerate(set e | e in source && e !in own && e.Pending? && e.of.base !in late);
    y := Enumerate(set e | e in source && e !in own && e.Final?);
    z := Enumerate(set e | e in source && e !in own && e.Pending? && e.of.base in late);
  }

  lemma ListingFrom(source: Source, early: set<nat>, late: set<nat>, n: nat, head: seq<Entry<nat>>, x: seq<Entry<nat>>,
                    y: seq<Entry<nat>>, z: seq<Entry<nat>>)
    requires Plain(source) && early !! late && Twin(source, n)
    requires head == [Final(n), Temp(n)] || head == [Temp(n), Final(n)]
    requires if head[0] == Final(n) then n !in early else n !in late
    requires Distinct(x) && Distinct(y) && Distinct(z)
    requires forall e :: e in x <==> e in source && e !in {Final(n), Temp(n)} && e.Pending? && e.of.base !in late
    requires forall e :: e in y <==> e in source && e !in {Final(n), Temp(n)} && e.Final?
    requires forall e :: e in z <==> e in source && e !in {Final(n), Temp(n)} && e.Pending? && e.of.base in late
    ensures Allowed(head + x + y + z, source, early, late)
    ensures FileFirst(head + x + y + z, n) <==> head[0] == Final(n)
  {
    ListingDistinct(head, x, y, z);
    ListingLists(source, late, head, x, y, z, {Final(n), Temp(n)});
    ListingRespects(source, early, late, head, x, y, z, n, head + x + y + z);
  }

  lemma ListingDistinct(head: seq<Entry<nat>>, x: seq<Entry<nat>>, y: seq<Entry<nat>>, z: seq<Entry<nat>>)
    requires Distinct(head) && Distinct(x) && Distinct(y) && Distinct(z)
    requires forall e :: e in head ==> e !in x && e !in y && e !in z
    requires forall e :: e in x ==> e !in y && e !in z
    requires forall e :: e in y ==> e !in z
    ensures Distinct(head + x + y + z)
  {
    DistinctConcat(head, x);
    DistinctConcat(head + x, y);
    DistinctConcat(head + x + y, z);
  }

  ghost predicate Distinct(s: seq<Entry<nat>>) { forall i, j :: 0 <= i < j < |s| ==> s[i] != s[j] }

  lemma DistinctConcat(a: seq<Entry<nat>>, b: seq<Entry<nat>>)
    requires Distinct(a) && Distinct(b) && forall e :: e in a ==> e !in b
    ensures Distinct(a + b)
  {
    var s := a + b;
    forall i, j | 0 <= i < j < |s| ensures s[i] != s[j] {
      if i < |a| <= j {
        assert s[i] == a[i] && a[i] in a && s[j] == b[j - |a|] && b[j - |a|] in b;
      }
    }
  }

  lemma ListingLists(source: Source, late: set<nat>, head: seq<Entry<nat>>, x: seq<Entry<nat>>, y: seq<Entry<nat>>,
                     z: seq<Entry<nat>>, own: set<Entry<nat>>)
    requires Plain(source) && (forall e :: e in head <==> e in own) && own <= source.Keys
    requires forall e :: e in x <==> e in source && e !in own && e.Pending? && e.of.base !in late
    requires forall e :: e in y <==> e in source && e !in own && e.Final?
    requires forall e :: e in z <==> e in source && e !in own && e.Pending? && e.of.base in late
    ensures forall e :: e in head + x + y + z <==> e in source
  {
    forall e ensures e in head + x + y + z <==> e in source {
      assert e in head + x + y + z <==> e in head || e in x || e in y || e in z;
    }
  }

  lemma ListingRespects(source: Source, early: set<nat>, late: set<nat>, head: seq<Entry<nat>>, x: seq<Entry<nat>>,
                        y: seq<Entry<nat>>, z: seq<Entry<nat>>, n: nat, order: seq<Entry<nat>>)
    requires order == head + x + y + z && Distinct(order) && early !! late
    requires head == [Final(n), Temp(n)] || head == [Temp(n), Final(n)]
    requires if head[0] == Final(n) then n !in early else n !in late
    requires forall e :: e in x ==> e.Pending? && e.of.Final? && e.of.base !in late
    requires forall e :: e in y ==> e.Final?
    requires forall e :: e in z ==> e.Pending? && e.of.Final? && e.of.base in late
    requires forall e :: e in order <==> e in source
    ensures Respects(order, source, early, late) && (FileFirst(order, n) <==> head[0] == Final(n))
  {
    assert order[0] == head[0] && order[1] == head[1];
    forall m | m in early && Twin(source, m) ensures !FileFirst(order, m) {
      if m != n && FileFirst(order, m) { EarlyFirst(head, x, y, z, n, m, late); }
    }
    forall m | m in late && Twin(source, m) ensures FileFirst(order, m) {
      if m != n { LateLast(head, x, y, z, n, m, late); }
    }
  }

  lemma EarlyFirst(head: seq<Entry<nat>>, x: seq<Entry<nat>>, y: seq<Entry<nat>>, z: seq<Entry<nat>>, n: nat, m: nat,
                   late: set<nat>)
    requires (head == [Final(n), Temp(n)] || head == [Temp(n), Final(n)]) && m != n && m !in late
    requires forall e :: e in x ==> e.Pending?
    requires forall e :: e in y ==> e.Final?
    requires forall e :: e in z ==> e.Pending? && e.of.Final? && e.of.base in late
    ensures !FileFirst(head + x + y + z, m)
  {
    var order := head + x + y + z;
    if FileFirst(order, m) {
      var i, j :| 0 <= i < j < |order| && order[i] == Final(m) && order[j] == Temp(m);
      WhereIs(head, x, y, z, i);
      WhereIs(head, x, y, z, j);
    }
  }

  lemma WhereIs(head: seq<Entry<nat>>, x: seq<Entry<nat>>, y: seq<Entry<nat>>, z: seq<Entry<nat>>, i: nat)
    requires i < |head + x + y + z|
    ensures var e := (head + x + y + z)[i];
      if i < |head| then e in head
      else if i < |head| + |x| then e in x
      else if i < |head| + |x| + |y| then e in y
      else e in z
  {
    var e := (head + x + y + z)[i];
    if i < |head| {
      assert e == head[i];
    } else if i < |head| + |x| {
      assert e == x[i - |head|];
    } else if i < |head| + |x| + |y| {
      assert e == y[i - |head| - |x|];
    } else {
      assert e == z[i - |head| - |x| - |y|];
    }
  }

  lemma LateLast(head: seq<Entry<nat>>, x: seq<Entry<nat>>, y: seq<Entry<nat>>, z: seq<Entry<nat>>, n: nat, m: nat,
                 late: set<nat>)
    requires (head == [Final(n), Temp(n)] || head == [Temp(n), Final(n)]) && m != n && m in late
    requires forall e :: e in x ==> e.Pending? && e.of.Final? && e.of.base !in late
    requires forall e :: e in y ==> e.Final?
    requires forall e :: e in z ==> e.Pending?
    requires Final(m) in head + x + y + z && Temp(m) in head + x + y + z
    ensures FileFirst(head + x + y + z, m)
  {
    var order := head + x + y + z;
    var i :| 0 <= i < |order| && order[i] == Final(m);
    var j :| 0 <= j < |order| && order[j] == Temp(m);
    WhereIs(head, x, y, z, i);
    WhereIs(head, x, y, z, j);
  }

  // Where resuming fails.

  /** The two states a first run can be killed in that matter: the temporary file just created, and the file just linked. */
  lemma FirstInstall(s: Journal, n: nat, value: nat)
    requires Blank(s)
    ensures var t := Created(s, Final(n), value);
      && t.WF() && t.dir == map[Temp(n) := s.next] && t.log == [map[], t.dir] && t.data[s.next] == Torn && t.next == s.next + 1
    ensures var t := Linked(s, Final(n), value);
      t.WF() && Final(n) in t.dir && t.Read(Temp(n)) == Some(Whole(value))
  {
    assert !Reuse(s, Final(n), value) && Cleared(s, Final(n), value) == s;
  }

  /** Any later install of the file starts from a temporary file with other bytes, which it replaces. */
  lemma Relinked(s: Journal, n: nat, value: nat)
    requires s.WF() && Final(n) !in s.dir && !Reuse(s, Final(n), value)
    ensures var t := Linked(s, Final(n), value);
      t.WF() && Final(n) in t.dir && t.Read(Temp(n)) == Some(Whole(value)) && s.log <= t.log && t.dir in t.log
  {
  }

  lemma KilledFirst(s: Journal, t: Journal, source: Source, early: set<nat>, late: set<nat>, order: seq<Entry<nat>>)
    requires s.WF() && t.WF() && Allowed(order, source, early, late) && order != [] && order[0] in source && order[0] !in s.dir
    requires KilledAt(s, order[0], source[order[0]], true, t)
    ensures KilledRun(s, t, source, early, late)
  {
    assert Leaves(s, source, order, t);
  }

  lemma ShortTrace(s: Journal, t: Journal, source: Source, early: set<nat>, late: set<nat>, orderly: bool)
    requires Blank(s) && Moves(s, t, source, early, late, orderly)
    ensures Trace([s, t], source, early, late, orderly)
  {
    var states := [s, t];
    assert MovesTo(states, 0, source, early, late, orderly) && MovesTo(states, 1, source, early, late, orderly);
  }

  /** The file and its temporary file differ: a run killed after the link leaves the wrong temporary file beside the file. */
  lemma DifferingTwin(source: Source, early: set<nat>, late: set<nat>, orderly: bool, n: nat, s: Journal)
    requires Plain(source) && early !! late && Twin(source, n) && source[Final(n)] != source[Temp(n)] && Blank(s)
    ensures !AlwaysResumes(source, early, late, orderly)
  {
    var order := ListingOf(source, early, late, n, n !in early);
    var t: Journal;
    if n !in early {
      t := Linked(s, Final(n), source[Final(n)]);
      FirstInstall(s, n, source[Final(n)]);
      KilledFirst(s, t, source, early, late, order);
    } else {
      t := TempThenFile(s, source, order, n);
    }
    ShortTrace(s, t, source, early, late, orderly);
    assert Stuck(t, source, order, n);
    assert [s, t][1] == t;
  }

  lemma TempThenFile(s: Journal, source: Source, order: seq<Entry<nat>>, n: nat) returns (t: Journal)
    requires Blank(s) && Twin(source, n) && source[Final(n)] != source[Temp(n)] && Lists(order, source)
    requires |order| >= 2 && order[0] == Temp(n) && order[1] == Final(n)
    ensures t.WF() && Leaves(s, source, order, t) && Final(n) in t.dir && t.Read(Temp(n)) == Some(Whole(source[Final(n)]))
  {
    var m := Installed(s, Temp(n), source[Temp(n)]);
    TempInstalled(s, n, source[Temp(n)]);
    t := Linked(m, Final(n), source[Final(n)]);
    Relinked(m, n, source[Final(n)]);
    assert order[1..][0] == Final(n) && Final(n) in source;
    assert LeavesAt(m, source, order[1..], t);
    assert LeavesAt(s, source, order, t);
  }

  lemma TempInstalled(s: Journal, n: nat, value: nat)
    requires Blank(s)
    ensures var m := Installed(s, Temp(n), value);
      m.WF() && Final(n) !in m.dir && m.Read(Temp(n)) == Some(Whole(value))
  {
    assert !Reuse(s, Temp(n), value) && Cleared(s, Temp(n), value) == s;
    assert Created(s, Temp(n), value).dir == map[Pending(Temp(n)) := s.next];
    var w := Synced(s, Temp(n), value);
    assert w.data[s.next] == Whole(value);
    assert Linked(s, Temp(n), value).dir == map[Pending(Temp(n)) := s.next, Temp(n) := s.next];
  }

  /** The listing turns around: a run that began with the file is killed as it creates the temporary file. */
  lemma TurnedAround(source: Source, early: set<nat>, late: set<nat>, orderly: bool, n: nat, s: Journal)
    requires Plain(source) && early !! late && Twin(source, n) && n !in early && n !in late && Blank(s)
    ensures !AlwaysResumes(source, early, late, orderly)
  {
    var order := ListingOf(source, early, late, n, true);
    var turned := ListingOf(source, early, late, n, false);
    var t := Created(s, Final(n), source[Final(n)]);
    FirstInstall(s, n, source[Final(n)]);
    KilledFirst(s, t, source, early, late, order);
    ShortTrace(s, t, source, early, late, orderly);
    assert Stuck(t, source, turned, n);
    assert [s, t][1] == t;
  }

  /** Directory entries persist in any order: the torn temporary file of a first run comes back beside the file of a second. */
  lemma TornBeside(source: Source, early: set<nat>, late: set<nat>, n: nat, s: Journal)
    requires Plain(source) && early !! late && Twin(source, n) && n !in early && Blank(s)
    ensures !AlwaysResumes(source, early, late, false)
  {
    var order := ListingOf(source, early, late, n, true);
    var value := source[Final(n)];
    var torn, linked, t := TornStates(s, n, value);
    KilledFirst(s, torn, source, early, late, order);
    KilledFirst(torn, linked, source, early, late, order);
    var states := TornTrace(s, torn, linked, t, source, early, late);
    TornStuck(t, source, order, n);
  }

  lemma TornTrace(s: Journal, torn: Journal, linked: Journal, t: Journal, source: Source, early: set<nat>, late: set<nat>)
    returns (states: seq<Journal>)
    requires Blank(s) && torn.WF() && linked.WF() && Loss(linked, t)
    requires KilledRun(s, torn, source, early, late) && KilledRun(torn, linked, source, early, late)
    ensures Trace(states, source, early, late, false) && states[|states| - 1] == t
  {
    ShortTrace(s, torn, source, early, late, false);
    LongerTrace([s, torn], linked, source, early, late, false);
    states := [s, torn] + [linked] + [t];
    LongerTrace([s, torn] + [linked], t, source, early, late, false);
  }

  lemma TornStuck(t: Journal, source: Source, order: seq<Entry<nat>>, n: nat)
    requires t.WF() && Twin(source, n) && Final(n) in t.dir && t.Read(Temp(n)) == Some(Torn)
    ensures Obstructed(t, source, order)
  {
    assert Stuck(t, source, order, n);
  }

  lemma LongerTrace(states: seq<Journal>, t: Journal, source: Source, early: set<nat>, late: set<nat>, orderly: bool)
    requires Trace(states, source, early, late, orderly) && Moves(states[|states| - 1], t, source, early, late, orderly)
    ensures Trace(states + [t], source, early, late, orderly)
  {
    var more := states + [t];
    forall i | 0 <= i < |more| ensures more[i].WF() && MovesTo(more, i, source, early, late, orderly) {
      if i < |states| { assert MovesTo(states, i, source, early, late, orderly); }
    }
  }

  lemma TornStates(s: Journal, n: nat, value: nat) returns (torn: Journal, linked: Journal, t: Journal)
    requires Blank(s)
    ensures torn.WF() && Final(n) !in torn.dir && KilledAt(s, Final(n), value, true, torn)
    ensures linked.WF() && KilledAt(torn, Final(n), value, true, linked) && Loss(linked, t)
    ensures Final(n) in t.dir && t.Read(Temp(n)) == Some(Torn)
  {
    torn := Created(s, Final(n), value);
    FirstInstall(s, n, value);
    linked := Linked(torn, Final(n), value);
    Relinked(torn, n, value);
    RelinkedTorn(torn, n, value, s.next);
    assert torn.log[1] == torn.dir && linked.log[1] == torn.dir;
    t := BroughtBack(linked, n, torn.dir, s.next);
  }

  lemma BroughtBack(linked: Journal, n: nat, d: Dir<nat>, i: nat) returns (t: Journal)
    requires linked.WF() && Final(n) in linked.dir && |linked.log| > 1 && linked.log[1] == d
    requires At(d, Temp(n)) == Some(i) && i in linked.data && linked.data[i] == Torn
    ensures Loss(linked, t) && Final(n) in t.dir && t.Read(Temp(n)) == Some(Torn)
  {
    var keep := map[Temp(n) := 1, Final(n) := |linked.log| - 1];
    t := Lose(linked, keep, Harm({}, {}));
    assert keep[Temp(n)] == 1 && keep[Final(n)] == |linked.log| - 1;
    assert At(t.dir, Temp(n)) == At(d, Temp(n)) && At(t.dir, Final(n)) == At(linked.dir, Final(n));
  }

  lemma RelinkedTorn(s: Journal, n: nat, value: nat, i: nat)
    requires s.WF() && Final(n) !in s.dir && !Reuse(s, Final(n), value) && i in s.data && s.data[i] == Torn
    ensures var t := Linked(s, Final(n), value); i in t.data && t.data[i] == Torn
  {
  }

  /** Exactly which copies can be resumed after every kill and every power loss. */
  lemma Resumes(source: Source, early: set<nat>, late: set<nat>, orderly: bool)
    requires Plain(source) && early !! late
    ensures AlwaysResumes(source, early, late, orderly) <==> Resumable(source, early, late, orderly)
  {
    if Resumable(source, early, late, orderly) {
      forall states, order | Trace(states, source, early, late, orderly) && Allowed(order, source, early, late)
        ensures !Obstructed(states[|states| - 1], source, order)
      {
        TraceStaged(states, source, early, late, orderly, |states| - 1);
        StagedUnstuck(states[|states| - 1], source, early, late, order, orderly);
      }
    } else {
      var n :| Twin(source, n) && !(source[Final(n)] == source[Temp(n)] && (n in early || (orderly && n in late)));
      var s: Journal := FS(map[], [map[]], map[], {}, 0);
      if source[Final(n)] != source[Temp(n)] {
        DifferingTwin(source, early, late, orderly, n, s);
      } else if orderly {
        TurnedAround(source, early, late, orderly, n, s);
      } else {
        TornBeside(source, early, late, n, s);
      }
    }
  }
}
