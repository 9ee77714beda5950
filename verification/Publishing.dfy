/**
  internal/omega/publish.go and publication_store.go: writing the public repository. Its
  objects live in two directories, the repository itself and "targets"; timestamp.json is
  the only file that is ever replaced.
 */
module Publishing {
  import opened Wrappers
  import opened Disk
  import opened Install
  import H = History
  import R = Release

  type Repo = FS<H.ObjectName, H.Bytes>

  /** `o` is on stable storage with exactly these bytes. */
  ghost predicate Served(m: Repo, t: Repo, o: H.Object)
    requires m.WF() && t.WF()
  {
    Durable(if o.name.ManifestName? then t else m, Final(o.name), o.data)
  }

  /** Every object that release `k` names is served. */
  ghost predicate Backed(b: R.Bundle, h: seq<R.Release>, k: nat, m: Repo, t: Repo)
    requires m.WF() && t.WF() && k < |h|
  {
    forall o :: o in H.Objects(b, h[k]) ==> Served(m, t, o)
  }

  /** The timestamp in `d` is that of release `k`. */
  ghost predicate Stamped(h: seq<R.Release>, k: nat, m: Repo, d: Dir<H.ObjectName>)
    requires m.WF() && d in m.log && k < |h|
  {
    Final(H.TimestampName) in d && m.data[d[Final(H.TimestampName)]] == Whole(H.TimestampBytes(h[k].timestamp))
  }

  /**
    Whichever timestamp a client can see, now or after any power loss, belongs to a recorded
    release all of whose objects are served.
   */
  ghost predicate Consistent(b: R.Bundle, h: seq<R.Release>, m: Repo, t: Repo) {
    && m.WF() && t.WF() && Sound(m) && Sound(t) && Recorded(b, h, m) && Recorded(b, h, t)
    && forall d :: d in m.log && Final(H.TimestampName) in d ==> Vouched(b, h, m, t, d)
  }

  /** Every other object a client can see is one that the history names, with those bytes. */
  ghost predicate Recorded(b: R.Bundle, h: seq<R.Release>, s: Repo)
    requires s.WF() && Sound(s)
  {
    forall d, n :: d in s.log && Final(n) in d && n != H.TimestampName ==>
      H.Named(b, h, H.Object(n, s.data[d[Final(n)]].value))
  }

  ghost predicate Vouched(b: R.Bundle, h: seq<R.Release>, m: Repo, t: Repo, d: Dir<H.ObjectName>)
    requires m.WF() && t.WF() && d in m.log
  {
    exists k :: 0 <= k < |h| && Stamped(h, k, m, d) && Backed(b, h, k, m, t)
  }

  /** Nothing that is served is ever lost or changed. */
  ghost predicate KeepsServed(m: Repo, t: Repo, m': Repo, t': Repo)
    requires m.WF() && t.WF() && m'.WF() && t'.WF()
  {
    forall o: H.Object :: o.name != H.TimestampName && Served(m, t, o) ==> Served(m', t', o)
  }

  lemma KeepsBacked(b: R.Bundle, h: seq<R.Release>, k: nat, m: Repo, t: Repo, m': Repo, t': Repo)
    requires m.WF() && t.WF() && m'.WF() && t'.WF() && k < |h|
    requires KeepsServed(m, t, m', t') && Backed(b, h, k, m, t)
    ensures Backed(b, h, k, m', t')
  {
    forall o | o in H.Objects(b, h[k]) ensures Served(m', t', o) {
      H.ObjectsOf(b, h[k], o);
    }
  }

  /** A change that leaves the timestamp entry alone, or shows one that is vouched for. */
  lemma StaysConsistent(b: R.Bundle, h: seq<R.Release>, m: Repo, t: Repo, m': Repo, t': Repo)
    requires Consistent(b, h, m, t) && m'.WF() && t'.WF() && Sound(m') && Sound(t') && Grows(m, m')
    requires KeepsServed(m, t, m', t') && Recorded(b, h, m') && Recorded(b, h, t')
    requires forall d :: d in m'.log && Final(H.TimestampName) in d ==>
      (exists c :: c in m.log && At(c, Final(H.TimestampName)) == At(d, Final(H.TimestampName))) || Vouched(b, h, m', t', d)
    ensures Consistent(b, h, m', t')
  {
    forall d | d in m'.log && Final(H.TimestampName) in d ensures Vouched(b, h, m', t', d) {
      if !Vouched(b, h, m', t', d) {
        var c :| c in m.log && At(c, Final(H.TimestampName)) == At(d, Final(H.TimestampName));
        assert Vouched(b, h, m, t, c);
        var k :| 0 <= k < |h| && Stamped(h, k, m, c) && Backed(b, h, k, m, t);
        KeepsBacked(b, h, k, m, t, m', t');
        assert Stamped(h, k, m', d);
      }
    }
  }

  lemma WriteKeepsServed(s: Repo, s': Repo, n: H.ObjectName, data: H.Bytes)
    requires s.WF() && Writing(s, s', Final(n), data)
    requires n != H.TimestampName && Final(n) in s.dir ==>
      s'.dir == s.dir && s'.data == s.data && forall d :: d in s'.log ==> d in s.log
    ensures forall k, v :: k != H.TimestampName && Durable(s, Final(k), v) ==> Durable(s', Final(k), v)
  {
    WritingKeepsDurable(s, s', n, data);
    assert s.dir in s.log;
    if n != H.TimestampName && Final(n) !in s.dir {
      assert forall v :: !Durable(s, Final(n), v);
    }
  }

  /** What a publishing step keeps, wherever it stops. */
  ghost predicate Kept(b: R.Bundle, h: seq<R.Release>, m: Repo, t: Repo, m': Repo, t': Repo)
    requires m.WF() && t.WF()
  {
    Consistent(b, h, m', t') && KeepsServed(m, t, m', t')
  }

  /** At most `n` file operations in each directory, and only running out of them stops the process. */
  ghost predicate SpentEach(main: nat, targets: nat, main': nat, targets': nat, n: nat, r: Outcome) {
    main <= main' + n && targets <= targets' + n && (r == Died ==> main' == 0 || targets' == 0)
  }

  /** publish.go:289 - one immutable object into its directory. */
  method PutObject(main: Store<H.ObjectName, H.Bytes>, targets: Store<H.ObjectName, H.Bytes>, o: H.Object,
                   ghost b: R.Bundle, ghost h: seq<R.Release>)
    returns (r: Outcome)
    requires main != targets && Consistent(b, h, main.fs, targets.fs) && o.name != H.TimestampName
    requires H.Accepted(b, h) && H.Named(b, h, o)
    modifies main, targets
    ensures Kept(b, h, old(main.fs), old(targets.fs), main.fs, targets.fs)
    ensures r == Done ==> Served(main.fs, targets.fs, o)
    ensures At(main.fs.dir, Final(H.TimestampName)) == At(old(main.fs.dir), Final(H.TimestampName))
    ensures r != Refused && Grows(old(main.fs), main.fs)
    ensures SpentEach(old(main.steps), old(targets.steps), main.steps, targets.steps, 8, r)
  {
    ghost var m, t := main.fs, targets.fs;
    NeverRefuses(b, h, m, o);
    NeverRefuses(b, h, t, o);
    if o.name.ManifestName? {
      r := targets.WriteObject(o.name, o.data, false);
      WriteKeepsServed(t, targets.fs, o.name, o.data);
      WriteRecorded(b, h, t, targets.fs, o);
      StaysConsistent(b, h, m, t, main.fs, targets.fs);
    } else {
      r := main.WriteObject(o.name, o.data, false);
      WriteKeepsServed(m, main.fs, o.name, o.data);
      WriteRecorded(b, h, m, main.fs, o);
      StampUntouched(m, main.fs, o.name, o.data);
      StaysConsistent(b, h, m, t, main.fs, targets.fs);
    }
  }

  /** By agreement of the history with itself, no object is ever in the way of another. */
  lemma NeverRefuses(b: R.Bundle, h: seq<R.Release>, s: Repo, o: H.Object)
    requires H.Accepted(b, h) && H.Named(b, h, o) && s.WF() && Sound(s) && Recorded(b, h, s) && o.name != H.TimestampName
    ensures Final(o.name) in s.dir ==> s.Read(Final(o.name)) == Some(Whole(o.data))
  {
    assert s.dir in s.log;
    if Final(o.name) in s.dir {
      var p := H.Object(o.name, s.data[s.dir[Final(o.name)]].value);
      H.AcceptedHasNoConflict(b, h);
      assert H.Named(b, h, p);
    }
  }

  lemma WriteRecorded(b: R.Bundle, h: seq<R.Release>, s: Repo, s': Repo, o: H.Object)
    requires s.WF() && Sound(s) && s'.WF() && Sound(s') && Recorded(b, h, s) && Writing(s, s', Final(o.name), o.data)
    requires o.name == H.TimestampName || H.Named(b, h, o)
    ensures Recorded(b, h, s')
  {
    assert s.dir in s.log;
    forall d, n | d in s'.log && Final(n) in d && n != H.TimestampName
      ensures H.Named(b, h, H.Object(n, s'.data[d[Final(n)]].value))
    {
      if d !in s.log {
        if n != o.name {
          assert Final(n) !in {Final(o.name), Pending(Final(o.name))};
          assert At(d, Final(n)) == At(s.dir, Final(n));
        } else {
          assert Shows(s, s', d, Final(n), o.data);
        }
      }
    }
  }

  lemma StampUntouched(m: Repo, m': Repo, n: H.ObjectName, data: H.Bytes)
    requires m.WF() && Writing(m, m', Final(n), data) && n != H.TimestampName
    ensures forall d :: d in m'.log ==> exists c :: c in m.log && At(c, Final(H.TimestampName)) == At(d, Final(H.TimestampName))
    ensures At(m'.dir, Final(H.TimestampName)) == At(m.dir, Final(H.TimestampName))
  {
    assert m.dir in m.log;
    assert Final(H.TimestampName) !in {Final(n), Pending(Final(n))};
    forall d | d in m'.log ensures exists c :: c in m.log && At(c, Final(H.TimestampName)) == At(d, Final(H.TimestampName)) {
      if d !in m.log { assert At(m.dir, Final(H.TimestampName)) == At(d, Final(H.TimestampName)); }
    }
  }

  /** publish.go:338 - only the timestamp of a recorded release may be there to be replaced. */
  method CheckTimestamp(repo: Repo, h: seq<R.Release>) returns (ok: bool)
    requires repo.WF() && h != []
    ensures ok <==> (Final(H.TimestampName) in repo.dir ==> exists k :: 0 <= k < |h| && Replaces(repo, h, k))
  {
    var data := repo.Read(Final(H.TimestampName));
    if data.None? { return true; }
    var latest := h[|h| - 1];
    if data == Some(Whole(H.TimestampBytes(latest.timestamp))) {
      assert Replaces(repo, h, |h| - 1);
      return true;
    }
    for i := 0 to |h|
      invariant forall k :: 0 <= k < i ==> !Replaces(repo, h, k)
    {
      if h[i].version < latest.version && data == Some(Whole(H.TimestampBytes(h[i].timestamp))) {
        assert Replaces(repo, h, i);
        return true;
      }
    }
    return false;
  }

  predicate Replaces(repo: Repo, h: seq<R.Release>, k: nat)
    requires repo.WF() && k < |h|
  {
    Replaceable(h, k) && repo.Read(Final(H.TimestampName)) == Some(Whole(H.TimestampBytes(h[k].timestamp)))
  }

  predicate Replaceable(h: seq<R.Release>, k: nat)
    requires k < |h|
  {
    k == |h| - 1 || h[k].version < h[|h| - 1].version
  }

  lemma TimestampKnown(b: R.Bundle, h: seq<R.Release>, m: Repo, t: Repo)
    requires H.Accepted(b, h) && h != [] && Consistent(b, h, m, t) && Final(H.TimestampName) in m.dir
    ensures exists k :: 0 <= k < |h| && Replaces(m, h, k)
  {
    assert m.dir in m.log && Vouched(b, h, m, t, m.dir);
    var k :| 0 <= k < |h| && Stamped(h, k, m, m.dir) && Backed(b, h, k, m, t);
    assert H.Entry(b, h, k) && H.Entry(b, h, |h| - 1);
    assert Replaces(m, h, k);
  }

  /** publish.go:310 - the last step: the timestamp of the latest release, once all it names is served. */
  method PutTimestamp(main: Store<H.ObjectName, H.Bytes>, targets: Store<H.ObjectName, H.Bytes>,
                      ghost b: R.Bundle, h: seq<R.Release>)
    returns (r: Outcome)
    requires main != targets && h != [] && Consistent(b, h, main.fs, targets.fs)
    requires Backed(b, h, |h| - 1, main.fs, targets.fs)
    modifies main
    ensures Kept(b, h, old(main.fs), old(targets.fs), main.fs, targets.fs)
    ensures r != Refused && Backed(b, h, |h| - 1, main.fs, targets.fs)
    ensures r == Done ==> Durable(main.fs, Final(H.TimestampName), H.TimestampBytes(h[|h| - 1].timestamp))
    ensures StampOf(old(main.fs), main.fs, h)
    ensures Spent(old(main.steps), main.steps, 8, r)
  {
    ghost var m, t := main.fs, targets.fs;
    var data := H.TimestampBytes(h[|h| - 1].timestamp);
    r := main.WriteObject(H.TimestampName, data, true);
    WriteKeepsServed(m, main.fs, H.TimestampName, data);
    WriteRecorded(b, h, m, main.fs, H.Object(H.TimestampName, data));
    TimestampPut(b, h, m, main.fs, t, data);
  }

  lemma TimestampPut(b: R.Bundle, h: seq<R.Release>, m: Repo, m': Repo, t: Repo, data: H.Bytes)
    requires h != [] && Consistent(b, h, m, t) && Backed(b, h, |h| - 1, m, t)
    requires Writing(m, m', Final(H.TimestampName), data) && data == H.TimestampBytes(h[|h| - 1].timestamp)
    requires Sound(m') && KeepsServed(m, t, m', t) && Recorded(b, h, m')
    ensures Consistent(b, h, m', t) && Backed(b, h, |h| - 1, m', t) && StampOf(m, m', h)
  {
    KeepsBacked(b, h, |h| - 1, m, t, m', t);
    assert m.dir in m.log && m'.dir in m'.log;
    forall d | d in m'.log && Final(H.TimestampName) in d
      ensures (exists c :: c in m.log && At(c, Final(H.TimestampName)) == At(d, Final(H.TimestampName))) ||
              Vouched(b, h, m', t, d)
    {
      if d in m.log {
        assert At(d, Final(H.TimestampName)) == At(d, Final(H.TimestampName));
      } else if At(d, Final(H.TimestampName)) != At(m.dir, Final(H.TimestampName)) {
        assert Shows(m, m', d, Final(H.TimestampName), data) && Stamped(h, |h| - 1, m', d);
      }
    }
    StaysConsistent(b, h, m, t, m', t);
  }

  /** The visible timestamp is the one that was there, or that of the latest release: never an older one. */
  ghost predicate StampOf(m: Repo, m': Repo, h: seq<R.Release>)
    requires m'.WF() && h != []
  {
    || At(m'.dir, Final(H.TimestampName)) == At(m.dir, Final(H.TimestampName))
    || m'.Read(Final(H.TimestampName)) == Some(Whole(H.TimestampBytes(h[|h| - 1].timestamp)))
  }

  /** publish.go:284-288: drop leftover temporary files in both directories. */
  method CleanRepository(main: Store<H.ObjectName, H.Bytes>, targets: Store<H.ObjectName, H.Bytes>,
                         listing: seq<Entry<H.ObjectName>>, ghost b: R.Bundle, ghost h: seq<R.Release>)
    returns (r: Outcome)
    requires main != targets && Consistent(b, h, main.fs, targets.fs)
    modifies main, targets
    ensures Kept(b, h, old(main.fs), old(targets.fs), main.fs, targets.fs) && r != Refused
    ensures At(main.fs.dir, Final(H.TimestampName)) == At(old(main.fs.dir), Final(H.TimestampName))
    ensures Grows(old(main.fs), main.fs)
    ensures SpentEach(old(main.steps), old(targets.steps), main.steps, targets.steps, 4 * |listing|, r)
  {
    ghost var m, t := main.fs, targets.fs;
    r := main.CleanPendingTwins(listing);
    CleaningKept(b, h, m, main.fs, Twins(m, listing));
    StaysConsistent(b, h, m, t, main.fs, t);
    if r != Done { return; }
    ghost var m' := main.fs;
    r := targets.CleanPendingTwins(listing);
    CleaningKept(b, h, t, targets.fs, Twins(t, listing));
    StaysConsistent(b, h, m', t, m', targets.fs);
  }

  lemma CleaningKept(b: R.Bundle, h: seq<R.Release>, s: Repo, s': Repo, es: set<Entry<H.ObjectName>>)
    requires s.WF() && Sound(s) && Recorded(b, h, s) && s'.WF() && Sound(s') && Cleaning(s, s', es)
    requires forall e :: e in es ==> e.Pending?
    ensures Recorded(b, h, s') && Grows(s, s')
    ensures forall d, n :: d in s'.log && Final(n) in d ==> exists c :: c in s.log && At(c, Final(n)) == At(d, Final(n))
    ensures At(s'.dir, Final(H.TimestampName)) == At(s.dir, Final(H.TimestampName))
    ensures forall k, v :: Durable(s, Final(k), v) ==> Durable(s', Final(k), v)
  {
    CleaningKeepsDurable(s, s', es);
    assert s.dir in s.log && s'.dir in s'.log;
    forall d, n | d in s'.log && Final(n) in d
      ensures exists c :: c in s.log && At(c, Final(n)) == At(d, Final(n)) && Final(n) in c
    {
      if d in s.log {
        assert At(d, Final(n)) == At(d, Final(n));
      } else {
        assert At(s.dir, Final(n)) == At(d, Final(n));
      }
    }
  }

  /**
    publish.go:254-312 on the public directories: publish the latest release of an accepted
    history. The clock is read when it starts and again before the timestamp is written, and
    an expired timestamp is the only reason to refuse.
   */
  method PublishPrepared(main: Store<H.ObjectName, H.Bytes>, targets: Store<H.ObjectName, H.Bytes>, b: R.Bundle,
                         h: seq<R.Release>, started: int, finished: int, listing: seq<Entry<H.ObjectName>>)
    returns (r: Outcome)
    requires main != targets && H.Accepted(b, h) && h != [] && Consistent(b, h, main.fs, targets.fs)
    modifies main, targets
    ensures Kept(b, h, old(main.fs), old(targets.fs), main.fs, targets.fs)
    ensures StampOf(old(main.fs), main.fs, h)
    ensures r == Refused ==> Expired(h, started) || Expired(h, finished)
    ensures Expired(h, started) ==> r == Refused && main.fs == old(main.fs) && targets.fs == old(targets.fs)
    ensures Expired(h, finished) ==> r != Done && At(main.fs.dir, Final(H.TimestampName)) == At(old(main.fs.dir), Final(H.TimestampName))
    ensures r == Done ==> Durable(main.fs, Final(H.TimestampName), H.TimestampBytes(h[|h| - 1].timestamp))
    ensures r == Done ==> Backed(b, h, |h| - 1, main.fs, targets.fs)
    ensures SpentEach(old(main.steps), old(targets.steps), main.steps, targets.steps,
                      8 * |H.Objects(b, h[|h| - 1])| + 4 * |listing| + 8, r)
  {
    if Expired(h, started) { return Refused; }
    if Final(H.TimestampName) in main.fs.dir { TimestampKnown(b, h, main.fs, targets.fs); }
    var ok := CheckTimestamp(main.fs, h);
    if !ok { return Refused; }
    r := CleanRepository(main, targets, listing, b, h);
    if r != Done { return; }
    r := PutObjects(main, targets, b, h);
    if r != Done { return; }
    if Expired(h, finished) { return Refused; }
    if Final(H.TimestampName) in main.fs.dir { TimestampKnown(b, h, main.fs, targets.fs); }
    ok := CheckTimestamp(main.fs, h);
    if !ok { return Refused; }
    r := PutTimestamp(main, targets, b, h);
  }

  predicate Expired(h: seq<R.Release>, now: int)
    requires h != []
  {
    now >= h[|h| - 1].timestamp.expires
  }

  /** publish.go:289-296: every object of the latest release, before its timestamp. */
  method PutObjects(main: Store<H.ObjectName, H.Bytes>, targets: Store<H.ObjectName, H.Bytes>, b: R.Bundle,
                    h: seq<R.Release>)
    returns (r: Outcome)
    requires main != targets && H.Accepted(b, h) && h != [] && Consistent(b, h, main.fs, targets.fs)
    modifies main, targets
    ensures Kept(b, h, old(main.fs), old(targets.fs), main.fs, targets.fs)
    ensures At(main.fs.dir, Final(H.TimestampName)) == At(old(main.fs.dir), Final(H.TimestampName)) && r != Refused
    ensures r == Done ==> Backed(b, h, |h| - 1, main.fs, targets.fs)
    ensures SpentEach(old(main.steps), old(targets.steps), main.steps, targets.steps, 8 * |H.Objects(b, h[|h| - 1])|, r)
  {
    var objects := H.Objects(b, h[|h| - 1]);
    forall o | o in objects ensures H.Named(b, h, o) && o.name != H.TimestampName { NamedByLatest(b, h, o); }
    r := PutAll(main, targets, b, h, objects);
  }

  method PutAll(main: Store<H.ObjectName, H.Bytes>, targets: Store<H.ObjectName, H.Bytes>, ghost b: R.Bundle,
                ghost h: seq<R.Release>, objects: seq<H.Object>)
    returns (r: Outcome)
    requires main != targets && H.Accepted(b, h) && Consistent(b, h, main.fs, targets.fs)
    requires forall o :: o in objects ==> H.Named(b, h, o) && o.name != H.TimestampName
    modifies main, targets
    ensures Kept(b, h, old(main.fs), old(targets.fs), main.fs, targets.fs)
    ensures At(main.fs.dir, Final(H.TimestampName)) == At(old(main.fs.dir), Final(H.TimestampName)) && r != Refused
    ensures r == Done ==> forall o :: o in objects ==> Served(main.fs, targets.fs, o)
    ensures SpentEach(old(main.steps), old(targets.steps), main.steps, targets.steps, 8 * |objects|, r)
  {
    for i := 0 to |objects|
      invariant Kept(b, h, old(main.fs), old(targets.fs), main.fs, targets.fs)
      invariant At(main.fs.dir, Final(H.TimestampName)) == At(old(main.fs.dir), Final(H.TimestampName))
      invariant FirstServed(objects, i, main.fs, targets.fs)
      invariant old(main.steps) <= main.steps + 8 * i && old(targets.steps) <= targets.steps + 8 * i
    {
      ghost var m, t := main.fs, targets.fs;
      assert objects[i] in objects;
      r := PutObject(main, targets, objects[i], b, h);
      if r != Done { return; }
      StillServed(objects, i, m, t, main.fs, targets.fs);
    }
    return Done;
  }

  lemma NamedByLatest(b: R.Bundle, h: seq<R.Release>, o: H.Object)
    requires h != [] && o in H.Objects(b, h[|h| - 1])
    ensures H.Named(b, h, o) && o.name != H.TimestampName
  {
    H.ObjectsOf(b, h[|h| - 1], o);
  }

  ghost predicate FirstServed(objects: seq<H.Object>, i: nat, m: Repo, t: Repo)
    requires m.WF() && t.WF() && i <= |objects|
  {
    forall k :: 0 <= k < i ==> Served(m, t, objects[k])
  }

  lemma StillServed(objects: seq<H.Object>, i: nat, m: Repo, t: Repo, m': Repo, t': Repo)
    requires m.WF() && t.WF() && m'.WF() && t'.WF() && KeepsServed(m, t, m', t') && i < |objects|
    requires FirstServed(objects, i, m, t) && Served(m', t', objects[i])
    requires forall o :: o in objects ==> o.name != H.TimestampName
    ensures FirstServed(objects, i + 1, m', t')
  {
    forall k | 0 <= k < i + 1 ensures Served(m', t', objects[k]) {
      assert objects[k] in objects;
    }
  }

  // Whole runs.

  /** A longer history, a publication killed somewhere, or a power loss of the whole machine. */
  datatype Event =
    | Append(release: R.Release)
    | Publish(mainSteps: nat, targetsSteps: nat, started: int, finished: int, listing: seq<Entry<H.ObjectName>>)
    | PowerLoss(keepMain: map<Entry<H.ObjectName>, nat>, keepTargets: map<Entry<H.ObjectName>, nat>, harm: Harm)

  lemma LongerHistory(b: R.Bundle, h: seq<R.Release>, r: R.Release, m: Repo, t: Repo)
    requires Consistent(b, h, m, t)
    ensures Consistent(b, h + [r], m, t)
  {
    var g := h + [r];
    forall o | H.Named(b, h, o) ensures H.Named(b, g, o) {
      var i :| 0 <= i < |h| && o in H.Objects(b, h[i]);
      assert g[i] == h[i];
    }
    forall d | d in m.log && Final(H.TimestampName) in d ensures Vouched(b, g, m, t, d) {
      assert Vouched(b, h, m, t, d);
      var k :| 0 <= k < |h| && Stamped(h, k, m, d) && Backed(b, h, k, m, t);
      assert g[k] == h[k] && Stamped(g, k, m, d) && Backed(b, g, k, m, t);
    }
  }

  lemma LossKept(b: R.Bundle, h: seq<R.Release>, m: Repo, t: Repo, m': Repo, t': Repo)
    requires Consistent(b, h, m, t) && Loss(m, m') && Loss(t, t')
    ensures Kept(b, h, m, t, m', t')
  {
    LossKeepsSound(m, m');
    LossKeepsSound(t, t');
    LossRecorded(b, h, m, m');
    LossRecorded(b, h, t, t');
    forall o: H.Object | o.name != H.TimestampName && Served(m, t, o) ensures Served(m', t', o) {
      if o.name.ManifestName? {
        LossKeepsDurable(t, t', Final(o.name), o.data);
      } else {
        LossKeepsDurable(m, m', Final(o.name), o.data);
      }
    }
    LossVouched(b, h, m, t, m', t');
  }

  lemma LossRecorded(b: R.Bundle, h: seq<R.Release>, s: Repo, s': Repo)
    requires s.WF() && Sound(s) && Recorded(b, h, s) && Loss(s, s') && Sound(s')
    ensures Recorded(b, h, s')
  {
    forall n | Final(n) in s'.dir && n != H.TimestampName
      ensures H.Named(b, h, H.Object(n, s'.data[s'.dir[Final(n)]].value))
    {
      assert Recalls(s.log, s'.dir, Final(n));
    }
  }

  lemma LossVouched(b: R.Bundle, h: seq<R.Release>, m: Repo, t: Repo, m': Repo, t': Repo)
    requires Consistent(b, h, m, t) && Loss(m, m') && Loss(t, t') && KeepsServed(m, t, m', t')
    ensures Final(H.TimestampName) in m'.dir ==> Vouched(b, h, m', t', m'.dir)
  {
    if Final(H.TimestampName) in m'.dir {
      assert Recalls(m.log, m'.dir, Final(H.TimestampName));
      var d :| d in m.log && At(m'.dir, Final(H.TimestampName)) == At(d, Final(H.TimestampName));
      assert Vouched(b, h, m, t, d);
      var k :| 0 <= k < |h| && Stamped(h, k, m, d) && Backed(b, h, k, m, t);
      KeepsBacked(b, h, k, m, t, m', t');
      assert Stamped(h, k, m', m'.dir);
    }
  }

  /**
    However the journal grows and however often publishing is killed or loses power, a
    client that sees a timestamp finds every object it vouches for, with the recorded bytes,
    and nothing served is lost or changed.
   */
  method Serve(main: Store<H.ObjectName, H.Bytes>, targets: Store<H.ObjectName, H.Bytes>, b: R.Bundle,
               history: seq<R.Release>, script: seq<Event>)
    returns (h: seq<R.Release>)
    requires main != targets && H.Accepted(b, history) && Consistent(b, history, main.fs, targets.fs)
    modifies main, targets
    ensures history <= h && H.Accepted(b, h) && Kept(b, h, old(main.fs), old(targets.fs), main.fs, targets.fs)
  {
    h := history;
    for i := 0 to |script|
      invariant history <= h && H.Accepted(b, h) && Kept(b, h, old(main.fs), old(targets.fs), main.fs, targets.fs)
    {
      ghost var m, t := main.fs, targets.fs;
      match script[i] {
        case Append(r) =>
          if H.Accepted(b, h + [r]) {
            LongerHistory(b, h, r, m, t);
            h := h + [r];
          }
        case Publish(mainSteps, targetsSteps, started, finished, listing) =>
          main.steps, targets.steps := mainSteps, targetsSteps;
          if h != [] {
            var _ := PublishPrepared(main, targets, b, h, started, finished, listing);
          }
        case PowerLoss(keepMain, keepTargets, harm) =>
          main.fs := Lose(main.fs, keepMain, harm);
          targets.fs := Lose(targets.fs, keepTargets, harm);
          LossKept(b, h, m, t, main.fs, targets.fs);
      }
    }
  }
}
