/**
  internal/omega/publish.go: the journal and the public repository together. A release is
  durable in the journal before the first byte of it is public; `decode` is what a journal
  record says in full.
 */
module Publication {
  import opened Wrappers
  import opened Disk
  import opened Install
  import J = Journal
  import C = Commands
  import L = Claims
  import P = Publishing
  import H = History
  import R = Release

  type Decode = J.Record -> R.Release

  /** Release `k + 1` is durable in the journal, and says `r`. */
  ghost predicate Kept(s: J.Journal, decode: Decode, k: nat, r: R.Release)
    requires s.WF()
  {
    exists rec :: Durable(s, J.Release(k + 1), rec) && decode(rec) == r
  }

  /** The repository is consistent with a history all of which is durable in the journal. */
  ghost predicate Joined(s: J.Journal, m: P.Repo, t: P.Repo, b: R.Bundle, decode: Decode, h: seq<R.Release>) {
    && J.Inv(s) && H.Accepted(b, h) && P.Consistent(b, h, m, t)
    && forall k :: 0 <= k < |h| ==> Kept(s, decode, k, h[k])
  }

  /** publication_store.go:426 on the journal's own files. */
  method ReadHistory(j: Store<J.Name, J.Record>, decode: Decode) returns (h: seq<R.Release>)
    requires J.Inv(j.fs)
    ensures J.Next(j.fs.dir, |h| + 1)
    ensures forall k :: 0 <= k < |h| ==> J.Release(k + 1) in j.fs.dir && Says(j.fs, decode, k, h[k])
  {
    var n := J.Latest(j);
    h := [];
    assert j.fs.dir in j.fs.log;
    for i := 0 to n
      invariant |h| == i
      invariant forall k :: 0 <= k < i ==> J.Release(k + 1) in j.fs.dir && Says(j.fs, decode, k, h[k])
    {
      h := h + [decode(j.fs.data[j.fs.dir[J.Release(i + 1)]].value)];
    }
  }

  ghost predicate Says(s: J.Journal, decode: Decode, k: nat, r: R.Release)
    requires s.WF()
  {
    J.Release(k + 1) in s.dir && s.data[s.dir[J.Release(k + 1)]].Whole? &&
    decode(s.data[s.dir[J.Release(k + 1)]].value) == r
  }

  lemma KeptSays(s: J.Journal, decode: Decode, k: nat, r: R.Release)
    requires s.WF() && Kept(s, decode, k, r)
    ensures Says(s, decode, k, r)
  {
    assert s.dir in s.log;
  }

  /** What is durable stays at the beginning of what is read. */
  lemma {:induction false} Extends(s: J.Journal, decode: Decode, h: seq<R.Release>, g: seq<R.Release>)
    requires J.Inv(s) && J.Next(s.dir, |g| + 1)
    requires forall k :: 0 <= k < |h| ==> Kept(s, decode, k, h[k])
    requires forall k :: 0 <= k < |g| ==> Says(s, decode, k, g[k])
    ensures h <= g
  {
    forall k | 0 <= k < |h| ensures k < |g| && h[k] == g[k] {
      KeptSays(s, decode, k, h[k]);
      if k >= |g| {
        assert s.dir in s.log && J.Good(s.dir, s.data);
        if k > |g| { J.GoodContiguous(s.dir, s.data, J.ReleaseName(k + 1), |g| + 1); }
      } else {
        assert Says(s, decode, k, g[k]);
      }
    }
    if h != [] { var last := h[|h| - 1]; }
  }

  lemma {:induction false} LongerConsistent(b: R.Bundle, h: seq<R.Release>, g: seq<R.Release>, m: P.Repo, t: P.Repo)
    requires P.Consistent(b, h, m, t) && h <= g
    ensures P.Consistent(b, g, m, t)
    decreases |g| - |h|
  {
    if h != g {
      P.LongerHistory(b, h, g[|h|], m, t);
      assert h + [g[|h|]] <= g;
      LongerConsistent(b, h + [g[|h|]], g, m, t);
    } else {
      assert h == g;
    }
  }

  lemma StillKept(s: J.Journal, t: J.Journal, decode: Decode, h: seq<R.Release>)
    requires s.WF() && t.WF() && C.KeepsDurable(s, t) && forall k :: 0 <= k < |h| ==> Kept(s, decode, k, h[k])
    ensures forall k :: 0 <= k < |h| ==> Kept(t, decode, k, h[k])
  {
    forall k | 0 <= k < |h| ensures Kept(t, decode, k, h[k]) {
      assert Kept(s, decode, k, h[k]);
      var rec :| Durable(s, J.Release(k + 1), rec) && decode(rec) == h[k];
      assert Durable(t, Final(J.ReleaseName(k + 1)), rec);
    }
  }

  lemma SettledKept(s: J.Journal, decode: Decode, g: seq<R.Release>)
    requires J.Inv(s) && C.SettledAll(s) && forall k :: 0 <= k < |g| ==> Says(s, decode, k, g[k])
    ensures forall k :: 0 <= k < |g| ==> Kept(s, decode, k, g[k])
  {
    forall k | 0 <= k < |g| ensures Kept(s, decode, k, g[k]) {
      assert Says(s, decode, k, g[k]);
      var n := J.ReleaseName(k + 1);
      assert Final(n) in s.dir;
      assert Durable(s, Final(n), s.data[s.dir[Final(n)]].value);
    }
  }

  /**
    publish.go:231-312 - the journal is settled first, and only then is its latest release
    published. Wherever this stops, the public repository is backed by durable releases.
   */
  method PublishSettled(j: Store<J.Name, J.Record>, main: Store<H.ObjectName, H.Bytes>, targets: Store<H.ObjectName, H.Bytes>,
                        b: R.Bundle, decode: Decode, ghost was: seq<R.Release>, started: int, finished: int,
                        journal: seq<Entry<J.Name>>, listing: seq<Entry<H.ObjectName>>)
    returns (r: Outcome, settled: Outcome, ghost h: seq<R.Release>)
    requires main != targets && Joined(j.fs, main.fs, targets.fs, b, decode, was)
    modifies j, main, targets
    ensures was <= h && Joined(j.fs, main.fs, targets.fs, b, decode, h)
    ensures P.KeepsServed(old(main.fs), old(targets.fs), main.fs, targets.fs) && C.Kept(old(j.fs), j.fs, settled)
    ensures r == Done ==> h != [] && P.Backed(b, h, |h| - 1, main.fs, targets.fs) &&
                          Durable(main.fs, Final(H.TimestampName), H.TimestampBytes(h[|h| - 1].timestamp))
  {
    h := was;
    ghost var s := j.fs;
    r := C.Settle(j, journal);
    settled := r;
    StillKept(s, j.fs, decode, was);
    if r != Done { return; }
    var history := ReadHistory(j, decode);
    if history == [] || !H.Accepted(b, history) { return Refused, settled, h; }
    Extends(j.fs, decode, was, history);
    SettledKept(j.fs, decode, history);
    LongerConsistent(b, was, history, main.fs, targets.fs);
    h := history;
    r := P.PublishPrepared(main, targets, b, history, started, finished, listing);
  }

  /** A command or a publication, killed anywhere, or a power loss of the whole machine. */
  datatype Event =
    | Execute(command: C.Command, checks: C.Checks, steps: nat, cut: bool, journal: seq<Entry<J.Name>>)
    | Publish(steps: nat, mainSteps: nat, targetsSteps: nat, started: int, finished: int, journal: seq<Entry<J.Name>>,
              listing: seq<Entry<H.ObjectName>>)
    | OrderedPowerLoss(upTo: nat, keepMain: map<Entry<H.ObjectName>, nat>, keepTargets: map<Entry<H.ObjectName>, nat>,
                       harm: Harm)
    | AnyPowerLoss(keep: map<Entry<J.Name>, nat>, keepMain: map<Entry<H.ObjectName>, nat>,
                   keepTargets: map<Entry<H.ObjectName>, nat>, harm: Harm)

  /**
    Journal and repository end to end: whatever runs, is killed or loses power, every timestamp
    a client can see belongs to a release that is durable in the journal and all of whose
    objects are served - up to the first unordered power loss, if any, that strikes while the
    journal has a contested or overtaken version.
   */
  method Run(j: Store<J.Name, J.Record>, main: Store<H.ObjectName, H.Bytes>, targets: Store<H.ObjectName, H.Bytes>,
             b: R.Bundle, decode: Decode, ghost history: seq<R.Release>, script: seq<Event>)
    returns (done: nat, seen: seq<L.Sight>, ghost h: seq<R.Release>)
    requires main != targets && Joined(j.fs, main.fs, targets.fs, b, decode, history)
    modifies j, main, targets
    ensures history <= h && Joined(j.fs, main.fs, targets.fs, b, decode, h)
    ensures P.KeepsServed(old(main.fs), old(targets.fs), main.fs, targets.fs) && L.Watched(j.fs, seen)
    ensures done <= |script|
    ensures done < |script| ==> script[done].AnyPowerLoss? && (L.Contested(seen) || L.Overtaken(seen))
  {
    h, done, seen := history, 0, L.FromLog(j.fs.log);
    L.LogWatched(j.fs);
    while done < |script| && !(script[done].AnyPowerLoss? && (L.Contested(seen) || L.Overtaken(seen)))
      invariant done <= |script| && history <= h && Joined(j.fs, main.fs, targets.fs, b, decode, h)
      invariant P.KeepsServed(old(main.fs), old(targets.fs), main.fs, targets.fs) && L.Watched(j.fs, seen)
    {
      seen, h := Happen(j, main, targets, b, decode, h, script[done], seen);
      done := done + 1;
    }
  }

  method Happen(j: Store<J.Name, J.Record>, main: Store<H.ObjectName, H.Bytes>, targets: Store<H.ObjectName, H.Bytes>,
                b: R.Bundle, decode: Decode, ghost was: seq<R.Release>, event: Event, seen: seq<L.Sight>)
    returns (next: seq<L.Sight>, ghost h: seq<R.Release>)
    requires main != targets && Joined(j.fs, main.fs, targets.fs, b, decode, was) && L.Watched(j.fs, seen)
    requires event.AnyPowerLoss? ==> !L.Contested(seen) && !L.Overtaken(seen)
    modifies j, main, targets
    ensures was <= h && Joined(j.fs, main.fs, targets.fs, b, decode, h)
    ensures P.KeepsServed(old(main.fs), old(targets.fs), main.fs, targets.fs) && L.Watched(j.fs, next)
  {
    h := was;
    var before := j.fs;
    match event
    case Execute(command, checks, steps, cut, journal) =>
      j.steps, j.cut := steps, cut;
      var r := C.Execute(j, command, checks, journal);
      StillKept(before, j.fs, decode, was);
      L.StillWatched(before, j.fs, seen, r);
      next := L.Watch(before, j.fs, seen, r);
    case Publish(steps, mainSteps, targetsSteps, started, finished, journal, listing) =>
      j.steps, main.steps, targets.steps := steps, mainSteps, targetsSteps;
      var r, settled;
      r, settled, h := PublishSettled(j, main, targets, b, decode, was, started, finished, journal, listing);
      L.StillWatched(before, j.fs, seen, settled);
      next := L.Watch(before, j.fs, seen, settled);
    case OrderedPowerLoss(upTo, keepMain, keepTargets, harm) =>
      j.fs := LoseOrdered(j.fs, upTo, harm);
      J.OrderedLossKeepsInv(before, j.fs);
      next := LoseRest(j, main, targets, b, decode, was, keepMain, keepTargets, harm, before);
    case AnyPowerLoss(keep, keepMain, keepTargets, harm) =>
      j.fs := Lose(j.fs, keep, harm);
      L.SeenRivals(before, seen);
      L.SeenAhead(before, seen);
      L.LossInOrder(before);
      next := LoseRest(j, main, targets, b, decode, was, keepMain, keepTargets, harm, before);
  }

  /** The power loss of the two public directories that goes with that of the journal. */
  method LoseRest(j: Store<J.Name, J.Record>, main: Store<H.ObjectName, H.Bytes>, targets: Store<H.ObjectName, H.Bytes>,
                  ghost b: R.Bundle, ghost decode: Decode, ghost h: seq<R.Release>, keepMain: map<Entry<H.ObjectName>, nat>,
                  keepTargets: map<Entry<H.ObjectName>, nat>, harm: Harm, ghost before: J.Journal)
    returns (next: seq<L.Sight>)
    requires main != targets && Joined(before, main.fs, targets.fs, b, decode, h) && Loss(before, j.fs) && J.Inv(j.fs)
    modifies main, targets
    ensures Joined(j.fs, main.fs, targets.fs, b, decode, h)
    ensures P.KeepsServed(old(main.fs), old(targets.fs), main.fs, targets.fs) && L.Watched(j.fs, next)
  {
    ghost var m, t := main.fs, targets.fs;
    main.fs := Lose(main.fs, keepMain, harm);
    targets.fs := Lose(targets.fs, keepTargets, harm);
    L.LossDurable(before, j.fs);
    StillKept(before, j.fs, decode, h);
    P.LossKept(b, h, m, t, main.fs, targets.fs);
    L.Afresh(j.fs);
    next := [L.Sight(j.fs.dir, Done)];
  }

  /** What that means to a client, even after a power loss that strikes now. */
  lemma EndToEnd(s: J.Journal, m: P.Repo, t: P.Repo, b: R.Bundle, decode: Decode, h: seq<R.Release>, s': J.Journal,
                 m': P.Repo, t': P.Repo)
    requires Joined(s, m, t, b, decode, h) && Loss(s, s') && Loss(m, m') && Loss(t, t')
    requires Final(H.TimestampName) in m'.dir
    ensures exists k :: 0 <= k < |h| && Kept(s', decode, k, h[k]) && P.Backed(b, h, k, m', t') &&
                        m'.Read(Final(H.TimestampName)) == Some(Whole(H.TimestampBytes(h[k].timestamp)))
  {
    L.LossDurable(s, s');
    StillKept(s, s', decode, h);
    P.LossKept(b, h, m, t, m', t');
    assert m'.dir in m'.log && P.Vouched(b, h, m', t', m'.dir);
    var k :| 0 <= k < |h| && P.Stamped(h, k, m', m'.dir) && P.Backed(b, h, k, m', t');
  }
}
