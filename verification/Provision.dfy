/**
  internal/omega/renewal_custody.go: handing the publication journal from the authority
  home to a separate operational home. The binding fences the source journal before the
  first byte is copied, and the custody record is committed last.
 */
module Provision {
  import opened Wrappers
  import opened Disk
  import opened Install
  import opened Copying

  datatype HomeFile = Publisher    // NETWORK.publisher.json: the operational home, by path
  datatype OnlineFile = Custody    // NETWORK.renewal.json: the operational custody record

  type Home = FS<HomeFile, nat>
  type Online = FS<OnlineFile, nat>

  /** renewal_custody.go:107-114: without any binding the authority home publishes itself. */
  predicate HomeAllocates(home: Home) {
    Final(Publisher) !in home.dir && Pending(Final(Publisher)) !in home.dir
  }

  /** renewal_custody.go:127: the operational home publishes once its custody record is committed. */
  predicate OnlineAllocates(online: Online) {
    Final(Custody) in online.dir
  }

  /** Every complete version of the only record in a home is `value`. */
  ghost predicate Only<N(!new)>(s: FS<N, nat>, name: N, value: nat)
    requires s.WF()
  {
    forall d :: d in s.log ==>
      && (Final(name) in d ==> s.data[d[Final(name)]] == Whole(value))
      && (Pending(Final(name)) in d && s.data[d[Pending(Final(name))]].Whole? ==>
            s.data[d[Pending(Final(name))]] == Whole(value))
  }

  /** The source is fenced, for good, before the operational home can allocate anything. */
  ghost predicate Fenced(home: Home, online: Online, target: nat, planned: nat) {
    && home.WF() && Sound(home) && online.WF() && Sound(online)
    && Only(home, Publisher, target) && Only(online, Custody, planned)
    && ((exists d :: d in online.log && Final(Custody) in d) ==> Durable(home, Final(Publisher), target))
  }

  /** Until the operational home allocates, its journal is an unfinished or an exact copy of the source. */
  ghost predicate Handing(home: Home, online: Online, dest: Journal, source: Source, target: nat) {
    && home.WF() && Faithful(dest, source)
    && ((exists d :: d in online.log && Final(Custody) in d) ==> Copied(dest, source))
    && ((exists d :: d in dest.log && d != map[]) ==> Durable(home, Final(Publisher), target))
  }

  /** The temporary file of a record lacks only its last byte: complete JSON, but not the record. */
  predicate Spoilt<N(==)>(s: FS<N, nat>, name: N)
    requires s.WF()
  {
    s.Read(Pending(Final(name))) == Some(Cut)
  }

  /** Why a run is refused: one of the two records is spoilt, or a temporary file is in the way of the copy. */
  ghost predicate Blocked(home: Home, online: Online, dest: Journal, source: Source, order: seq<Entry<nat>>)
    requires home.WF() && online.WF() && dest.WF()
  {
    || Spoilt(home, Publisher) || Spoilt(online, Custody)
    || (Final(Custody) !in online.dir && Obstructed(dest, source, order))
  }

  lemma InstallOnly<N(!new)>(s: FS<N, nat>, t: FS<N, nat>, name: N, value: nat)
    requires s.WF() && Only(s, name, value) && Installing(s, t, Final(name), value)
    ensures Only(t, name, value)
  {
  }

  lemma CleaningOnly<N(!new)>(s: FS<N, nat>, t: FS<N, nat>, name: N, value: nat, es: set<Entry<N>>)
    requires s.WF() && t.WF() && Only(s, name, value) && Cleaning(s, t, es)
    ensures Only(t, name, value)
    ensures (exists d :: d in t.log && Final(name) in d) ==> (exists d :: d in s.log && Final(name) in d)
  {
    assert s.dir in s.log;
    forall d | d in t.log
      ensures Final(name) in d ==> t.data[d[Final(name)]] == Whole(value) && exists c :: c in s.log && Final(name) in c
      ensures Pending(Final(name)) in d && t.data[d[Pending(Final(name))]].Whole? ==>
        t.data[d[Pending(Final(name))]] == Whole(value)
    {
      var i :| 0 <= i < |t.log| && t.log[i] == d;
      if s.log <= t.log && i < |s.log| {
        assert s.log[i] == d && d in s.log;
      } else {
        assert Removes(d, s.dir, es);
        assert Final(name) in d ==> At(s.dir, Final(name)) == Some(d[Final(name)]);
        assert Pending(Final(name)) in d ==> At(s.dir, Pending(Final(name))) == Some(d[Pending(Final(name))]);
      }
    }
  }

  /** renewal_custody.go:187-196 and 239-245: whether what is there may be carried on with. */
  method Admits<N(==, !new)>(s: FS<N, nat>, name: N, value: nat) returns (ok: bool)
    requires s.WF() && Sound(s) && Only(s, name, value)
    ensures ok <==> !Spoilt(s, name)
  {
    assert s.dir in s.log;
    var data := s.Read(Final(name));
    if data.Some? && data != Some(Whole(value)) { return false; }
    data := s.Read(Pending(Final(name)));
    return data.None? || data.value.Torn? || data == Some(Whole(value));
  }

  /** Installing the one record of a home and syncing its directory. */
  method Record<N(==, !new)>(home: Store<N, nat>, name: N, value: nat) returns (r: Outcome)
    requires home.Valid() && Only(home.fs, name, value)
    modifies home
    ensures home.Valid() && Only(home.fs, name, value) && r != Refused
    ensures old(Durable(home.fs, Final(name), value)) ==> Durable(home.fs, Final(name), value)
    ensures r == Done ==> Durable(home.fs, Final(name), value)
    ensures !old(home.cut) ==> Uncut(old(home.fs.data), home.fs.data)
    ensures Spent(old(home.steps), home.steps, 9, r)
  {
    ghost var s, cut := home.fs, home.cut;
    assert s.dir in s.log;
    r := home.Install(Final(name), value);
    InstallOnly(s, home.fs, name, value);
    InstallKeepsDurable(s, home.fs, name, value);
    if !cut && Final(name) !in s.dir { PathUncut(s, Final(name), value, home.fs); }
    if r != Done { return; }
    ghost var t := home.fs;
    assert t.dir in t.log;
    r := home.SyncDir();
  }

  /** renewal_custody.go:264-269: bind the authority home before a byte is copied. */
  method Fence(home: Store<HomeFile, nat>, target: nat) returns (r: Outcome)
    requires home.Valid() && Only(home.fs, Publisher, target)
    modifies home
    ensures home.Valid() && Only(home.fs, Publisher, target) && r != Refused
    ensures old(Durable(home.fs, Final(Publisher), target)) ==> Durable(home.fs, Final(Publisher), target)
    ensures r == Done ==> Durable(home.fs, Final(Publisher), target)
    ensures !old(home.cut) ==> Uncut(old(home.fs.data), home.fs.data)
    ensures Spent(old(home.steps), home.steps, 9, r)
  {
    r := Record(home, Publisher, target);
  }

  /** renewal_custody.go:282-287: commit the custody record last. */
  method Commit(online: Store<OnlineFile, nat>, planned: nat) returns (r: Outcome)
    requires online.Valid() && Only(online.fs, Custody, planned)
    modifies online
    ensures online.Valid() && Only(online.fs, Custody, planned) && r != Refused
    ensures r == Done ==> Durable(online.fs, Final(Custody), planned)
    ensures !old(online.cut) ==> Uncut(old(online.fs.data), online.fs.data)
    ensures Spent(old(online.steps), online.steps, 9, r)
  {
    r := Record(online, Custody, planned);
  }

  /** What a run may have done to the two homes, and how far it got. */
  ghost predicate Handed(home: Home, online: Online, dest: Journal, home': Home, online': Online, dest': Journal,
                         source: Source, order: seq<Entry<nat>>, target: nat, planned: nat, r: Outcome)
    requires online.WF() && dest.WF()
  {
    && Fenced(home', online', target, planned)
    && (if Final(Custody) in online.dir then dest' == dest && Final(Custody) in online'.dir
        else Handing(home', online', dest', source, target) && Leaves(dest, source, order, dest'))
    && (r == Done ==> Durable(home', Final(Publisher), target) && Durable(online', Final(Custody), planned))
    && (r == Done && Final(Custody) !in online.dir ==> Copied(dest', source))
  }

  /** renewal_custody.go:245-288: fence, copy, commit; or, once committed, nothing but a directory sync. */
  method HandOver(home: Store<HomeFile, nat>, online: Store<OnlineFile, nat>, dest: Store<nat, nat>, source: Source,
                  order: seq<Entry<nat>>, target: nat, planned: nat, listing: seq<Entry<nat>>)
    returns (r: Outcome)
    requires Fenced(home.fs, online.fs, target, planned) && Plain(source) && Lists(order, source) && dest.fs.WF()
    requires Final(Custody) !in online.fs.dir ==> Handing(home.fs, online.fs, dest.fs, source, target)
    modifies home, online, dest
    ensures Handed(old(home.fs), old(online.fs), old(dest.fs), home.fs, online.fs, dest.fs, source, order, target, planned, r)
    ensures r == Refused ==> old(Final(Custody) !in online.fs.dir) && Obstructed(old(dest.fs), source, order)
    ensures old(Final(Custody) !in online.fs.dir) && Obstructed(old(dest.fs), source, order) ==> r != Done
    ensures !old(home.cut) ==> Uncut(old(home.fs.data), home.fs.data)
    ensures !old(online.cut) ==> Uncut(old(online.fs.data), online.fs.data)
    ensures home.steps + 9 >= old(home.steps) && online.steps + 9 >= old(online.steps)
    ensures dest.steps + 8 * |order| + 4 * |listing| + 1 >= old(dest.steps)
    ensures r == Died ==> home.steps == 0 || online.steps == 0 || dest.steps == 0
  {
    assert online.fs.dir in online.fs.log && home.fs.dir in home.fs.log;
    if Final(Custody) in online.fs.dir {
      if online.fs.Read(Final(Custody)) != Some(Whole(planned)) { return Refused; }
      if home.fs.Read(Final(Publisher)) != Some(Whole(target)) { return Refused; }
      r := online.SyncDir();
      return;
    }
    r := Fence(home, target);
    if r != Done { return; }
    r := CopyPublication(dest, source, order, listing);
    if r != Done { return; }
    r := Commit(online, planned);
  }

  /**
    renewal_custody.go:142 - it can be killed anywhere and run again; it is refused exactly if
    it is blocked, and a committed handoff is not copied over, since its publisher may be
    running.
   */
  method ProvisionRenewal(home: Store<HomeFile, nat>, online: Store<OnlineFile, nat>, dest: Store<nat, nat>, source: Source,
                          order: seq<Entry<nat>>, target: nat, planned: nat, listing: seq<Entry<nat>>)
    returns (r: Outcome)
    requires Fenced(home.fs, online.fs, target, planned) && Plain(source) && Lists(order, source) && dest.fs.WF()
    requires Final(Custody) !in online.fs.dir ==> Handing(home.fs, online.fs, dest.fs, source, target)
    modifies home, online, dest
    ensures Handed(old(home.fs), old(online.fs), old(dest.fs), home.fs, online.fs, dest.fs, source, order, target, planned, r)
    ensures r == Refused ==> Blocked(old(home.fs), old(online.fs), old(dest.fs), source, order)
    ensures Blocked(old(home.fs), old(online.fs), old(dest.fs), source, order) ==> r != Done
    ensures Spoilt(old(home.fs), Publisher) || Spoilt(old(online.fs), Custody) ==>
      r == Refused && home.fs == old(home.fs) && online.fs == old(online.fs) && dest.fs == old(dest.fs)
    ensures !old(home.cut) ==> Uncut(old(home.fs.data), home.fs.data)
    ensures !old(online.cut) ==> Uncut(old(online.fs.data), online.fs.data)
    ensures home.steps + 13 >= old(home.steps) && online.steps + 13 >= old(online.steps)
    ensures dest.steps + 8 * |order| + 4 * |listing| + 1 >= old(dest.steps)
    ensures r == Died ==> home.steps == 0 || online.steps == 0 || dest.steps == 0
  {
    var ok := Admits(home.fs, Publisher, target);
    if !ok { return Refused; }
    ok := Admits(online.fs, Custody, planned);
    if !ok { return Refused; }
    r := HandOver(home, online, dest, source, order, target, planned, listing);
    if r != Done { return; }
    r := CleanHomes(home, online, target, planned);
  }

  /** renewal_custody.go:292-297: drop the temporary twins of both records. */
  method CleanHomes(home: Store<HomeFile, nat>, online: Store<OnlineFile, nat>, target: nat, planned: nat) returns (r: Outcome)
    requires Fenced(home.fs, online.fs, target, planned)
    requires Durable(home.fs, Final(Publisher), target) && Durable(online.fs, Final(Custody), planned)
    modifies home, online
    ensures Fenced(home.fs, online.fs, target, planned) && r != Refused
    ensures Durable(home.fs, Final(Publisher), target) && Durable(online.fs, Final(Custody), planned)
    ensures home.fs.data == old(home.fs.data) && online.fs.data == old(online.fs.data)
    ensures home.steps + 4 >= old(home.steps) && online.steps + 4 >= old(online.steps)
    ensures r == Died ==> home.steps == 0 || online.steps == 0
  {
    ghost var s, t := home.fs, online.fs;
    r := home.CleanPendingTwins([Pending(Final(Publisher))]);
    CleaningOnly(s, home.fs, Publisher, target, Twins(s, [Pending(Final(Publisher))]));
    CleaningKeepsDurable(s, home.fs, Twins(s, [Pending(Final(Publisher))]));
    if r != Done { return; }
    r := online.CleanPendingTwins([Pending(Final(Custody))]);
    CleaningOnly(t, online.fs, Custody, planned, Twins(t, [Pending(Final(Custody))]));
    CleaningKeepsDurable(t, online.fs, Twins(t, [Pending(Final(Custody))]));
  }

  // Whole runs.

  /**
    A run over one listing, killed by the step budgets of the three directories, or a power
    loss of the machine they are on; `cut` says whether a write that does not complete lacks
    only its last byte.
   */
  datatype Event =
    | Provision(order: seq<Entry<nat>>, homeSteps: nat, onlineSteps: nat, destSteps: nat, cut: bool)
    | PowerLoss(keepHome: map<Entry<HomeFile>, nat>, keepOnline: map<Entry<OnlineFile>, nat>,
                keepDest: map<Entry<nat>, nat>, upTo: nat, harm: Harm)

  /** Enough file operations in each of the three directories to copy the source and look at `twins` leftovers. */
  predicate Unhurried(e: Event, twins: nat) {
    e.Provision? && e.homeSteps > 13 && e.onlineSteps > 13 && e.destSteps > 8 * |e.order| + 4 * twins + 1
  }

  ghost predicate NoCut(data: map<nat, Content<nat>>) { forall i :: i in data ==> !data[i].Cut? }

  predicate Cuts(e: Event) {
    match e
    case Provision(_, _, _, _, cut) => cut
    case PowerLoss(_, _, _, _, harm) => harm.cut != {}
  }

  /** One of the two records lacks only its last byte. */
  predicate AnySpoilt(home: Home, online: Online)
    requires home.WF() && online.WF()
  {
    Spoilt(home, Publisher) || Spoilt(online, Custody)
  }

  /** Everything that holds between the runs of a handoff that can be resumed. */
  ghost predicate Underway(home: Home, online: Online, dest: Journal, source: Source, early: set<nat>, late: set<nat>,
                           target: nat, planned: nat) {
    && Fenced(home, online, target, planned) && Handing(home, online, dest, source, target)
    && Staging(dest, source, early, late)
  }

  /** The two homes as an event finds them. */
  datatype Start = Start(home: Home, online: Online)

  ghost predicate Hindered(s: Start) { s.home.WF() && s.online.WF() && AnySpoilt(s.home, s.online) }

  /** Every run so far that was left alone found a record cut. */
  ghost predicate OnlyHindered(script: seq<Event>, starts: seq<Start>, twins: nat)
    requires |starts| <= |script|
  {
    forall i :: 0 <= i < |starts| && Unhurried(script[i], twins) ==> Hindered(starts[i])
  }

  ghost predicate NoneHindered(starts: seq<Start>) { forall i :: 0 <= i < |starts| ==> !Hindered(starts[i]) }

  ghost predicate NothingCut(home: Home, online: Online, script: seq<Event>) {
    NoCut(home.data) && NoCut(online.data) && forall i :: 0 <= i < |script| ==> !Cuts(script[i])
  }

  /**
    Killed any number of times and through any power losses, provisioning whose source can be
    resumed always is, but for records cut before their last byte: a run that is left alone for
    long enough finishes if and only if neither record is cut when it starts, and then exactly
    one home allocates, from exactly the fenced source history. If nothing is ever cut, the
    first run left alone finishes.
   */
  method Retry(home: Store<HomeFile, nat>, online: Store<OnlineFile, nat>, dest: Store<nat, nat>, source: Source,
               ghost early: set<nat>, ghost late: set<nat>, orderly: bool, target: nat, planned: nat,
               listing: seq<Entry<nat>>, script: seq<Event>)
    returns (done: nat, ghost starts: seq<Start>, ghost last: Start)
    requires Underway(home.fs, online.fs, dest.fs, source, early, late, target, planned)
    requires Plain(source) && Resumable(source, early, late, orderly)
    requires forall i :: 0 <= i < |script| && script[i].Provision? ==> Allowed(script[i].order, source, early, late)
    modifies home, online, dest
    ensures Underway(home.fs, online.fs, dest.fs, source, early, late, target, planned)
    ensures done <= |script| && |starts| == done && (starts != [] ==> starts[0] == Start(old(home.fs), old(online.fs)))
    ensures done < |script| ==> script[done].Provision? && !Hindered(last)
    ensures done < |script| ==> OnlineAllocates(online.fs) && !HomeAllocates(home.fs) && Copied(dest.fs, source)
    ensures OnlyHindered(script, starts, |listing|)
    ensures NothingCut(old(home.fs), old(online.fs), script) ==> NoneHindered(starts)
  {
    done, starts, last := 0, [], Start(home.fs, online.fs);
    ghost var clean := NothingCut(home.fs, online.fs, script);
    while done < |script|
      invariant done <= |script| && |starts| == done
      invariant if done == 0 then home.fs == old(home.fs) && online.fs == old(online.fs)
                else starts[0] == Start(old(home.fs), old(online.fs))
      invariant Underway(home.fs, online.fs, dest.fs, source, early, late, target, planned)
      invariant OnlyHindered(script, starts, |listing|)
      invariant clean ==> NothingCut(home.fs, online.fs, script) && NoneHindered(starts)
    {
      last := Start(home.fs, online.fs);
      if clean { CleanStart(home.fs, online.fs); }
      var finished := Attempt(home, online, dest, source, early, late, orderly, target, planned, listing, script[done]);
      if finished { return; }
      OneMoreStart(script, starts, last, |listing|);
      starts := starts + [last];
      done := done + 1;
    }
  }

  lemma OneMoreStart(script: seq<Event>, starts: seq<Start>, last: Start, twins: nat)
    requires |starts| < |script| && OnlyHindered(script, starts, twins)
    requires Unhurried(script[|starts|], twins) ==> Hindered(last)
    ensures OnlyHindered(script, starts + [last], twins)
    ensures NoneHindered(starts) && !Hindered(last) ==> NoneHindered(starts + [last])
  {
  }

  lemma CleanStart(home: Home, online: Online)
    requires home.WF() && online.WF() && NoCut(home.data) && NoCut(online.data)
    ensures !AnySpoilt(home, online)
  {
    assert home.dir in home.log && online.dir in online.log;
  }

  method Attempt(home: Store<HomeFile, nat>, online: Store<OnlineFile, nat>, dest: Store<nat, nat>, source: Source,
                 ghost early: set<nat>, ghost late: set<nat>, orderly: bool, target: nat, planned: nat,
                 listing: seq<Entry<nat>>, event: Event)
    returns (finished: bool)
    requires Underway(home.fs, online.fs, dest.fs, source, early, late, target, planned)
    requires Plain(source) && Resumable(source, early, late, orderly)
    requires event.Provision? ==> Allowed(event.order, source, early, late)
    modifies home, online, dest
    ensures Underway(home.fs, online.fs, dest.fs, source, early, late, target, planned)
    ensures finished ==> event.Provision? && !old(AnySpoilt(home.fs, online.fs))
    ensures finished ==> OnlineAllocates(online.fs) && !HomeAllocates(home.fs) && Copied(dest.fs, source)
    ensures Unhurried(event, |listing|) ==> (finished <==> !old(AnySpoilt(home.fs, online.fs)))
    ensures !Cuts(event) && NoCut(old(home.fs.data)) && NoCut(old(online.fs.data)) ==>
      NoCut(home.fs.data) && NoCut(online.fs.data)
  {
    match event
    case Provision(order, homeSteps, onlineSteps, destSteps, cut) =>
      home.steps, online.steps, dest.steps := homeSteps, onlineSteps, destSteps;
      home.cut, online.cut, dest.cut := cut, cut, cut;
      finished := RunOnce(home, online, dest, source, early, late, orderly, order, target, planned, listing);
    case PowerLoss(keepHome, keepOnline, keepDest, upTo, harm) =>
      ghost var h, o, s := home.fs, online.fs, dest.fs;
      home.fs, online.fs := Lose(home.fs, keepHome, harm), Lose(online.fs, keepOnline, harm);
      dest.fs := if orderly then LoseOrdered(dest.fs, upTo, harm) else Lose(dest.fs, keepDest, harm);
      LossFenced(h, o, home.fs, online.fs, target, planned);
      LossStaged(s, dest.fs, source, early, late, orderly);
      LossHanding(h, o, s, home.fs, online.fs, dest.fs, source, target);
      finished := false;
  }

  method RunOnce(home: Store<HomeFile, nat>, online: Store<OnlineFile, nat>, dest: Store<nat, nat>, source: Source,
                 ghost early: set<nat>, ghost late: set<nat>, ghost orderly: bool, order: seq<Entry<nat>>, target: nat,
                 planned: nat, listing: seq<Entry<nat>>)
    returns (finished: bool)
    requires Underway(home.fs, online.fs, dest.fs, source, early, late, target, planned)
    requires Plain(source) && Resumable(source, early, late, orderly) && Allowed(order, source, early, late)
    modifies home, online, dest
    ensures Underway(home.fs, online.fs, dest.fs, source, early, late, target, planned)
    ensures finished ==> OnlineAllocates(online.fs) && !HomeAllocates(home.fs) && Copied(dest.fs, source)
    ensures old(AnySpoilt(home.fs, online.fs)) ==> !finished
    ensures old(home.steps) > 13 && old(online.steps) > 13 && old(dest.steps) > 8 * |order| + 4 * |listing| + 1 ==>
      finished || old(AnySpoilt(home.fs, online.fs))
    ensures !old(home.cut) ==> Uncut(old(home.fs.data), home.fs.data)
    ensures !old(online.cut) ==> Uncut(old(online.fs.data), online.fs.data)
  {
    ghost var o, s := online.fs, dest.fs;
    assert online.fs.dir in online.fs.log;
    StagedUnstuck(dest.fs, source, early, late, order, orderly);
    var r := ProvisionRenewal(home, online, dest, source, order, target, planned, listing);
    assert online.fs.dir in online.fs.log && home.fs.dir in home.fs.log;
    if Final(Custody) in o.dir {
      StillHanding(home.fs, online.fs, dest.fs, source, target, planned);
    } else {
      assert order[0..] == order;
      LeavesStaged(s, dest.fs, source, early, late, orderly, order, 0);
    }
    finished := r == Done;
  }

  lemma StillHanding(home: Home, online: Online, dest: Journal, source: Source, target: nat, planned: nat)
    requires Fenced(home, online, target, planned) && Final(Custody) in online.dir
    requires Faithful(dest, source) && Copied(dest, source)
    ensures Handing(home, online, dest, source, target)
  {
    assert online.dir in online.log;
  }

  lemma LossOnly<N(!new)>(s: FS<N, nat>, t: FS<N, nat>, name: N, value: nat)
    requires s.WF() && Sound(s) && Only(s, name, value) && Loss(s, t)
    ensures Only(t, name, value)
    ensures (exists d :: d in t.log && Final(name) in d) ==> exists d :: d in s.log && Final(name) in d
  {
    assert Recalls(s.log, t.dir, Final(name)) && Recalls(s.log, t.dir, Pending(Final(name)));
  }

  lemma LossFenced(home: Home, online: Online, home': Home, online': Online, target: nat, planned: nat)
    requires Fenced(home, online, target, planned) && Loss(home, home') && Loss(online, online')
    ensures Fenced(home', online', target, planned)
  {
    LossKeepsSound(home, home');
    LossKeepsSound(online, online');
    LossOnly(home, home', Publisher, target);
    LossOnly(online, online', Custody, planned);
    if Durable(home, Final(Publisher), target) { LossKeepsDurable(home, home', Final(Publisher), target); }
  }

  /** A copy interrupted by a power loss of either kind can be resumed, if its source is such that it can. */
  lemma LossStaged(s: Journal, t: Journal, source: Source, early: set<nat>, late: set<nat>, orderly: bool)
    requires Staging(s, source, early, late) && Resumable(source, early, late, orderly)
    requires if orderly then OrderedLoss(s, t) else Loss(s, t)
    ensures Staging(t, source, early, late)
  {
    if orderly {
      OrderedStaged(s, t, source, early, late);
    } else {
      AnyStaged(s, t, source, early, late);
    }
  }

  lemma LossHanding(home: Home, online: Online, s: Journal, home': Home, online': Online, t: Journal, source: Source,
                    target: nat)
    requires home.WF() && online.WF() && Handing(home, online, s, source, target) && Faithful(t, source)
    requires Loss(home, home') && Loss(online, online') && Loss(s, t)
    ensures Handing(home', online', t, source, target)
  {
    if Final(Custody) in online'.dir { assert Recalls(online.log, online'.dir, Final(Custody)); }
    if Copied(s, source) {
      forall n | Final(n) in source ensures Durable(t, Final(n), source[Final(n)]) {
        LossKeepsDurable(s, t, Final(n), source[Final(n)]);
      }
    }
    if t.dir != map[] {
      var e :| e in t.dir;
      assert Recalls(s.log, t.dir, e);
    }
    if Durable(home, Final(Publisher), target) { LossKeepsDurable(home, home', Final(Publisher), target); }
  }

  /** At every point, and after every power loss of either home, at most one of them can allocate releases. */
  lemma AtMostOneAllocates(home: Home, online: Online, target: nat, planned: nat, home': Home, online': Online)
    requires Fenced(home, online, target, planned)
    requires home' == home || Loss(home, home')
    requires online' == online || Loss(online, online')
    ensures !(HomeAllocates(home') && OnlineAllocates(online'))
  {
    assert home.dir in home.log && online.dir in online.log;
    if OnlineAllocates(online') {
      if online' != online { assert Recalls(online.log, online'.dir, Final(Custody)); }
      assert exists d :: d in online.log && Final(Custody) in d;
      if home' != home { LossKeepsDurable(home, home', Final(Publisher), target); }
      assert home'.dir in home'.log;
    }
  }

  /**
    A write of the binding that is cut before its last byte: neither home allocates, and every
    run of provision-renewal is refused, which changes nothing.
   */
  lemma CutBinding(home: Home, online: Online, dest: Journal, source: Source, order: seq<Entry<nat>>, target: nat, planned: nat)
    requires Fenced(home, online, target, planned) && HomeAllocates(home) && dest.WF()
    ensures var t := Half(home, Final(Publisher), target);
      && KilledAt(home, Final(Publisher), target, true, t) && Fenced(t, online, target, planned)
      && !HomeAllocates(t) && !OnlineAllocates(online) && Blocked(t, online, dest, source, order)
  {
    var t := Half(home, Final(Publisher), target);
    assert home.dir in home.log && online.dir in online.log;
    InstallPathSafe(home, Final(Publisher), target, t);
    InstallOnly(home, t, Publisher, target);
    InstallKeepsDurable(home, t, Publisher, target);
    assert t.Read(Pending(Final(Publisher))) == Some(Cut);
  }

  /** The binding cut, run: whatever is tried afterwards, nothing changes. */
  method CutForGood(home: Store<HomeFile, nat>, online: Store<OnlineFile, nat>, dest: Store<nat, nat>, source: Source,
                    target: nat, planned: nat, orders: seq<seq<Entry<nat>>>, listing: seq<Entry<nat>>)
    requires Fenced(home.fs, online.fs, target, planned) && AnySpoilt(home.fs, online.fs)
    requires Plain(source) && dest.fs.WF() && forall i :: 0 <= i < |orders| ==> Lists(orders[i], source)
    requires Final(Custody) !in online.fs.dir ==> Handing(home.fs, online.fs, dest.fs, source, target)
    modifies home, online, dest
    ensures home.fs == old(home.fs) && online.fs == old(online.fs) && dest.fs == old(dest.fs)
  {
    for i := 0 to |orders|
      invariant home.fs == old(home.fs) && online.fs == old(online.fs) && dest.fs == old(dest.fs)
    {
      var r := ProvisionRenewal(home, online, dest, source, orders[i], target, planned, listing);
      assert r == Refused;
    }
  }
}
