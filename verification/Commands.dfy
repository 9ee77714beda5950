/**
  internal/omega/publish.go, renew.go, rotation.go, rotation_store.go and
  membership_rotation.go: the three commands that allocate releases, over the journal
  directory they share. Every command can stop before any file operation. What clocks, keys,
  signatures, custody records and receipts decide is a parameter of the command.
 */
module Commands {
  import opened Wrappers
  import opened Disk
  import opened Install
  import opened Journal

  /** The checks that do not depend on the journal's files; each field says that they pass. */
  datatype Checks = Checks(
    entry: bool,    // all that is looked at before the journal: network, custody, clock, destination, keys
    prepared: bool, // the prepared rotation is there and not dated ahead of the clock
    timely: bool,   // the approval has not expired; for a root rotation, the prepared root has a day left
    receipt: bool,  // the clock is not behind the last publication check
    handoff: bool,  // the recorded application is the one being applied
    targets: bool,  // the offline signature is valid, or there is a key to make it
    recorded: bool, // the recorded reservation agrees with the history, the transition and the clock
    signs: bool,    // the keys are in force and what they sign is a valid release that follows the last
    due: bool)      // a renewal is due, or the timestamp has expired

  // What a command leaves behind.

  /** Everything `Put` promises the rest of its command. */
  ghost predicate After(s: Journal, t: Journal, n: Name, rec: Record) {
    && SameBut(t.dir, s.dir, {Final(n), Pending(Final(n))}) && Grows(s, t)
    && (Final(n) in s.dir ==> t.dir == s.dir && t.data == s.data)
    && Holds(t.dir, t.data, Final(n), rec)
  }

  /** No durable record ever changes or disappears. */
  ghost predicate KeepsDurable(s: Journal, t: Journal)
    requires s.WF() && t.WF()
  {
    forall n, v :: Durable(s, Final(n), v) ==> Durable(t, Final(n), v)
  }

  /** The contents under a name, or else under its temporary name. */
  function Found(s: Journal, n: Name): Option<Content<Record>>
    requires s.WF()
  {
    if Final(n) in s.dir then s.Read(Final(n)) else s.Read(Pending(Final(n)))
  }

  /** A complete record is there, committed or not. */
  predicate Ready(s: Journal, n: Name)
    requires s.WF()
  {
    Found(s, n).Some? && Found(s, n).value.Whole?
  }

  /** What is there is JSON but not a record: no command will use it, and none will replace it. */
  predicate Spoilt(s: Journal, n: Name)
    requires s.WF()
  {
    Found(s, n) == Some(Cut) && !n.HandoffName?
  }

  /** Nothing is there, or an incomplete write that may be replaced. A handoff is signed metadata, without a final newline. */
  predicate Untaken(s: Journal, n: Name)
    requires s.WF()
  {
    !Ready(s, n) && !Spoilt(s, n)
  }

  /** Complete JSON stays what it is, committed or not. */
  ghost predicate Holdfast(s: Journal, t: Journal)
    requires s.WF() && t.WF()
  {
    forall n :: !Untaken(s, n) ==> Found(t, n) == Found(s, n)
  }

  /** Spoilt in every directory since the last sync, by bytes that are on disk. */
  ghost predicate Frozen(s: Journal, n: Name)
    requires s.WF()
  {
    !n.HandoffName? && forall d :: d in s.log ==> FrozenIn(s, d, n)
  }

  predicate FrozenIn(s: Journal, d: JournalDir, n: Name) {
    && Final(n) !in d && Pending(Final(n)) in d
    && d[Pending(Final(n))] in s.synced && d[Pending(Final(n))] in s.data && s.data[d[Pending(Final(n))]].Cut?
  }

  lemma FrozenSpoilt(s: Journal, n: Name)
    requires s.WF() && Frozen(s, n)
    ensures Spoilt(s, n)
  {
    assert s.dir in s.log && FrozenIn(s, s.dir, n);
  }

  ghost predicate KeepsFrozen(s: Journal, t: Journal)
    requires s.WF() && t.WF()
  {
    forall n :: Frozen(s, n) ==> Frozen(t, n)
  }

  predicate Named(d: JournalDir, n: Name) { Either(d, Final(n)) }

  ghost predicate Within(d: JournalDir, a: JournalDir, b: JournalDir) {
    forall n :: Named(d, n) ==> Named(a, n) || Named(b, n)
  }

  /**
    A command shows no file in passing: since it started, or since it last synced the
    directory, only files that were there then or are there at the end.
   */
  ghost predicate Between(s: Journal, t: Journal)
    requires t.WF()
  {
    || (s.log <= t.log && forall i :: |s.log| <= i < |t.log| ==> Within(t.log[i], s.dir, t.dir))
    || (forall d :: d in t.log ==> Within(d, t.log[0], t.dir))
  }

  /**
    What every command promises, wherever it stops. If it started on a synced directory, no
    power loss can break what it leaves; if it was not killed, it changed nothing or leaves
    the directory synced.
   */
  ghost predicate Kept(s: Journal, t: Journal, r: Outcome)
    requires s.WF()
  {
    && Inv(t) && (SyncedDir(s) ==> Robust(t)) && KeepsDurable(s, t) && Holdfast(s, t) && Between(s, t)
    && KeepsFrozen(s, t)
    && (r != Died ==> t == s || SyncedDir(t))
  }

  lemma Unchanged(s: Journal, r: Outcome)
    requires Inv(s)
    ensures Kept(s, s, r)
  {
    assert s.dir in s.log && Good(s.dir, s.data);
    if SyncedDir(s) { SyncedRobust(s); }
  }

  /** A step that succeeded, and then another. */
  lemma Then(s: Journal, t: Journal, u: Journal, r: Outcome)
    requires s.WF() && Kept(s, t, Done) && Kept(t, u, r)
    ensures Kept(s, u, r)
  {
    ThenBetween(s, t, u);
  }

  lemma ThenBetween(s: Journal, t: Journal, u: Journal)
    requires t.WF() && u.WF() && (t == s || SyncedDir(t)) && Between(t, u)
    ensures t != s ==> Between(s, u)
  {
    if t != s && t.log <= u.log {
      forall d | d in u.log ensures Within(d, u.log[0], u.dir) {
        var i :| 0 <= i < |u.log| && u.log[i] == d;
        assert u.log[0] == t.dir;
      }
    }
  }

  // The steps that commands are made of.

  /** Install a record that is in place, over nothing but an incomplete write. */
  method Put(j: Store<Name, Record>, n: Name, rec: Record) returns (r: Outcome)
    requires Inv(j.fs) && (Untaken(j.fs, n) || Found(j.fs, n) == Some(Whole(rec)))
    requires Final(n) in j.fs.dir || (MayInstall(j.fs.dir, j.fs.data, n, rec) && (Signed(j.fs.dir, n) ==> SyncedDir(j.fs)))
    modifies j
    ensures Kept(old(j.fs), j.fs, r) && r != Refused
    ensures r == Done ==> After(old(j.fs), j.fs, n, rec)
    ensures Spent(old(j.steps), j.steps, 8, r)
  {
    ghost var s := j.fs;
    assert s.dir in s.log && Good(s.dir, s.data);
    if Final(n) in s.dir { assert Fits(s.dir, s.data, Final(n)); }
    r := j.Install(Final(n), rec);
    InstallKeepsInv(s, j.fs, n, rec);
    InstallKeepsDurable(s, j.fs, n, rec);
    InstallHolds(s, j.fs, n, rec);
  }

  lemma InstallHolds(s: Journal, t: Journal, n: Name, rec: Record)
    requires Inv(s) && t.WF() && Installing(s, t, Final(n), rec) && (Untaken(s, n) || Found(s, n) == Some(Whole(rec)))
    ensures Holdfast(s, t) && Between(s, t) && KeepsFrozen(s, t)
  {
    InstallFrozen(s, t, n, rec);
    if Final(n) !in s.dir {
      forall k | k != n ensures Found(t, k) == Found(s, k) && (Named(t.dir, k) <==> Named(s.dir, k)) {
        SameEntry(s, t.dir, n, Final(k));
        SameEntry(s, t.dir, n, Pending(Final(k)));
      }
      assert t.dir in t.log;
      if Found(s, n) == Some(Whole(rec)) {
        assert Install.Ready(s, Final(n), rec) && Stands(t.dir, Final(n));
        ReadyKept(s, t, n, rec);
      }
      InstallBetween(s, t, n);
    }
  }

  lemma InstallFrozen(s: Journal, t: Journal, n: Name, rec: Record)
    requires s.WF() && t.WF() && Installing(s, t, Final(n), rec) && (Untaken(s, n) || Found(s, n) == Some(Whole(rec)))
    ensures KeepsFrozen(s, t)
  {
    forall k | Frozen(s, k) ensures Frozen(t, k) {
      FrozenSpoilt(s, k);
      assert s.dir in s.log && FrozenIn(s, s.dir, k);
      forall d | d in t.log ensures FrozenIn(t, d, k) {
        if d in s.log {
          assert FrozenIn(s, d, k);
        } else {
          SameEntry(s, d, n, Final(k));
          SameEntry(s, d, n, Pending(Final(k)));
        }
      }
    }
  }

  lemma ReadyKept(s: Journal, t: Journal, n: Name, rec: Record)
    requires Inv(s) && t.WF() && Installing(s, t, Final(n), rec) && Final(n) !in s.dir && Found(s, n) == Some(Whole(rec))
    requires t.dir in t.log && Named(t.dir, n)
    ensures Found(t, n) == Some(Whole(rec))
  {
    assert t == s || Partial(s, t, t.dir, Final(n), rec);
  }

  lemma InstallBetween(s: Journal, t: Journal, n: Name)
    requires Inv(s) && t.WF() && Framed(s, t, {Final(n), Pending(Final(n))}) && Logged(s, t, Final(n))
    ensures Between(s, t)
  {
    forall d | SameBut(d, s.dir, {Final(n), Pending(Final(n))})
      ensures forall k :: k != n ==> (Named(d, k) <==> Named(s.dir, k))
    {
      forall k | k != n ensures Named(d, k) <==> Named(s.dir, k) {
        SameEntry(s, d, n, Final(k));
        SameEntry(s, d, n, Pending(Final(k)));
      }
    }
    assert t.log[0] in t.log;
  }

  method Sync(j: Store<Name, Record>) returns (r: Outcome)
    requires Inv(j.fs)
    modifies j
    ensures Kept(old(j.fs), j.fs, r)
    ensures r != Refused && j.fs.dir == old(j.fs.dir) && j.fs.data == old(j.fs.data) && j.fs.synced == old(j.fs.synced)
    ensures if r == Done then SyncedDir(j.fs) else j.fs == old(j.fs)
    ensures Spent(old(j.steps), j.steps, 1, r)
  {
    Unchanged(j.fs, Done);
    Unchanged(j.fs, Died);
    assert j.fs.dir in j.fs.log && Good(j.fs.dir, j.fs.data);
    r := j.SyncDir();
    if SyncedDir(j.fs) {
      SyncedRobust(j.fs);
      SyncedLined(j.fs);
    }
  }

  /** The pair that makes a record durable before anything is signed under it. */
  method PutAndSync(j: Store<Name, Record>, n: Name, rec: Record) returns (r: Outcome)
    requires Inv(j.fs) && (Untaken(j.fs, n) || Found(j.fs, n) == Some(Whole(rec)))
    requires Final(n) in j.fs.dir || (MayInstall(j.fs.dir, j.fs.data, n, rec) && (Signed(j.fs.dir, n) ==> SyncedDir(j.fs)))
    modifies j
    ensures Kept(old(j.fs), j.fs, r) && r != Refused
    ensures r == Done ==> After(old(j.fs), j.fs, n, rec) && SyncedDir(j.fs)
    ensures Spent(old(j.steps), j.steps, 9, r)
  {
    ghost var s := j.fs;
    r := Put(j, n, rec);
    if r != Done { return; }
    ghost var t := j.fs;
    r := Sync(j);
    Then(s, t, j.fs, r);
  }

  /** renew.go:182-189 and rotation_store.go:269-276: give an empty reservation back. */
  method Discard(j: Store<Name, Record>, n: Name) returns (r: Outcome)
    requires Inv(j.fs) && Pending(Final(n)) in j.fs.dir && Untaken(j.fs, n)
    modifies j
    ensures r != Done && Kept(old(j.fs), j.fs, r)
    ensures Spent(old(j.steps), j.steps, 2, r)
  {
    ghost var s := j.fs;
    Unchanged(s, Died);
    var alive := j.Tick();
    if !alive { return Died; }
    j.fs := j.fs.Remove(Pending(Final(n)));
    ghost var m := j.fs;
    RemovedKept(s, m, n);
    alive := j.Tick();
    if !alive { return Died; }
    j.fs := j.fs.SyncDir();
    SyncedKept(s, m);
    return Refused;
  }

  lemma RemovedKept(s: Journal, t: Journal, n: Name)
    requires Inv(s) && Pending(Final(n)) in s.dir && Untaken(s, n) && t == s.Remove(Pending(Final(n)))
    ensures Kept(s, t, Died)
  {
    var es := {Pending(Final(n))};
    assert Removes(t.dir, s.dir, es) && Cleaning(s, t, es);
    RemovedSound(s, t, n);
    CleaningKeepsInv(s, t, es);
    CleaningKeepsDurable(s, t, es);
    RemovalHolds(s, t, es);
  }

  lemma RemovedSound(s: Journal, t: Journal, n: Name)
    requires s.WF() && Sound(s) && t == s.Remove(Pending(Final(n)))
    ensures Sound(t)
  {
    assert s.dir in s.log;
  }

  lemma SyncedKept(s: Journal, t: Journal)
    requires s.WF() && Kept(s, t, Died)
    ensures Kept(s, t.SyncDir(), Refused)
  {
    var u := t.SyncDir();
    assert t.dir in t.log && Good(t.dir, t.data);
    SyncedRobust(u);
    SyncedLined(u);
  }

  lemma RemovalHolds(s: Journal, t: Journal, es: set<Entry<Name>>)
    requires Inv(s) && t.WF() && Cleaning(s, t, es) && forall e :: e in es ==> e.Pending?
    requires forall n :: Pending(Final(n)) in es && Final(n) !in s.dir ==> Untaken(s, n) && s.log <= t.log
    ensures Holdfast(s, t) && Between(s, t) && KeepsFrozen(s, t)
  {
    RemovalFrozen(s, t, es);
    forall d, n | Removes(d, s.dir, es) ensures At(d, Final(n)) == At(s.dir, Final(n)) { assert Final(n) !in es; }
    forall d, n | Removes(d, s.dir, es) && Named(d, n) ensures Named(s.dir, n) {
      assert Pending(Final(n)) in d ==> At(s.dir, Pending(Final(n))) == Some(d[Pending(Final(n))]);
    }
    if !(s.log <= t.log) {
      assert t.log[0] in t.log;
      forall n | Named(s.dir, n) ensures forall d :: d in t.log ==> Named(d, n) { StillNamed(s, t, es, n); }
    }
  }

  lemma RemovalFrozen(s: Journal, t: Journal, es: set<Entry<Name>>)
    requires s.WF() && t.WF() && Cleaning(s, t, es) && forall e :: e in es ==> e.Pending?
    requires forall n :: Pending(Final(n)) in es && Final(n) !in s.dir ==> Untaken(s, n)
    ensures KeepsFrozen(s, t)
  {
    RemovedDirs(s, t, es);
    forall k | Frozen(s, k) ensures Frozen(t, k) {
      FrozenSpoilt(s, k);
      assert s.dir in s.log && FrozenIn(s, s.dir, k);
      forall d | d in t.log ensures FrozenIn(t, d, k) {
        if d in s.log {
          assert FrozenIn(s, d, k);
        } else {
          assert Final(k) !in es && Pending(Final(k)) !in es;
          assert At(d, Final(k)) == At(s.dir, Final(k)) && At(d, Pending(Final(k))) == At(s.dir, Pending(Final(k)));
        }
      }
    }
  }

  lemma StillNamed(s: Journal, t: Journal, es: set<Entry<Name>>, n: Name)
    requires Named(s.dir, n) && (Pending(Final(n)) in es ==> Final(n) in s.dir) && Final(n) !in es
    ensures forall d :: Removes(d, s.dir, es) ==> Named(d, n)
  {
    forall d | Removes(d, s.dir, es) ensures Named(d, n) {
      assert At(d, Final(n)) == At(s.dir, Final(n));
      if Final(n) !in s.dir { assert At(d, Pending(Final(n))) == At(s.dir, Pending(Final(n))); }
    }
  }

  /** publish.go:231-253: make the journal durable, then drop its temporary twins. */
  method Settle(j: Store<Name, Record>, listing: seq<Entry<Name>>) returns (r: Outcome)
    requires Inv(j.fs)
    modifies j
    ensures Kept(old(j.fs), j.fs, r) && r != Refused
    ensures r == Done ==> SettledAll(j.fs)
    ensures forall n :: At(j.fs.dir, Final(n)) == At(old(j.fs.dir), Final(n))
    ensures j.fs.data == old(j.fs.data)
    ensures Spent(old(j.steps), j.steps, 4 * |listing| + 1, r)
  {
    ghost var s := j.fs;
    r := Sync(j);
    if r != Done { return; }
    ghost var t := j.fs;
    r := j.CleanPendingTwins(listing);
    CleaningKeepsInv(t, j.fs, Twins(t, listing));
    CleaningKeepsDurable(t, j.fs, Twins(t, listing));
    RemovalHolds(t, j.fs, Twins(t, listing));
    Then(s, t, j.fs, r);
    if r == Done { SyncedSettled(j.fs); }
  }

  /** Every record of the journal is durable. */
  ghost predicate SettledAll(s: Journal)
    requires Inv(s)
  {
    forall n :: Final(n) in s.dir ==> Final(n) in s.dir && s.data[s.dir[Final(n)]].Whole? &&
                                      Durable(s, Final(n), s.data[s.dir[Final(n)]].value)
  }

  lemma SyncedSettled(s: Journal)
    requires Inv(s) && SyncedDir(s)
    ensures SettledAll(s)
  {
    assert s.dir in s.log;
  }

  /** The record to go by under `n`: the one that is there, or else `rec`. A reservation is never made twice. */
  function Reserved(s: Journal, n: Name, rec: Record): Record
    requires s.WF()
  {
    if Ready(s, n) then Found(s, n).value.value else rec
  }

  method ReadEither(j: Store<Name, Record>, n: Name) returns (c: Option<Content<Record>>)
    requires Inv(j.fs)
    ensures c == Found(j.fs, n) && (c.None? <==> !Named(j.fs.dir, n))
    ensures c.Some? && c.value.Whole? ==> Says(j.fs.dir, j.fs.data, n, c.value.value)
    ensures Final(n) in j.fs.dir ==> c.Some? && c.value.Whole?
  {
    assert j.fs.dir in j.fs.log && Good(j.fs.dir, j.fs.data);
    c := j.fs.Read(Final(n));
    if c.Some? {
      assert Fits(j.fs.dir, j.fs.data, Final(n));
    } else {
      c := j.fs.Read(Pending(Final(n)));
      if c.Some? { assert Fits(j.fs.dir, j.fs.data, Pending(Final(n))); }
    }
  }

  // Offline publication.

  /** publish.go:57 */
  method Publish(j: Store<Name, Record>, version: nat, manifest: nat, signed: nat, c: Checks, listing: seq<Entry<Name>>)
    returns (r: Outcome, rec: Record)
    requires Inv(j.fs)
    modifies j
    ensures Kept(old(j.fs), j.fs, r)
    ensures r == Done ==> rec.Approval? && rec.v == version && rec.manifest == manifest
    ensures r == Done ==> Durable(j.fs, Release(version), rec)
    ensures r == Refused <==> RefusesPublish(old(j.fs), version, manifest, c)
    ensures r == Refused ==> j.fs == old(j.fs)
    ensures Spent(old(j.steps), j.steps, 4 * |listing| + 9, r)
  {
    ghost var s := j.fs;
    Unchanged(s, Done);
    Unchanged(s, Refused);
    if !c.entry { return Refused, Approval(version, manifest, signed); }
    var turn := TakeTurn(j, version, manifest);
    match turn {
      case Refuse =>
        return Refused, Approval(version, manifest, signed);
      case Repeat(latest) =>
        rec := latest;
      case Claim =>
        r, rec := Approve(j, version, manifest, signed, c);
        if r != Done { return; }
    }
    ghost var t := j.fs;
    r := Settle(j, listing);
    Then(s, t, j.fs, r);
    assert At(j.fs.dir, Release(version)) == At(t.dir, Release(version));
  }

  datatype Turn = Refuse | Repeat(latest: Record) | Claim

  /** publish.go:136-145: whether the version is the latest, the next, or neither. */
  method TakeTurn(j: Store<Name, Record>, version: nat, manifest: nat) returns (turn: Turn)
    requires Inv(j.fs)
    ensures turn.Refuse? <==> OutOfTurn(j.fs, version) || (Release(version) in j.fs.dir &&
                                !Approves(Found(j.fs, ReleaseName(version)), manifest))
    ensures turn.Repeat? ==> Holds(j.fs.dir, j.fs.data, Release(version), turn.latest) && turn.latest.Approval? &&
                             turn.latest.v == version && turn.latest.manifest == manifest
    ensures turn.Claim? ==> Release(version) !in j.fs.dir
  {
    if version < 1 || version > MAX_RELEASES { return Refuse; }
    var n := Latest(j);
    TurnOf(j.fs, version, n);
    if version < n || version > n + 1 { return Refuse; }
    if version == n + 1 { return Claim; }
    var latest := ReadEither(j, ReleaseName(n));
    if !latest.value.value.Approval? || latest.value.value.manifest != manifest { return Refuse; }
    InPlaceSays(j.fs, n, latest.value.value);
    turn := Repeat(latest.value.value);
  }

  /** Why an offline publication is refused; besides these only a kill stops it. */
  ghost predicate RefusesPublish(s: Journal, version: nat, manifest: nat, c: Checks)
    requires s.WF()
  {
    || !c.entry || OutOfTurn(s, version)
    || (if Release(version) in s.dir then !Approves(Found(s, ReleaseName(version)), manifest)
        else RefusesApproval(s, version, manifest, c))
  }

  /** The version is reserved, its pending release is of another approval or spoilt, or there is nothing valid to sign. */
  predicate RefusesApproval(s: Journal, v: nat, manifest: nat, c: Checks)
    requires s.WF()
  {
    || RenewalClaim(s.dir, v) || ApplyClaim(s.dir, v) || Spoilt(s, ReleaseName(v)) || !c.signs
    || (Ready(s, ReleaseName(v)) && !Approves(Found(s, ReleaseName(v)), manifest))
  }

  ghost predicate OutOfTurn(s: Journal, version: nat) {
    || version < 1 || version > MAX_RELEASES || Release(version + 1) in s.dir
    || (version > 1 && Release(version - 1) !in s.dir)
  }

  predicate Approves(c: Option<Content<Record>>, manifest: nat) {
    c.Some? && c.value.Whole? && c.value.value.Approval? && c.value.value.manifest == manifest
  }

  lemma TurnOf(s: Journal, version: nat, n: nat)
    requires Inv(s) && Next(s.dir, n + 1) && (forall v :: 1 <= v <= n ==> Release(v) in s.dir)
    requires 1 <= version <= MAX_RELEASES
    ensures version < n || version > n + 1 <==> OutOfTurn(s, version)
    ensures version == n ==> Release(version) in s.dir
  {
    if version > n + 1 && Release(version - 1) in s.dir && n + 1 < version - 1 {
      assert s.dir in s.log && Good(s.dir, s.data);
      GoodContiguous(s.dir, s.data, ReleaseName(version - 1), n + 1);
    }
    if version == n + 1 && Release(version + 1) in s.dir {
      assert s.dir in s.log && Good(s.dir, s.data);
      GoodContiguous(s.dir, s.data, ReleaseName(version + 1), version);
    }
  }

  lemma InPlaceSays(s: Journal, v: nat, rec: Record)
    requires Inv(s) && Holds(s.dir, s.data, Release(v), rec) && rec.Approval?
    ensures rec.v == v
  {
    assert s.dir in s.log && Good(s.dir, s.data);
    assert Fits(s.dir, s.data, Release(v));
  }

  /** publish.go:146-226: claim the next version with an offline approval. */
  method Approve(j: Store<Name, Record>, v: nat, manifest: nat, signed: nat, c: Checks) returns (r: Outcome, rec: Record)
    requires Inv(j.fs) && 1 <= v <= MAX_RELEASES && Release(v) !in j.fs.dir && (v > 1 ==> Release(v - 1) in j.fs.dir)
    modifies j
    ensures Kept(old(j.fs), j.fs, r)
    ensures r == Done ==> rec.Approval? && rec.v == v && rec.manifest == manifest
    ensures r == Done ==> Holds(j.fs.dir, j.fs.data, Release(v), rec)
    ensures r == Refused <==> RefusesApproval(old(j.fs), v, manifest, c)
    ensures r == Refused ==> j.fs == old(j.fs)
    ensures Spent(old(j.steps), j.steps, 8, r)
  {
    Unchanged(j.fs, Refused);
    var ok;
    ok, rec := PlanApproval(j, v, manifest, signed, c);
    if !ok { return Refused, rec; }
    r := Put(j, ReleaseName(v), rec);
  }

  /** publish.go:146-220: the approval to record - the pending one, or a new one. */
  method PlanApproval(j: Store<Name, Record>, v: nat, manifest: nat, signed: nat, c: Checks) returns (ok: bool, rec: Record)
    requires Inv(j.fs) && 1 <= v <= MAX_RELEASES && Release(v) !in j.fs.dir && (v > 1 ==> Release(v - 1) in j.fs.dir)
    ensures ok <==> !RefusesApproval(j.fs, v, manifest, c)
    ensures ok ==> rec == Reserved(j.fs, ReleaseName(v), Approval(v, manifest, signed))
    ensures ok ==> rec.Approval? && rec.v == v && rec.manifest == manifest
    ensures ok ==> MayInstall(j.fs.dir, j.fs.data, ReleaseName(v), rec) && !Signed(j.fs.dir, ReleaseName(v))
    ensures ok ==> Untaken(j.fs, ReleaseName(v)) || Found(j.fs, ReleaseName(v)) == Some(Whole(rec))
  {
    rec := Approval(v, manifest, signed);
    if RenewalClaim(j.fs.dir, v) || ApplyClaim(j.fs.dir, v) { return false, rec; }
    var pending := ReadEither(j, ReleaseName(v));
    if pending == Some(Cut) { return false, rec; }
    if pending.Some? && pending.value.Whole? {
      rec := pending.value.value;
      if !rec.Approval? || rec.v != v || rec.manifest != manifest { return false, rec; }
    }
    ok := c.signs;
  }

  // Applying a rotation.

  /** What one more installed file leaves as it was, for the next step of the command. */
  lemma AfterClaims(s: Journal, t: Journal, n: Name, rec: Record, v: nat)
    requires After(s, t, n, rec)
    ensures n != RenewalName(v) ==> RenewalClaim(t.dir, v) == RenewalClaim(s.dir, v)
    ensures n.v == v && !n.ApplyName? && !n.HandoffName? ==> ApplyClaim(t.dir, v) == ApplyClaim(s.dir, v)
    ensures forall k, said :: k != n && Holds(s.dir, s.data, Final(k), said) ==> Holds(t.dir, t.data, Final(k), said)
    ensures forall k :: k != n ==> (Final(k) in t.dir <==> Final(k) in s.dir)
  {
    if Final(n) !in s.dir { SameClaims(s, t.dir, n, v); }
    forall k | k != n ensures At(t.dir, Final(k)) == At(s.dir, Final(k)) {
      SameEntry(s, t.dir, n, Final(k));
    }
  }

  lemma AfterFound(s: Journal, t: Journal, n: Name, rec: Record, k: Name)
    requires s.WF() && t.WF() && After(s, t, n, rec) && k != n
    ensures Found(t, k) == Found(s, k)
  {
    SameEntry(s, t.dir, n, Final(k));
    SameEntry(s, t.dir, n, Pending(Final(k)));
  }

  /** A reservation that only exists as a temporary file has signed nothing yet. */
  lemma Unsigned(s: Journal, n: Name)
    requires Inv(s) && (n.RenewalName? || n.ApplyName?) && Pending(Final(n)) in s.dir && Final(n) !in s.dir
    ensures !Either(s.dir, Release(n.v)) && !Either(s.dir, Targets(n.v))
  {
    if Either(s.dir, Release(n.v)) { InPlace(s, ReleaseName(n.v)); }
    if Either(s.dir, Targets(n.v)) { InPlace(s, HandoffName(n.v)); InPlace(s, n); }
  }

  ghost predicate Applying(s: Journal, v: nat, apply: Record) {
    && Inv(s) && SyncedDir(s) && 1 < v <= MAX_RELEASES && !RenewalClaim(s.dir, v) && Release(v - 1) in s.dir
    && apply.Apply? && Holds(s.dir, s.data, Application(v), apply)
  }

  /** The next version, where every command works. */
  ghost predicate AtNext(s: Journal, n: nat) {
    Inv(s) && 1 <= n <= MAX_RELEASES && Release(n) in s.dir && Release(n + 1) !in s.dir
  }

  /** membership_rotation.go:341 - the offline signature a handoff needs, made durable. */
  method TakeHandoff(j: Store<Name, Record>, v: nat, apply: Record, c: Checks) returns (r: Outcome, handoff: Option<Record>)
    requires Applying(j.fs, v, apply) && apply.offline
    modifies j
    ensures Kept(old(j.fs), j.fs, r)
    ensures r == Done ==> Applying(j.fs, v, apply) && Found(j.fs, ReleaseName(v)) == Found(old(j.fs), ReleaseName(v))
    ensures r == Done ==> handoff.Some? && Holds(j.fs.dir, j.fs.data, Targets(v), handoff.value)
    ensures r == Refused <==> !Ready(old(j.fs), HandoffName(v)) || !c.targets
    ensures Spent(old(j.steps), j.steps, 9, r)
  {
    ghost var s := j.fs;
    Unchanged(s, Refused);
    var targets := ReadEither(j, HandoffName(v));
    if targets.None? || !targets.value.Whole? || !c.targets { return Refused, None; }
    if Targets(v) !in s.dir { Unreleased(s, v, apply); }
    handoff := Some(targets.value.value);
    r := PutAndSync(j, HandoffName(v), targets.value.value);
    if r != Done { return; }
    AfterClaims(s, j.fs, HandoffName(v), targets.value.value, v);
    AfterFound(s, j.fs, HandoffName(v), targets.value.value, ReleaseName(v));
  }

  /** Without its offline signature an application has released nothing. */
  lemma Unreleased(s: Journal, v: nat, apply: Record)
    requires Applying(s, v, apply) && apply.offline && Targets(v) !in s.dir
    ensures !Either(s.dir, Release(v))
  {
    if Either(s.dir, Release(v)) { InPlace(s, ReleaseName(v)); }
  }

  lemma MayApply(s: Journal, v: nat, apply: Record, handoff: Option<Record>)
    requires Applying(s, v, apply) && apply.offline == handoff.Some?
    requires handoff.Some? ==> Holds(s.dir, s.data, Targets(v), handoff.value)
    ensures MayInstall(s.dir, s.data, ReleaseName(v), Applied(apply, handoff))
  {
  }

  /** A signed release that was not committed is the one that will be signed again. */
  lemma PendingAgrees(s: Journal, v: nat, next: Record)
    requires Inv(s) && (Renewal(v) in s.dir || Application(v) in s.dir) && Says(s.dir, s.data, ReleaseName(v), next)
    ensures Ready(s, ReleaseName(v)) ==> Found(s, ReleaseName(v)) == Some(Whole(next))
  {
    assert s.dir in s.log && Good(s.dir, s.data);
    if Release(v) in s.dir { assert Fits(s.dir, s.data, Release(v)); }
    if Pending(Release(v)) in s.dir { assert Fits(s.dir, s.data, Pending(Release(v))); }
  }

  /** What stops a committed application: no offline signature, nothing valid to sign, or a spoilt release. */
  predicate RefusesFinish(s: Journal, v: nat, offline: bool, c: Checks)
    requires s.WF()
  {
    (offline && (!Ready(s, HandoffName(v)) || !c.targets)) || !c.signs || Spoilt(s, ReleaseName(v))
  }

  /** rotation_store.go:339-383: sign and record the release that the application determines. */
  method FinishApply(j: Store<Name, Record>, v: nat, apply: Record, c: Checks) returns (r: Outcome)
    requires Applying(j.fs, v, apply) && Release(v) !in j.fs.dir
    modifies j
    ensures Kept(old(j.fs), j.fs, r)
    ensures r == Done ==> Release(v) in j.fs.dir && Holds(j.fs.dir, j.fs.data, Application(v), apply)
    ensures r == Refused ==> RefusesFinish(old(j.fs), v, apply.offline, c)
    ensures r == Done ==> !RefusesFinish(old(j.fs), v, apply.offline, c)
    ensures Spent(old(j.steps), j.steps, 17, r)
  {
    ghost var s := j.fs;
    Unchanged(s, Done);
    Unchanged(s, Refused);
    var handoff := None;
    if apply.offline {
      r, handoff := TakeHandoff(j, v, apply, c);
      if r != Done { return; }
    }
    ghost var t := j.fs;
    Unchanged(t, Refused);
    if !c.signs { Then(s, t, t, Refused); return Refused; }
    var next := Applied(apply, handoff);
    MayApply(t, v, apply, handoff);
    PendingAgrees(t, v, next);
    var pending := ReadEither(j, ReleaseName(v));
    if pending.Some? && !pending.value.Torn? && pending.value != Whole(next) { Then(s, t, t, Refused); return Refused; }
    r := Put(j, ReleaseName(v), next);
    Then(s, t, j.fs, r);
    if r == Done { AfterClaims(t, j.fs, ReleaseName(v), next, v); }
  }

  /** rotation_store.go:330-338: commit the application that is recorded, before anything is signed under it. */
  method CommitApply(j: Store<Name, Record>, n: nat, apply: Record) returns (r: Outcome)
    requires AtNext(j.fs, n) && Found(j.fs, ApplyName(n + 1)) == Some(Whole(apply)) && apply.Apply? && apply.v == n + 1
    modifies j
    ensures Kept(old(j.fs), j.fs, r)
    ensures r == Done ==> Applying(j.fs, n + 1, apply) && Release(n + 1) !in j.fs.dir
    ensures r == Done ==> Found(j.fs, HandoffName(n + 1)) == Found(old(j.fs), HandoffName(n + 1))
    ensures r == Done ==> Found(j.fs, ReleaseName(n + 1)) == Found(old(j.fs), ReleaseName(n + 1))
    ensures r != Refused && Spent(old(j.steps), j.steps, 9, r)
  {
    ghost var s := j.fs;
    var v := n + 1;
    InPlace(s, ApplyName(v));
    if Application(v) !in s.dir { Unsigned(s, ApplyName(v)); }
    r := PutAndSync(j, ApplyName(v), apply);
    if r != Done { return; }
    AfterClaims(s, j.fs, ApplyName(v), apply, v);
    AfterFound(s, j.fs, ApplyName(v), apply, HandoffName(v));
    AfterFound(s, j.fs, ApplyName(v), apply, ReleaseName(v));
  }

  predicate WantsOffline(c: Option<Content<Record>>) { c.Some? && NeedsOffline(c.value) }

  /** Why a recorded application cannot be completed. */
  predicate RefusesResume(s: Journal, v: nat, c: Checks)
    requires s.WF()
  {
    Named(s.dir, ApplyName(v)) &&
    (!Ready(s, ApplyName(v)) || !c.recorded || RefusesFinish(s, v, WantsOffline(Found(s, ApplyName(v))), c))
  }

  /** rotation_store.go:294 - complete a recorded application of a rotation, if there is one. */
  method ResumeApply(j: Store<Name, Record>, n: nat, c: Checks) returns (r: Outcome, resumed: bool)
    requires AtNext(j.fs, n)
    modifies j
    ensures Kept(old(j.fs), j.fs, r)
    ensures r == Done ==> (resumed <==> old(Named(j.fs.dir, ApplyName(n + 1))))
    ensures r == Done && !resumed ==> j.fs == old(j.fs)
    ensures r == Done && resumed ==> Release(n + 1) in j.fs.dir && Ready(old(j.fs), ApplyName(n + 1))
    ensures r == Done && resumed ==>
      Holds(j.fs.dir, j.fs.data, Application(n + 1), Found(old(j.fs), ApplyName(n + 1)).value.value)
    ensures r == Refused ==> RefusesResume(old(j.fs), n + 1, c)
    ensures r == Done ==> !RefusesResume(old(j.fs), n + 1, c)
    ensures Spent(old(j.steps), j.steps, 26, r)
  {
    ghost var s := j.fs;
    Unchanged(s, Done);
    Unchanged(s, Refused);
    var data := ReadEither(j, ApplyName(n + 1));
    if data.None? { return Done, false; }
    InPlace(s, ApplyName(n + 1));
    if !data.value.Whole? || !c.recorded { return Refused, false; }
    assert !RenewalClaim(s.dir, n + 1);
    r := CompleteApply(j, n, data.value.value, c);
    resumed := true;
  }

  /** rotation_store.go:330-383 */
  method CompleteApply(j: Store<Name, Record>, n: nat, apply: Record, c: Checks) returns (r: Outcome)
    requires AtNext(j.fs, n) && Found(j.fs, ApplyName(n + 1)) == Some(Whole(apply)) && apply.Apply? && apply.v == n + 1
    modifies j
    ensures Kept(old(j.fs), j.fs, r)
    ensures r == Done ==> Release(n + 1) in j.fs.dir && Holds(j.fs.dir, j.fs.data, Application(n + 1), apply)
    ensures r == Refused ==> RefusesFinish(old(j.fs), n + 1, apply.offline, c)
    ensures r == Done ==> !RefusesFinish(old(j.fs), n + 1, apply.offline, c)
    ensures Spent(old(j.steps), j.steps, 26, r)
  {
    ghost var s := j.fs;
    r := CommitApply(j, n, apply);
    if r != Done { return; }
    ghost var t := j.fs;
    r := FinishApply(j, n + 1, apply, c);
    Then(s, t, j.fs, r);
  }

  /** Why a rotation cannot claim version `v`. */
  predicate RefusesReserve(s: Journal, v: nat, c: Checks)
    requires s.WF()
  {
    || !c.prepared || v > MAX_RELEASES
    || (Untaken(s, ApplyName(v)) &&
        (Pending(Release(v)) in s.dir || RenewalClaim(s.dir, v) || Either(s.dir, Targets(v)) || !c.timely || !c.receipt))
  }

  /**
    rotation_store.go:224 - claim the next version for a prepared rotation. An expired approval
    gives a torn reservation back; a prepared root that runs out does not.
   */
  method ReserveApply(j: Store<Name, Record>, n: nat, created: nat, offline: bool, root: bool, c: Checks) returns (r: Outcome)
    requires AtNext(j.fs, n)
    modifies j
    ensures Kept(old(j.fs), j.fs, r)
    ensures r == Done ==> AtNext(j.fs, n)
    ensures r == Done && !Untaken(old(j.fs), ApplyName(n + 1)) ==> j.fs == old(j.fs)
    ensures r == Done && Untaken(old(j.fs), ApplyName(n + 1)) ==>
      Found(j.fs, ApplyName(n + 1)) == Some(Whole(Apply(n + 1, created, offline)))
    ensures r == Done ==> Found(j.fs, HandoffName(n + 1)) == Found(old(j.fs), HandoffName(n + 1))
    ensures r == Done ==> Found(j.fs, ReleaseName(n + 1)) == Found(old(j.fs), ReleaseName(n + 1))
    ensures r == Refused ==> RefusesReserve(old(j.fs), n + 1, c)
    ensures r == Done ==> !RefusesReserve(old(j.fs), n + 1, c)
    ensures r == Refused && root ==> j.fs == old(j.fs)
    ensures Spent(old(j.steps), j.steps, 8, r)
  {
    ghost var s := j.fs;
    Unchanged(s, Done);
    Unchanged(s, Refused);
    var v := n + 1;
    if !c.prepared || v > MAX_RELEASES { return Refused; }
    var data := ReadEither(j, ApplyName(v));
    if data.Some? && !data.value.Torn? { return Done; }
    if Pending(Release(v)) in j.fs.dir || RenewalClaim(j.fs.dir, v) || Either(j.fs.dir, Targets(v)) { return Refused; }
    if !c.timely {
      if !root && data.Some? {
        r := Discard(j, ApplyName(v));
        return;
      }
      return Refused;
    }
    if !c.receipt { return Refused; }
    r := ClaimApply(j, v, Apply(v, created, offline));
  }

  /** rotation_store.go:285-288 */
  method ClaimApply(j: Store<Name, Record>, v: nat, rec: Record) returns (r: Outcome)
    requires Inv(j.fs) && 1 < v <= MAX_RELEASES && Release(v - 1) in j.fs.dir && rec.Apply? && rec.v == v
    requires !Either(j.fs.dir, Release(v)) && !RenewalClaim(j.fs.dir, v) && Untaken(j.fs, ApplyName(v))
    modifies j
    ensures Kept(old(j.fs), j.fs, r)
    ensures r == Done ==> Release(v - 1) in j.fs.dir && Release(v) !in j.fs.dir
    ensures r == Done ==> Found(j.fs, ApplyName(v)) == Some(Whole(rec))
    ensures r == Done ==> Found(j.fs, HandoffName(v)) == Found(old(j.fs), HandoffName(v))
    ensures r == Done ==> Found(j.fs, ReleaseName(v)) == Found(old(j.fs), ReleaseName(v))
    ensures r != Refused && Spent(old(j.steps), j.steps, 8, r)
  {
    ghost var s := j.fs;
    NotCommitted(s, ApplyName(v));
    r := Put(j, ApplyName(v), rec);
    if r == Done {
      AfterClaims(s, j.fs, ApplyName(v), rec, v);
      AfterFound(s, j.fs, ApplyName(v), rec, HandoffName(v));
      AfterFound(s, j.fs, ApplyName(v), rec, ReleaseName(v));
    }
  }

  lemma NotCommitted(s: Journal, n: Name)
    requires Inv(s) && Untaken(s, n)
    ensures Final(n) !in s.dir
  {
    assert s.dir in s.log;
  }

  /** membership_rotation.go:204 - sign the targets handoff under the recorded application. */
  method PrepareHandoff(j: Store<Name, Record>, n: nat, signed: nat, c: Checks) returns (r: Outcome)
    requires AtNext(j.fs, n)
    modifies j
    ensures Kept(old(j.fs), j.fs, r)
    ensures r == Done ==> AtNext(j.fs, n) && Ready(j.fs, HandoffName(n + 1))
    ensures r == Done ==> Found(j.fs, ApplyName(n + 1)) == Found(old(j.fs), ApplyName(n + 1))
    ensures r == Done ==> Found(j.fs, ReleaseName(n + 1)) == Found(old(j.fs), ReleaseName(n + 1))
    ensures r == Refused ==> !WantsOffline(Found(old(j.fs), ApplyName(n + 1))) || !c.handoff || !c.targets
    ensures r == Done ==> WantsOffline(Found(old(j.fs), ApplyName(n + 1))) && c.handoff && c.targets
    ensures Spent(old(j.steps), j.steps, 18, r)
  {
    ghost var s := j.fs;
    Unchanged(s, Refused);
    var v := n + 1;
    var data := ReadEither(j, ApplyName(v));
    if data.None? || !data.value.Whole? || !data.value.value.offline || !c.handoff { return Refused; }
    r := CommitApply(j, n, data.value.value);
    if r != Done { return; }
    ghost var t := j.fs;
    r := SignHandoff(j, v, data.value.value, signed, c);
    Then(s, t, j.fs, r);
  }

  /** membership_rotation.go:235-303: keep the signature that is there, or make one. */
  method SignHandoff(j: Store<Name, Record>, v: nat, apply: Record, signed: nat, c: Checks) returns (r: Outcome)
    requires Applying(j.fs, v, apply) && apply.offline && Release(v) !in j.fs.dir
    modifies j
    ensures Kept(old(j.fs), j.fs, r)
    ensures r == Done ==> Release(v - 1) in j.fs.dir && Release(v) !in j.fs.dir
    ensures r == Done ==> Holds(j.fs.dir, j.fs.data, Application(v), apply)
    ensures r == Done ==> Found(j.fs, HandoffName(v)) == Some(Whole(Reserved(old(j.fs), HandoffName(v), Handoff(v, signed))))
    ensures r == Done ==> Found(j.fs, ReleaseName(v)) == Found(old(j.fs), ReleaseName(v))
    ensures r == Refused <==> !c.targets
    ensures Spent(old(j.steps), j.steps, 9, r)
  {
    ghost var s := j.fs;
    Unchanged(s, Refused);
    if !c.targets { return Refused; }
    var targets := ReadEither(j, HandoffName(v));
    var made := targets.None? || !targets.value.Whole?;
    var rec := if made then Handoff(v, signed) else targets.value.value;
    if Targets(v) !in s.dir { Unreleased(s, v, apply); }
    if made {
      r := PutAndSync(j, HandoffName(v), rec);
    } else {
      r := Put(j, HandoffName(v), rec);
    }
    if r != Done { return; }
    AfterClaims(s, j.fs, HandoffName(v), rec, v);
    AfterFound(s, j.fs, HandoffName(v), rec, ReleaseName(v));
  }

  /** rotation.go:47 with --apply, for the next root version. */
  method Rotate(j: Store<Name, Record>, created: nat, offline: bool, root: bool, signed: nat, c: Checks,
                listing: seq<Entry<Name>>)
    returns (r: Outcome, v: nat)
    requires Inv(j.fs)
    modifies j
    ensures Kept(old(j.fs), j.fs, r)
    ensures r == Done ==> SettledAll(j.fs)
    ensures Next(old(j.fs.dir), v)
    ensures r == Done ==> Release(v) in j.fs.dir && Holds(j.fs.dir, j.fs.data, Application(v),
                            Reserved(old(j.fs), ApplyName(v), Apply(v, created, offline)))
    ensures r == Refused ==> !c.entry || v == 1 || RefusesRotate(old(j.fs), v, Apply(v, created, offline), c)
    ensures r == Done ==> c.entry && v > 1 && !RefusesRotate(old(j.fs), v, Apply(v, created, offline), c)
    ensures Spent(old(j.steps), j.steps, 4 * |listing| + 53, r)
  {
    ghost var s := j.fs;
    Unchanged(s, Refused);
    var n := Latest(j);
    v := n + 1;
    if n == 0 || !c.entry { return Refused, v; }
    assert Release(n) in j.fs.dir;
    r := RotateNext(j, n, created, offline, root, signed, c);
    if r != Done { return; }
    ghost var t := j.fs;
    r := Settle(j, listing);
    assert At(j.fs.dir, Release(n + 1)) == At(t.dir, Release(n + 1));
    assert At(j.fs.dir, Application(n + 1)) == At(t.dir, Application(n + 1));
    Then(s, t, j.fs, r);
  }

  /** Why the rotation that would reserve `rec` is refused at version `v`. */
  predicate RefusesRotate(s: Journal, v: nat, rec: Record, c: Checks)
    requires s.WF() && rec.Apply?
  {
    var made := Untaken(s, ApplyName(v));
    var offline := if made then rec.offline else WantsOffline(Found(s, ApplyName(v)));
    || RefusesReserve(s, v, c) || Spoilt(s, ApplyName(v)) || (rec.offline && (!c.handoff || !offline)) || !c.recorded
    || (offline && ((!rec.offline && !Ready(s, HandoffName(v))) || !c.targets))
    || !c.signs || Spoilt(s, ReleaseName(v))
  }

  /** rotation.go:226-253: reserve the next version, sign the handoff if one is needed, and record the release. */
  method RotateNext(j: Store<Name, Record>, n: nat, created: nat, offline: bool, root: bool, signed: nat, c: Checks)
    returns (r: Outcome)
    requires AtNext(j.fs, n)
    modifies j
    ensures Kept(old(j.fs), j.fs, r)
    ensures r == Done ==> Release(n + 1) in j.fs.dir && Holds(j.fs.dir, j.fs.data, Application(n + 1),
                            Reserved(old(j.fs), ApplyName(n + 1), Apply(n + 1, created, offline)))
    ensures r == Refused ==> RefusesRotate(old(j.fs), n + 1, Apply(n + 1, created, offline), c)
    ensures r == Done ==> !RefusesRotate(old(j.fs), n + 1, Apply(n + 1, created, offline), c)
    ensures Spent(old(j.steps), j.steps, 52, r)
  {
    ghost var s := j.fs;
    r := ReserveApply(j, n, created, offline, root, c);
    if r != Done { return; }
    ghost var t := j.fs;
    if offline {
      r := PrepareHandoff(j, n, signed, c);
      Then(s, t, j.fs, r);
      if r != Done { return; }
      t := j.fs;
    }
    var resumed;
    r, resumed := ResumeApply(j, n, c);
    Then(s, t, j.fs, r);
  }

  // Renewal.

  /** Why a renewal cannot claim or complete version `v`. */
  predicate RefusesIntent(s: Journal, v: nat, c: Checks)
    requires s.WF()
  {
    RefusesClaim(s, v, c) || ((RenewalClaim(s.dir, v) || c.due) && RefusesSigning(s, v, c))
  }

  predicate RefusesClaim(s: Journal, v: nat, c: Checks)
    requires s.WF()
  {
    || (Pending(Release(v)) in s.dir && !RenewalClaim(s.dir, v))
    || Spoilt(s, RenewalName(v)) || (Ready(s, RenewalName(v)) && !c.recorded) || (Untaken(s, RenewalName(v)) && !c.timely)
    || ((RenewalClaim(s.dir, v) || c.due) && v > MAX_RELEASES)
  }

  predicate RefusesSigning(s: Journal, v: nat, c: Checks)
    requires s.WF()
  {
    !c.signs || Spoilt(s, ReleaseName(v))
  }

  /** renew.go:143-210: the reservation to sign under - found, made, or none. */
  method ReserveRenewal(j: Store<Name, Record>, n: nat, created: nat, c: Checks) returns (r: Outcome, intent: Option<Record>)
    requires AtNext(j.fs, n) && !Named(j.fs.dir, ApplyName(n + 1)) && !Named(j.fs.dir, HandoffName(n + 1))
    modifies j
    ensures Kept(old(j.fs), j.fs, r)
    ensures r == Done && intent.Some? ==> Renewing(j.fs, n + 1, intent.value) && Release(n + 1) !in j.fs.dir
    ensures r == Done && intent.Some? ==> intent.value == Reserved(old(j.fs), RenewalName(n + 1), Intent(n + 1, created))
    ensures r == Done && intent.Some? ==> Found(j.fs, ReleaseName(n + 1)) == Found(old(j.fs), ReleaseName(n + 1))
    ensures r == Done ==> (intent.None? <==> !c.due && !old(RenewalClaim(j.fs.dir, n + 1)))
    ensures r == Done && intent.None? ==> j.fs == old(j.fs)
    ensures r == Refused ==> RefusesClaim(old(j.fs), n + 1, c)
    ensures r == Done ==> !RefusesClaim(old(j.fs), n + 1, c)
    ensures Spent(old(j.steps), j.steps, 9, r)
  {
    ghost var s := j.fs;
    Unchanged(s, Done);
    Unchanged(s, Refused);
    var plan := PlanRenewal(j, n, created, c);
    match plan {
      case Decline => return Refused, None;
      case GiveBack =>
        r := Discard(j, RenewalName(n + 1));
        return r, None;
      case Wait => return Done, None;
      case Sign(rec) =>
        r := CommitIntent(j, n + 1, rec);
        intent := Some(rec);
    }
  }

  datatype Plan = Decline | GiveBack | Wait | Sign(rec: Record)

  /** renew.go:143-201: what to do about the next version, from what the journal holds. */
  method PlanRenewal(j: Store<Name, Record>, n: nat, created: nat, c: Checks) returns (plan: Plan)
    requires AtNext(j.fs, n) && !Named(j.fs.dir, ApplyName(n + 1)) && !Named(j.fs.dir, HandoffName(n + 1))
    ensures plan.Decline? || plan.GiveBack? <==> RefusesClaim(j.fs, n + 1, c)
    ensures plan.GiveBack? ==> Pending(Renewal(n + 1)) in j.fs.dir && Untaken(j.fs, RenewalName(n + 1))
    ensures plan.Wait? ==> !c.due && !RenewalClaim(j.fs.dir, n + 1)
    ensures plan.Sign? ==> c.due || RenewalClaim(j.fs.dir, n + 1)
    ensures plan.Sign? ==> plan.rec == Reserved(j.fs, RenewalName(n + 1), Intent(n + 1, created)) && plan.rec.Intent? &&
                           plan.rec.v == n + 1 && n + 1 <= MAX_RELEASES && !Spoilt(j.fs, RenewalName(n + 1))
    ensures plan.Sign? && Renewal(n + 1) !in j.fs.dir ==> !Either(j.fs.dir, Release(n + 1))
  {
    var v := n + 1;
    var pending := Pending(Release(v)) in j.fs.dir;
    var data := ReadEither(j, RenewalName(v));
    if pending && data.None? { return Decline; }
    if Renewal(v) !in j.fs.dir && Pending(Renewal(v)) in j.fs.dir { Unsigned(j.fs, RenewalName(v)); }
    var rec := Intent(v, created);
    if data.Some? && !data.value.Torn? {
      if data.value.Cut? || !c.recorded { return Decline; }
      rec := data.value.value;
    } else {
      if !c.timely { return if data.Some? then GiveBack else Decline; }
      if data.None? && !c.due { return Wait; }
    }
    if v > MAX_RELEASES { return Decline; }
    plan := Sign(rec);
  }

  /** renew.go:202-210: the reservation is durable before anything is signed under it. */
  method CommitIntent(j: Store<Name, Record>, v: nat, rec: Record) returns (r: Outcome)
    requires Inv(j.fs) && 1 < v <= MAX_RELEASES && Release(v - 1) in j.fs.dir && !ApplyClaim(j.fs.dir, v)
    requires rec.Intent? && rec.v == v && Release(v) !in j.fs.dir
    requires Untaken(j.fs, RenewalName(v)) || Found(j.fs, RenewalName(v)) == Some(Whole(rec))
    requires Renewal(v) !in j.fs.dir ==> !Either(j.fs.dir, Release(v))
    modifies j
    ensures Kept(old(j.fs), j.fs, r)
    ensures r == Done ==> Renewing(j.fs, v, rec) && Release(v) !in j.fs.dir
    ensures r == Done ==> Found(j.fs, ReleaseName(v)) == Found(old(j.fs), ReleaseName(v))
    ensures r != Refused && Spent(old(j.steps), j.steps, 9, r)
  {
    ghost var s := j.fs;
    r := PutAndSync(j, RenewalName(v), rec);
    if r != Done { return; }
    AfterClaims(s, j.fs, RenewalName(v), rec, v);
    AfterFound(s, j.fs, RenewalName(v), rec, ReleaseName(v));
  }

  ghost predicate Renewing(s: Journal, v: nat, intent: Record) {
    && Inv(s) && SyncedDir(s) && 1 < v <= MAX_RELEASES && !ApplyClaim(s.dir, v) && Release(v - 1) in s.dir
    && Holds(s.dir, s.data, Renewal(v), intent)
  }

  /** renew.go:30 */
  method Renew(j: Store<Name, Record>, created: nat, c: Checks, listing: seq<Entry<Name>>) returns (r: Outcome, v: nat)
    requires Inv(j.fs)
    modifies j
    ensures Kept(old(j.fs), j.fs, r)
    ensures r == Done ==> SettledAll(j.fs)
    ensures Next(old(j.fs.dir), v)
    ensures r == Done && Release(v) in j.fs.dir ==>
      if Ready(old(j.fs), ApplyName(v))
      then Holds(j.fs.dir, j.fs.data, Application(v), Found(old(j.fs), ApplyName(v)).value.value)
      else Holds(j.fs.dir, j.fs.data, Renewal(v), Reserved(old(j.fs), RenewalName(v), Intent(v, created)))
    ensures r == Done ==> Release(v) in j.fs.dir || (!c.due && !old(RenewalClaim(j.fs.dir, v)))
    ensures r == Refused ==> !c.entry || v == 1 || RefusesRenew(old(j.fs), v, c)
    ensures r == Done ==> c.entry && v > 1 && !RefusesRenew(old(j.fs), v, c)
    ensures Spent(old(j.steps), j.steps, 4 * |listing| + 44, r)
  {
    ghost var s := j.fs;
    Unchanged(s, Refused);
    var n := Latest(j);
    v := n + 1;
    if n == 0 || !c.entry { return Refused, v; }
    assert Release(n) in j.fs.dir;
    var resumed;
    r, resumed := ResumeApply(j, n, c);
    if r != Done { return; }
    if !resumed {
      if Either(s.dir, Targets(n + 1)) { InPlace(s, HandoffName(n + 1)); }
      r := RenewNext(j, n, created, c);
      if r != Done { return; }
    }
    ghost var t := j.fs;
    r := Settle(j, listing);
    assert At(j.fs.dir, Release(n + 1)) == At(t.dir, Release(n + 1));
    assert At(j.fs.dir, Renewal(n + 1)) == At(t.dir, Renewal(n + 1));
    assert At(j.fs.dir, Application(n + 1)) == At(t.dir, Application(n + 1));
    Then(s, t, j.fs, r);
  }

  predicate RefusesRenew(s: Journal, v: nat, c: Checks)
    requires s.WF()
  {
    if Named(s.dir, ApplyName(v)) then RefusesResume(s, v, c) else RefusesIntent(s, v, c)
  }

  /** renew.go:143-224: reserve the next version, then sign and record what the reservation determines. */
  method RenewNext(j: Store<Name, Record>, n: nat, created: nat, c: Checks) returns (r: Outcome)
    requires AtNext(j.fs, n) && !Named(j.fs.dir, ApplyName(n + 1)) && !Named(j.fs.dir, HandoffName(n + 1))
    modifies j
    ensures Kept(old(j.fs), j.fs, r)
    ensures r == Done && Release(n + 1) in j.fs.dir ==>
      Holds(j.fs.dir, j.fs.data, Renewal(n + 1), Reserved(old(j.fs), RenewalName(n + 1), Intent(n + 1, created)))
    ensures r == Done ==> Release(n + 1) in j.fs.dir || (!c.due && !old(RenewalClaim(j.fs.dir, n + 1)))
    ensures r == Refused ==> RefusesIntent(old(j.fs), n + 1, c)
    ensures r == Done ==> !RefusesIntent(old(j.fs), n + 1, c)
    ensures Spent(old(j.steps), j.steps, 17, r)
  {
    ghost var s := j.fs;
    var intent;
    r, intent := ReserveRenewal(j, n, created, c);
    if r != Done || intent.None? { return; }
    r := SignRenewal(s, j, n + 1, intent.value, c);
  }

  /** renew.go:211-224: sign and record the release that the reservation determines. */
  method SignRenewal(ghost started: Journal, j: Store<Name, Record>, v: nat, intent: Record, c: Checks) returns (r: Outcome)
    requires started.WF() && Kept(started, j.fs, Done) && Renewing(j.fs, v, intent) && Release(v) !in j.fs.dir
    modifies j
    ensures Kept(started, j.fs, r)
    ensures r == Done ==> Release(v) in j.fs.dir && Holds(j.fs.dir, j.fs.data, Renewal(v), intent)
    ensures r == Refused <==> RefusesSigning(old(j.fs), v, c)
    ensures Spent(old(j.steps), j.steps, 8, r)
  {
    ghost var s := j.fs;
    Unchanged(s, Refused);
    Then(started, s, s, Refused);
    if !c.signs { return Refused; }
    var next := Renewed(intent);
    PendingAgrees(s, v, next);
    var pending := ReadEither(j, ReleaseName(v));
    if pending.Some? && !pending.value.Torn? && pending.value != Whole(next) { return Refused; }
    r := Put(j, ReleaseName(v), next);
    Then(started, s, j.fs, r);
    if r == Done { AfterClaims(s, j.fs, ReleaseName(v), next, v); }
  }

  // Any command.

  datatype Command =
    | DoPublish(version: nat, manifest: nat, signed: nat)
    | DoRenew(created: nat)
    | DoRotate(created: nat, offline: bool, root: bool, signed: nat)

  method Execute(j: Store<Name, Record>, command: Command, c: Checks, listing: seq<Entry<Name>>) returns (r: Outcome)
    requires Inv(j.fs)
    modifies j
    ensures Kept(old(j.fs), j.fs, r)
  {
    match command
    case DoPublish(version, manifest, signed) =>
      var rec;
      r, rec := Publish(j, version, manifest, signed, c, listing);
    case DoRenew(created) =>
      var v;
      r, v := Renew(j, created, c, listing);
    case DoRotate(created, offline, root, signed) =>
      var v;
      r, v := Rotate(j, created, offline, root, signed, c, listing);
  }

  lemma SpoiltUnreleased(s: Journal, n: Name)
    requires Inv(s) && Spoilt(s, n)
    ensures Release(n.v) !in s.dir
  {
    assert s.dir in s.log;
    if Release(n.v) in s.dir { InPlace(s, ReleaseName(n.v)); }
  }
}
