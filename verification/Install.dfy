/**
  internal/omega/store.go and internal/omega/publication_store.go: installing immutable
  files, cleaning temporary files, and replacing the one kind of mutable record. Every
  method can stop before any file operation, so its postcondition speaks of every point
  at which the process can be killed.
 */
module Install {
  import opened Wrappers
  import opened Disk

  /** `Died` stands for a killed process and for a failing file operation alike. */
  datatype Outcome = Done | Refused | Died

  /** At most `n` file operations were used, and only running out of them stops a process. */
  ghost predicate Spent(before: nat, after: nat, n: nat, r: Outcome) {
    before <= after + n && (r == Died ==> after == 0)
  }

  /** What an install of `value` under `name` may have changed, however far it got. */
  ghost predicate Installing<N(!new), R>(s: FS<N, R>, t: FS<N, R>, name: Entry<N>, value: R)
    requires s.WF()
  {
    && t.WF() && Grows(s, t)
    && Framed(s, t, {name, Pending(name)})
    && (name in s.dir ==> t == s) && Logged(s, t, name) && (Ready(s, name, value) ==> Stands(t.dir, name))
    && (forall d :: d in t.log && d !in s.log ==> Partial(s, t, d, name, value))
    && (t == s || Partial(s, t, t.dir, name, value))
  }

  /** One of the two names of an install is there. */
  predicate Stands<N>(d: Dir<N>, name: Entry<N>) { name in d || Pending(name) in d }

  /**
    The directory states since the last sync: either the earlier ones and some more, none of
    which shows a name that is gone again at the end, or only such as have the final name.
   */
  ghost predicate Logged<N(!new), R>(s: FS<N, R>, t: FS<N, R>, name: Entry<N>) {
    || (s.log <= t.log && forall i :: |s.log| <= i < |t.log| ==>
          && SameBut(t.log[i], s.dir, {name, Pending(name)}) && (Stands(t.log[i], name) ==> Stands(t.dir, name))
          && (name in t.log[i] ==> At(t.dir, name) == At(t.log[i], name) && Pending(name) in t.log[i]))
    || (forall d :: d in t.log ==>
          SameBut(d, s.dir, {name, Pending(name)}) && name in d && At(t.dir, name) == At(d, name))
  }

  /** A directory state left behind by an unfinished install. */
  ghost predicate Partial<N, R>(s: FS<N, R>, t: FS<N, R>, d: Dir<N>, name: Entry<N>, value: R)
    requires t.WF() && d in t.log
  {
    && (name in d ==> d[name] in t.synced && t.data[d[name]] == Whole(value))
    && (name in d && Pending(name) in d ==> d[Pending(name)] == d[name])
    && (Pending(name) in d ==>
         || At(d, Pending(name)) == At(s.dir, Pending(name))
         || (!Ready(s, name, value) && (t.data[d[Pending(name)]].Whole? ==> t.data[d[Pending(name)]] == Whole(value))))
  }

  /** The temporary file already holds the value: an install will use it as it is. */
  ghost predicate Ready<N, R>(s: FS<N, R>, name: Entry<N>, value: R) {
    Pending(name) in s.dir && s.dir[Pending(name)] in s.data && s.data[s.dir[Pending(name)]] == Whole(value)
  }

  /** The temporary files among `names` that repeat the bytes of their final object. */
  ghost function Twins<N, R>(s: FS<N, R>, names: seq<Entry<N>>): set<Entry<N>>
    requires s.WF()
  {
    set e | e in names && e.Pending? && e in s.dir && e.of in s.dir && s.Read(e) == s.Read(e.of)
  }

  /** `d` is `b` without some of the entries in `es`. */
  ghost predicate Removes<N(!new)>(d: Dir<N>, b: Dir<N>, es: set<Entry<N>>) {
    (forall e :: e in d ==> At(b, e) == Some(d[e])) && SameBut(d, b, es)
  }

  /** What removing entries of `es` may have done, however far it got. */
  ghost predicate Cleaning<N(!new), R>(s: FS<N, R>, t: FS<N, R>, es: set<Entry<N>>) {
    && t.data == s.data && s.synced <= t.synced && Removes(t.dir, s.dir, es)
    && (|| (s.log <= t.log && forall i :: |s.log| <= i < |t.log| ==> Removes(t.log[i], s.dir, es))
        || (forall d :: d in t.log ==> Removes(d, s.dir, es)))
  }

  lemma CleaningStep<N(!new), R>(s: FS<N, R>, m: FS<N, R>, t: FS<N, R>, es: set<Entry<N>>, e: Entry<N>)
    requires Cleaning(s, m, es) && Cleaning(m, t, {e}) && e in es
    ensures Cleaning(s, t, es)
  {
    forall d | Removes(d, m.dir, {e}) ensures Removes(d, s.dir, es) {
      forall x | x !in es ensures At(d, x) == At(s.dir, x) {
        assert At(d, x) == At(m.dir, x);
      }
    }
    if s.log <= m.log && m.log <= t.log {
      forall i | |s.log| <= i < |t.log| ensures Removes(t.log[i], s.dir, es) {
        assert i < |m.log| ==> t.log[i] == m.log[i];
      }
    } else if m.log <= t.log {
      forall d | d in t.log ensures Removes(d, s.dir, es) {
        var i :| 0 <= i < |t.log| && t.log[i] == d;
        assert i < |m.log| ==> t.log[i] == m.log[i] && m.log[i] in m.log;
      }
    }
  }

  /** Removing entries makes no new twins. */
  lemma FewerTwins<N(!new), R>(s: FS<N, R>, t: FS<N, R>, names: seq<Entry<N>>, es: set<Entry<N>>)
    requires s.WF() && t.WF() && Cleaning(s, t, es)
    ensures Twins(t, names) <= Twins(s, names)
  {
    forall e | e in Twins(t, names) ensures e in Twins(s, names) {
      assert At(s.dir, e) == Some(t.dir[e]) && At(s.dir, e.of) == Some(t.dir[e.of]);
    }
  }

  /** Cleaning temporary files cannot touch a final name. */
  lemma CleaningKeepsDurable<N(!new), R>(s: FS<N, R>, t: FS<N, R>, es: set<Entry<N>>)
    requires s.WF() && t.WF() && Cleaning(s, t, es)
    requires forall e :: e in es ==> e.Pending?
    ensures forall n, v :: Durable(s, Final(n), v) ==> Durable(t, Final(n), v)
  {
    PendingFrameKeepsDurable(s, t, es);
  }

  // The successive disk states of an install, one per file operation.

  function Reuse<N(==), R(==)>(s: FS<N, R>, name: Entry<N>, value: R): bool
    requires s.WF()
  {
    s.Read(Pending(name)) == Some(Whole(value))
  }

  function Cleared<N(==), R(==)>(s: FS<N, R>, name: Entry<N>, value: R): FS<N, R>
    requires s.WF()
  {
    if Pending(name) in s.dir && !Reuse(s, name, value) then s.Remove(Pending(name)) else s
  }

  function Created<N(==), R(==)>(s: FS<N, R>, name: Entry<N>, value: R): FS<N, R>
    requires s.WF()
  {
    if Reuse(s, name, value) then s else Cleared(s, name, value).Create(Pending(name))
  }

  function Half<N(==), R(==)>(s: FS<N, R>, name: Entry<N>, value: R): FS<N, R>
    requires s.WF()
  {
    if Reuse(s, name, value) then s else Created(s, name, value).WriteCut(Pending(name))
  }

  function Written<N(==), R(==)>(s: FS<N, R>, name: Entry<N>, value: R): FS<N, R>
    requires s.WF()
  {
    if Reuse(s, name, value) then s else Created(s, name, value).Write(Pending(name), value)
  }

  function Synced<N(==), R(==)>(s: FS<N, R>, name: Entry<N>, value: R): FS<N, R>
    requires s.WF()
  {
    Written(s, name, value).SyncFile(Pending(name))
  }

  function Linked<N(==), R(==)>(s: FS<N, R>, name: Entry<N>, value: R): FS<N, R>
    requires s.WF() && name !in s.dir
  {
    Synced(s, name, value).Link(Pending(name), name)
  }

  function Dropped<N(==), R(==)>(s: FS<N, R>, name: Entry<N>, value: R): FS<N, R>
    requires s.WF() && name !in s.dir
  {
    Linked(s, name, value).SyncDir().Remove(Pending(name))
  }

  function Installed<N(==), R(==)>(s: FS<N, R>, name: Entry<N>, value: R): (t: FS<N, R>)
    requires s.WF() && name !in s.dir
    ensures t.WF()
  {
    Dropped(s, name, value).SyncDir()
  }

  /** Every state in which an install can be killed; if `cut`, also short of the last byte of its write. */
  predicate KilledAt<N(==), R(==)>(s: FS<N, R>, name: Entry<N>, value: R, cut: bool, t: FS<N, R>)
    requires s.WF() && name !in s.dir
  {
    || t == s || t == Cleared(s, name, value) || t == Created(s, name, value) || (cut && t == Half(s, name, value))
    || t == Written(s, name, value) || t == Synced(s, name, value)
    || t == Linked(s, name, value) || t == Linked(s, name, value).SyncDir()
    || t == Dropped(s, name, value) || t == Installed(s, name, value)
  }

  lemma KilledAnyhow<N, R>(s: FS<N, R>, name: Entry<N>, value: R, cut: bool, t: FS<N, R>)
    requires s.WF() && name !in s.dir && KilledAt(s, name, value, false, t)
    ensures KilledAt(s, name, value, cut, t)
  {
  }

  lemma PathData<N(!new), R>(s: FS<N, R>, name: Entry<N>, value: R)
    requires s.WF() && name !in s.dir
    ensures Cleared(s, name, value).data == s.data
    ensures Created(s, name, value).data in {s.data, s.data[s.next := Torn]}
    ensures Written(s, name, value).data in {s.data, s.data[s.next := Whole(value)]}
    ensures Synced(s, name, value).data == Written(s, name, value).data
    ensures Dropped(s, name, value).data == Written(s, name, value).data
  {
    if !Reuse(s, name, value) {
      assert Created(s, name, value).data == s.data[s.next := Torn];
      assert Written(s, name, value).data == s.data[s.next := Whole(value)];
    }
  }

  lemma PathUncut<N(!new), R>(s: FS<N, R>, name: Entry<N>, value: R, t: FS<N, R>)
    requires s.WF() && name !in s.dir && KilledAt(s, name, value, false, t)
    ensures Uncut(s.data, t.data)
  {
    PathData(s, name, value);
  }

  lemma ClearedSafe<N(!new), R>(s: FS<N, R>, name: Entry<N>, value: R)
    requires s.WF() && Sound(s) && name !in s.dir
    ensures var t := Cleared(s, name, value);
      Installing(s, t, name, value) && Sound(t)
  {
  }

  lemma CreatedSafe<N(!new), R>(s: FS<N, R>, name: Entry<N>, value: R)
    requires s.WF() && Sound(s) && name !in s.dir
    ensures var t := Created(s, name, value);
      Installing(s, t, name, value) && Sound(t)
  {
    ClearedSafe(s, name, value);
    if !Reuse(s, name, value) {
      var m, t := Cleared(s, name, value), Created(s, name, value);
      assert t.dir == m.dir[Pending(name) := s.next] && t.log == m.log + [t.dir];
      assert t.data == s.data[s.next := Torn] && t.synced == s.synced && Grows(s, t);
      assert Partial(s, t, t.dir, name, value);
      assert SameBut(t.dir, s.dir, {name, Pending(name)});
    }
  }

  lemma HalfSafe<N(!new), R>(s: FS<N, R>, name: Entry<N>, value: R)
    requires s.WF() && Sound(s) && name !in s.dir
    ensures var t := Half(s, name, value);
      Installing(s, t, name, value) && Sound(t)
  {
    CreatedSafe(s, name, value);
    if !Reuse(s, name, value) {
      var m, t := Created(s, name, value), Half(s, name, value);
      assert t.dir == m.dir && t.log == m.log && m.dir[Pending(name)] == s.next;
      assert t.data == m.data[s.next := Cut] && t.synced == m.synced;
    }
  }

  lemma WrittenSafe<N(!new), R>(s: FS<N, R>, name: Entry<N>, value: R)
    requires s.WF() && Sound(s) && name !in s.dir
    ensures var t := Written(s, name, value);
      Installing(s, t, name, value) && Sound(t)
  {
    CreatedSafe(s, name, value);
    if !Reuse(s, name, value) {
      var m, t := Created(s, name, value), Written(s, name, value);
      assert t.dir == m.dir && t.log == m.log && m.dir[Pending(name)] == s.next;
      assert t.data == m.data[s.next := Whole(value)] && t.synced == m.synced;
    }
  }

  lemma SyncedSafe<N(!new), R>(s: FS<N, R>, name: Entry<N>, value: R)
    requires s.WF() && Sound(s) && name !in s.dir
    ensures var t := Synced(s, name, value);
      Installing(s, t, name, value) && Sound(t)
  {
    WrittenSafe(s, name, value);
    var m, t := Written(s, name, value), Synced(s, name, value);
    assert t.dir == m.dir && t.log == m.log && t.data == m.data && m.synced <= t.synced;
  }

  lemma LinkedLogged<N(!new), R>(s: FS<N, R>, m: FS<N, R>, t: FS<N, R>, name: Entry<N>)
    requires Logged(s, m, name) && SameBut(m.dir, s.dir, {name, Pending(name)}) && Pending(name) in m.dir && name !in m.dir
    requires t.dir == m.dir[name := m.dir[Pending(name)]] && t.log == m.log + [t.dir] && m.dir in m.log
    ensures Logged(s, t, name)
  {
    assert SameBut(t.dir, s.dir, {name, Pending(name)});
    forall i | |s.log| <= i < |m.log| ensures name !in m.log[i] && t.log[i] == m.log[i] { }
  }

  lemma LinkedSafe<N(!new), R>(s: FS<N, R>, name: Entry<N>, value: R)
    requires s.WF() && Sound(s) && name !in s.dir
    ensures var t := Linked(s, name, value);
      Installing(s, t, name, value) && Sound(t)
  {
    SyncedSafe(s, name, value);
    var m, t := Synced(s, name, value), Linked(s, name, value);
    LinkedLogged(s, m, t, name);
    assert t.dir == m.dir[name := m.dir[Pending(name)]] && t.log == m.log + [t.dir];
    assert t.data == m.data && t.synced == m.synced && Grows(s, t);
    assert Partial(s, t, t.dir, name, value);
    assert SameBut(t.dir, s.dir, {name, Pending(name)});
  }

  lemma LinkedDurablySafe<N(!new), R>(s: FS<N, R>, name: Entry<N>, value: R)
    requires s.WF() && Sound(s) && name !in s.dir
    ensures var t := Linked(s, name, value).SyncDir();
      Installing(s, t, name, value) && Sound(t)
  {
    LinkedSafe(s, name, value);
    var m, t := Linked(s, name, value), Linked(s, name, value).SyncDir();
    assert t.dir == m.dir && m.dir in m.log && t.log == [m.dir] && t.data == m.data && t.synced == m.synced;
    assert Partial(s, t, t.dir, name, value);
  }

  lemma DroppedLogged<N(!new), R>(s: FS<N, R>, m: FS<N, R>, t: FS<N, R>, name: Entry<N>)
    requires SameBut(m.dir, s.dir, {name, Pending(name)}) && name in m.dir
    requires t.dir == m.dir - {Pending(name)} && t.log == [m.dir, t.dir]
    ensures Logged(s, t, name) && SameBut(t.dir, s.dir, {name, Pending(name)})
  {
    assert SameBut(t.dir, s.dir, {name, Pending(name)});
    assert name != Pending(name);
  }

  lemma DroppedSafe<N(!new), R>(s: FS<N, R>, name: Entry<N>, value: R)
    requires s.WF() && Sound(s) && name !in s.dir
    ensures var t := Dropped(s, name, value);
      Installing(s, t, name, value) && Sound(t)
  {
    LinkedDurablySafe(s, name, value);
    var m, t := Linked(s, name, value).SyncDir(), Dropped(s, name, value);
    DroppedLogged(s, m, t, name);
    assert t.dir == m.dir - {Pending(name)} && t.log == [m.dir, t.dir];
    assert t.data == m.data && t.synced == m.synced && Grows(s, t);
    assert Partial(s, t, t.dir, name, value);
    assert SameBut(t.dir, s.dir, {name, Pending(name)});
  }

  lemma DroppedDurablySafe<N(!new), R>(s: FS<N, R>, name: Entry<N>, value: R)
    requires s.WF() && Sound(s) && name !in s.dir
    ensures var t := Dropped(s, name, value).SyncDir();
      Installing(s, t, name, value) && Sound(t)
  {
    DroppedSafe(s, name, value);
    var m, t := Dropped(s, name, value), Dropped(s, name, value).SyncDir();
    assert t.dir == m.dir && m.dir in m.log && t.log == [m.dir] && t.data == m.data && t.synced == m.synced;
    assert Partial(s, t, t.dir, name, value);
  }

  /** Every state an install passes through is safe to be killed in. */
  lemma InstallPathSafe<N(!new), R>(s: FS<N, R>, name: Entry<N>, value: R, t: FS<N, R>)
    requires s.WF() && Sound(s) && name !in s.dir && KilledAt(s, name, value, true, t)
    ensures Installing(s, t, name, value) && Sound(t)
  {
    if t == Cleared(s, name, value) {
      ClearedSafe(s, name, value);
    } else if t == Created(s, name, value) {
      CreatedSafe(s, name, value);
    } else if t == Half(s, name, value) {
      HalfSafe(s, name, value);
    } else if t == Written(s, name, value) {
      WrittenSafe(s, name, value);
    } else if t == Synced(s, name, value) {
      SyncedSafe(s, name, value);
    } else if t == Linked(s, name, value) {
      LinkedSafe(s, name, value);
    } else if t == Linked(s, name, value).SyncDir() {
      LinkedDurablySafe(s, name, value);
    } else if t == Dropped(s, name, value) {
      DroppedSafe(s, name, value);
    } else if t != s {
      DroppedDurablySafe(s, name, value);
    }
  }

  // Writing a public object.

  /** What publishing `value` as `name` may have changed, however far it got. */
  ghost predicate Writing<N(!new), R>(s: FS<N, R>, t: FS<N, R>, name: Entry<N>, value: R)
    requires s.WF()
  {
    && t.WF() && Grows(s, t) && Framed(s, t, {name, Pending(name)}) && Shows(s, t, t.dir, name, value)
    && forall d :: d in t.log ==> d in s.log || Shows(s, t, d, name, value)
  }

  /** `name` shows what it showed before, or exactly `value` and that on stable storage. */
  ghost predicate Shows<N, R>(s: FS<N, R>, t: FS<N, R>, d: Dir<N>, name: Entry<N>, value: R)
    requires t.WF() && d in t.log
  {
    At(d, name) == At(s.dir, name) || (name in d && d[name] in t.synced && t.data[d[name]] == Whole(value))
  }

  /** No directory since has shown anything new under the name. */
  ghost predicate Hidden<N, R>(s: FS<N, R>, t: FS<N, R>, name: N) {
    forall d :: d in t.log ==> d in s.log || At(d, Final(name)) == At(s.dir, Final(name))
  }

  /** How many file operations a new temporary file takes: one more if an old one is in the way. */
  function TemporaryCost<N(==), R>(s: FS<N, R>, name: N): nat { if Pending(Final(name)) in s.dir then 4 else 3 }

  /** One more directory operation on the two names of the object. */
  lemma WroteEntry<N(!new), R>(s: FS<N, R>, m: FS<N, R>, t: FS<N, R>, name: N, value: R)
    requires s.WF() && Sound(s) && Writing(s, m, Final(name), value) && Sound(m) && t.WF()
    requires t.data == m.data && t.synced == m.synced && (t.log == m.log + [t.dir] || t.log == [t.dir])
    requires SameBut(t.dir, s.dir, {Final(name), Pending(Final(name))})
    requires Shows(s, t, t.dir, Final(name), value)
    ensures Writing(s, t, Final(name), value) && Sound(t)
  {
    assert s.dir in s.log;
    forall d | d in t.log && d != t.dir ensures d in m.log {
    }
    forall n | Final(n) in t.dir ensures t.dir[Final(n)] in t.synced && t.data[t.dir[Final(n)]].Whole? {
      assert n != name ==> Final(n) !in {Final(name), Pending(Final(name))} && At(t.dir, Final(n)) == At(s.dir, Final(n));
    }
  }

  /** A change to the bytes of the temporary file, which no other name shares. */
  lemma WroteBytes<N(!new), R>(s: FS<N, R>, m: FS<N, R>, t: FS<N, R>, name: N, value: R, i: nat)
    requires s.WF() && Sound(s) && Writing(s, m, Final(name), value) && Sound(m) && t.WF()
    requires i !in s.data && i !in m.synced && i in m.data
    requires t.dir == m.dir && t.log == m.log && m.synced <= t.synced && t.data.Keys == m.data.Keys
    requires forall k :: k in m.data && k != i ==> t.data[k] == m.data[k]
    ensures Writing(s, t, Final(name), value) && Sound(t)
  {
  }

  lemma WroteNew<N(!new), R>(s: FS<N, R>, m: FS<N, R>, t: FS<N, R>, name: N, value: R)
    requires s.WF() && Sound(s) && Writing(s, m, Final(name), value) && Sound(m)
    requires At(m.dir, Final(name)) == At(s.dir, Final(name)) && Pending(Final(name)) !in m.dir
    requires t == m.Create(Pending(Final(name)))
    ensures Writing(s, t, Final(name), value) && Sound(t)
  {
    var u := m.(data := m.data[m.next := Torn], next := m.next + 1);
    assert u.WF() && Sound(u) && Writing(s, u, Final(name), value);
    WroteEntry(s, u, t, name, value);
  }

  lemma WritingKeepsDurable<N(!new), R>(s: FS<N, R>, t: FS<N, R>, name: N, value: R)
    requires s.WF() && Writing(s, t, Final(name), value)
    ensures forall n, v :: n != name && Durable(s, Final(n), v) ==> Durable(t, Final(n), v)
  {
    forall n, v | n != name && Durable(s, Final(n), v) ensures Durable(t, Final(n), v) {
      FrameKeepsDurable(s, t, {Final(name), Pending(Final(name))}, Final(n), v);
    }
  }

  /** Which unsynced contents a power loss tears, and which it cuts before their last byte. */
  datatype Harm = Harm(torn: set<nat>, cut: set<nat>)

  /** No content was cut before its last byte. */
  ghost predicate Uncut<R>(was: map<nat, Content<R>>, data: map<nat, Content<R>>) {
    forall i :: i in data && data[i].Cut? ==> i in was && was[i].Cut?
  }

  function Harmed<N, R>(s: FS<N, R>, harm: Harm): (data: map<nat, Content<R>>)
    ensures data.Keys == s.data.Keys
    ensures forall i :: i in s.data ==> data[i] == s.data[i] || (i !in s.synced && !data[i].Whole?)
    ensures harm.cut == {} ==> Uncut(s.data, data)
  {
    map i | i in s.data ::
      if i in s.synced then s.data[i] else if i in harm.torn then Torn else if i in harm.cut then Cut else s.data[i]
  }

  /** A command of the operator, or a power loss with the choices it makes. */
  datatype Action<N(==), R> =
    | InstallFile(name: N, value: R, steps: nat)
    | SyncDirectory(steps: nat)
    | CleanPendings(names: seq<N>, steps: nat)
    | CleanTwins(entries: seq<Entry<N>>, steps: nat)
    | PowerLoss(keep: map<Entry<N>, nat>, harm: Harm)

  /** The directory in which `e` falls back to its `keep[e]`-th value of `log`. */
  function Recalled<N(==, !new)>(log: seq<Dir<N>>, keep: map<Entry<N>, nat>): (dir: Dir<N>)
    requires log != []
    ensures forall e :: Recalls(log, dir, e)
    ensures forall e :: e in keep && keep[e] < |log| ==> At(dir, e) == At(log[keep[e]], e)
  {
    var names := set d, e | d in log && e in d :: e;
    var pick := map e | e in names :: log[if e in keep && keep[e] < |log| then keep[e] else |log| - 1];
    var dir := map e | e in names && e in pick[e] :: pick[e][e];
    assert forall e :: Recalls(log, dir, e) by {
      forall e ensures Recalls(log, dir, e) {
        var d := if e in names then pick[e] else log[0];
        assert d in log && At(dir, e) == At(d, e);
      }
    }
    dir
  }

  /** A power loss with its choices: what each entry falls back to, and which contents are torn. */
  function Lose<N(==, !new), R>(s: FS<N, R>, keep: map<Entry<N>, nat>, harm: Harm): (t: FS<N, R>)
    requires s.WF()
    ensures Loss(s, t) && t.dir == Recalled(s.log, keep) && t.data == Harmed(s, harm)
  {
    var dir := Recalled(s.log, keep);
    assert forall e :: e in dir ==> dir[e] in s.data by {
      forall e | e in dir ensures dir[e] in s.data {
        assert Recalls(s.log, dir, e);
      }
    }
    FS(dir, [dir], Harmed(s, harm), s.data.Keys, s.next)
  }

  /** The power loss that keeps exactly the first directory operations since the last sync. */
  function LoseOrdered<N(==, !new), R>(s: FS<N, R>, upTo: nat, harm: Harm): (t: FS<N, R>)
    requires s.WF()
    ensures OrderedLoss(s, t) && t.data == Harmed(s, harm)
  {
    var dir := s.log[if upTo < |s.log| then upTo else |s.log| - 1];
    var t := FS(dir, [dir], Harmed(s, harm), s.data.Keys, s.next);
    assert dir in s.log && forall e :: Recalls(s.log, t.dir, e);
    t
  }

  class Store<N(==, !new), R(==)> {
    var fs: FS<N, R>
    var steps: nat // file operations left before the process dies
    var cut: bool  // whether a process that dies in a write leaves all but the last byte

    ghost predicate Valid() reads this { fs.WF() && Sound(fs) }

    constructor ()
      ensures Valid() && fs.dir == map[] && fs.data == map[] && fs.log == [fs.dir]
    {
      fs := FS(map[], [map[]], map[], {}, 0);
      steps, cut := 0, false;
    }

    method Tick() returns (alive: bool)
      modifies `steps
      ensures alive == (old(steps) > 0) && steps == if alive then old(steps) - 1 else 0
    {
      alive := steps > 0;
      if alive { steps := steps - 1; }
    }

    /** store.go:202 - write, sync, link, sync, remove; existing bytes are never replaced. */
    method Install(name: Entry<N>, value: R) returns (r: Outcome)
      requires Valid()
      modifies this
      ensures Valid()
      ensures Installing(old(fs), fs, name, value)
      ensures r == Done ==> fs.Read(name) == Some(Whole(value))
      ensures r == Refused <==> old(name in fs.dir && fs.Read(name) != Some(Whole(value)))
      ensures r == Refused ==> fs == old(fs)
      ensures r == Done && old(name !in fs.dir) ==> fs.log == [fs.dir] && Pending(name) !in fs.dir
      ensures old(name in fs.dir) ==> r != Died
      ensures old(name !in fs.dir) ==> KilledAt(old(fs), name, value, old(cut), fs)
      ensures r == Done && old(name !in fs.dir) ==> fs == Installed(old(fs), name, value)
      ensures Spent(old(steps), steps, 8, r)
    {
      if name in fs.dir {
        return if fs.Read(name) == Some(Whole(value)) then Done else Refused;
      }
      ghost var s := fs;
      r := InstallNew(name, value);
      InstallPathSafe(s, name, value, fs);
    }

    /** store.go:211-266 */
    method InstallNew(name: Entry<N>, value: R) returns (r: Outcome)
      requires fs.WF() && name !in fs.dir
      modifies this
      ensures r != Refused && KilledAt(old(fs), name, value, old(cut), fs)
      ensures r == Done ==> fs == Installed(old(fs), name, value)
      ensures Spent(old(steps), steps, 8, r)
    {
      var pending := Pending(name);
      var existing := fs.Read(pending);
      var reuse := existing == Some(Whole(value));
      if existing.Some? && !reuse {
        var alive := Tick();
        if !alive { return Died; }
        fs := fs.Remove(pending);
      }
      if !reuse {
        var alive := Tick();
        if !alive { return Died; }
        fs := fs.Create(pending);
        alive := Tick();
        if !alive {
          if cut { fs := fs.WriteCut(pending); }
          return Died;
        }
        fs := fs.Write(pending, value);
      }
      r := LinkNew(old(fs), name, value);
      KilledAnyhow(old(fs), name, value, old(cut), fs);
    }

    /** store.go:242-266: sync the temporary file and give it its final name. */
    method LinkNew(ghost s: FS<N, R>, name: Entry<N>, value: R) returns (r: Outcome)
      requires s.WF() && name !in s.dir && fs == Written(s, name, value)
      modifies this
      ensures r != Refused && KilledAt(s, name, value, false, fs)
      ensures r == Done ==> fs == Installed(s, name, value)
      ensures Spent(old(steps), steps, 5, r)
    {
      var pending := Pending(name);
      var alive := Tick();
      if !alive { return Died; }
      fs := fs.SyncFile(pending);
      alive := Tick();
      if !alive { return Died; }
      fs := fs.Link(pending, name);
      alive := Tick();
      if !alive { return Died; }
      fs := fs.SyncDir();
      alive := Tick();
      if !alive { return Died; }
      fs := fs.Remove(pending);
      alive := Tick();
      if !alive { return Died; }
      fs := fs.SyncDir();
      return Done;
    }

    /** store.go:191 */
    method SyncDir() returns (r: Outcome)
      requires Valid()
      modifies this
      ensures Valid() && r != Refused
      ensures r == Died ==> fs == old(fs)
      ensures r == Done ==> fs == old(fs.SyncDir())
      ensures Spent(old(steps), steps, 1, r)
    {
      var alive := Tick();
      if !alive { return Died; }
      fs := fs.SyncDir();
      return Done;
    }

    /** The pair every caller uses before it relies on an installed record. */
    method InstallAndSync(name: N, value: R) returns (r: Outcome)
      requires Valid()
      modifies this
      ensures Valid()
      ensures Installing(old(fs), fs, Final(name), value) || fs == old(fs.SyncDir())
      ensures r == Done ==> Durable(fs, Final(name), value) && fs.log == [fs.dir]
      ensures r == Refused ==> fs == old(fs) && fs.Read(Final(name)) != Some(Whole(value))
      ensures Spent(old(steps), steps, 9, r)
    {
      r := Install(Final(name), value);
      if r == Done {
        r := SyncDir();
      }
    }

    /** store.go:271 - discard temporary files whatever they hold. */
    method CleanPending(names: seq<N>) returns (r: Outcome)
      requires Valid()
      modifies this
      ensures Valid() && Grows(old(fs), fs)
      ensures Framed(old(fs), fs, set n | n in names :: Pending(Final(n)))
      ensures r == Done ==> fs.log == [fs.dir] && forall n :: n in names ==> Pending(Final(n)) !in fs.dir
      ensures r != Refused && Spent(old(steps), steps, |names| + 1, r)
    {
      ghost var gone := set n | n in names :: Pending(Final(n));
      for i := 0 to |names|
        invariant Valid() && Grows(old(fs), fs) && Framed(old(fs), fs, gone)
        invariant forall k :: 0 <= k < i ==> Pending(Final(names[k])) !in fs.dir
        invariant old(steps) <= steps + i
      {
        if Pending(Final(names[i])) in fs.dir {
          var alive := Tick();
          if !alive { return Died; }
          assert Pending(Final(names[i])) in gone;
          fs := fs.Remove(Pending(Final(names[i])));
        }
      }
      r := SyncDir();
    }

    /** publication_store.go:404-421 - make the final object durable, then drop its twin. */
    method RemoveTwin(e: Entry<N>) returns (r: Outcome)
      requires Valid() && e.Pending? && e in fs.dir && e.of in fs.dir
      modifies this
      ensures Valid() && r != Refused && Cleaning(old(fs), fs, {e})
      ensures r == Done ==> e !in fs.dir && fs.log == [fs.dir]
      ensures Spent(old(steps), steps, 4, r)
    {
      var alive := Tick();
      if !alive { return Died; }
      fs := fs.SyncFile(e.of);
      alive := Tick();
      if !alive { return Died; }
      fs := fs.SyncDir();
      alive := Tick();
      if !alive { return Died; }
      fs := fs.Remove(e);
      alive := Tick();
      if !alive { return Died; }
      fs := fs.SyncDir();
      return Done;
    }

    /**
      publication_store.go:374 - remove a temporary file only when the final object holds
      the same bytes, after making that object durable.
     */
    method CleanPendingTwins(names: seq<Entry<N>>) returns (r: Outcome)
      requires Valid()
      modifies this
      ensures Valid() && r != Refused && Cleaning(old(fs), fs, Twins(old(fs), names))
      ensures r == Done && old(fs.log == [fs.dir]) ==> fs.log == [fs.dir]
      ensures r == Done ==> Twins(fs, names) == {}
      ensures Spent(old(steps), steps, 4 * |names|, r)
    {
      ghost var s := fs;
      for i := 0 to |names|
        invariant Valid() && Cleaning(s, fs, Twins(s, names))
        invariant old(fs.log == [fs.dir]) ==> fs.log == [fs.dir]
        invariant forall k :: 0 <= k < i ==> names[k] !in Twins(fs, names)
        invariant old(steps) <= steps + 4 * i
      {
        var e := names[i];
        if e.Pending? && e in fs.dir && e.of in fs.dir && fs.Read(e) == fs.Read(e.of) {
          ghost var m := fs;
          r := RemoveTwin(e);
          CleaningStep(s, m, fs, Twins(s, names), e);
          FewerTwins(m, fs, names, {e});
          if r == Died { return; }
        }
      }
      return Done;
    }

    /** publication_store.go:223 - immutable objects are linked once, the mutable one is renamed over. */
    method WriteObject(name: N, value: R, mutable: bool) returns (r: Outcome)
      requires Valid()
      modifies this
      ensures Valid() && Writing(old(fs), fs, Final(name), value)
      ensures !mutable && old(Final(name) in fs.dir) ==>
        fs.dir == old(fs).dir && fs.data == old(fs).data && forall d :: d in fs.log ==> d in old(fs).log
      ensures r == Done ==> Durable(fs, Final(name), value)
      ensures r == Refused <==> !mutable && old(Final(name) in fs.dir && fs.Read(Final(name)) != Some(Whole(value)))
      ensures r == Refused ==> fs == old(fs)
      ensures Spent(old(steps), steps, 8, r)
    {
      var existing := fs.Read(Final(name));
      if existing == Some(Whole(value)) {
        var alive := Tick();
        if !alive { return Died; }
        fs := fs.SyncFile(Final(name));
        alive := Tick();
        if !alive { return Died; }
        fs := fs.SyncDir();
        return Done;
      }
      if existing.Some? && !mutable { return Refused; }
      r := WriteTemporary(name, value);
      if r == Died { return; }
      r := Expose(old(fs), name, value, mutable);
    }

    /** publication_store.go:239-274: a new, synced temporary file. */
    method WriteTemporary(name: N, value: R) returns (r: Outcome)
      requires Valid()
      modifies this
      ensures Valid() && r != Refused && Writing(old(fs), fs, Final(name), value)
      ensures At(fs.dir, Final(name)) == At(old(fs).dir, Final(name)) && Hidden(old(fs), fs, name)
      ensures r == Done ==> fs.Read(Pending(Final(name))) == Some(Whole(value)) && fs.dir[Pending(Final(name))] in fs.synced
      ensures Spent(old(steps), steps, 4, r)
      ensures r == Done <==> old(steps) >= TemporaryCost(old(fs), name)
      ensures r == Done ==> old(steps) == steps + TemporaryCost(old(fs), name)
    {
      ghost var s := fs;
      var pending := Pending(Final(name));
      if pending in fs.dir {
        var alive := Tick();
        if !alive { return Died; }
        fs := fs.Remove(pending);
        WroteEntry(s, s, fs, name, value);
      }
      r := WriteNew(s, name, value);
    }

    /** publication_store.go:247-274: create, write and sync. */
    method WriteNew(ghost s: FS<N, R>, name: N, value: R) returns (r: Outcome)
      requires Valid() && s.WF() && Sound(s) && Writing(s, fs, Final(name), value)
      requires At(fs.dir, Final(name)) == At(s.dir, Final(name)) && Pending(Final(name)) !in fs.dir && Hidden(s, fs, name)
      modifies this
      ensures Valid() && r != Refused && Writing(s, fs, Final(name), value)
      ensures At(fs.dir, Final(name)) == At(s.dir, Final(name)) && Hidden(s, fs, name)
      ensures r == Done ==> fs.Read(Pending(Final(name))) == Some(Whole(value)) && fs.dir[Pending(Final(name))] in fs.synced
      ensures r == Done <==> old(steps) >= 3
      ensures if r == Done then old(steps) == steps + 3 else steps == 0
    {
      var pending := Pending(Final(name));
      var alive := Tick();
      if !alive { return Died; }
      ghost var m := fs;
      fs := fs.Create(pending);
      WroteNew(s, m, fs, name, value);
      alive := Tick();
      m := fs;
      if !alive {
        if cut { fs := fs.WriteCut(pending); }
        WroteBytes(s, m, fs, name, value, m.dir[pending]);
        return Died;
      }
      fs := fs.Write(pending, value);
      WroteBytes(s, m, fs, name, value, m.dir[pending]);
      alive := Tick();
      if !alive { return Died; }
      m := fs;
      fs := fs.SyncFile(pending);
      WroteBytes(s, m, fs, name, value, m.dir[pending]);
      return Done;
    }

    /** publication_store.go:275-295: give the temporary file its final name. */
    method Expose(ghost s: FS<N, R>, name: N, value: R, mutable: bool) returns (r: Outcome)
      requires Valid() && s.WF() && Sound(s) && Writing(s, fs, Final(name), value)
      requires At(fs.dir, Final(name)) == At(s.dir, Final(name)) && (mutable || Final(name) !in s.dir)
      requires fs.Read(Pending(Final(name))) == Some(Whole(value)) && fs.dir[Pending(Final(name))] in fs.synced
      modifies this
      ensures Valid() && r != Refused && Writing(s, fs, Final(name), value)
      ensures r == Done ==> Durable(fs, Final(name), value)
      ensures Spent(old(steps), steps, 4, r)
      ensures r == Done <==> old(steps) >= if mutable then 2 else 4
      ensures fs.Read(Final(name)) == if old(steps) > 0 then Some(Whole(value)) else old(fs.Read(Final(name)))
      ensures old(steps) == 0 ==> fs == old(fs)
      ensures old(steps) == 1 ==> old(fs.dir) in fs.log
    {
      var pending := Pending(Final(name));
      var alive := Tick();
      if !alive { return Died; }
      ghost var m := fs;
      if mutable {
        fs := fs.Rename(pending, Final(name));
      } else {
        fs := fs.Link(pending, Final(name));
      }
      WroteEntry(s, m, fs, name, value);
      alive := Tick();
      if !alive { return Died; }
      m := fs;
      fs := fs.SyncDir();
      WroteEntry(s, m, fs, name, value);
      if !mutable {
        r := DropTemporary(s, name, value);
      } else {
        r := Done;
      }
    }

    method DropTemporary(ghost s: FS<N, R>, name: N, value: R) returns (r: Outcome)
      requires Valid() && s.WF() && Sound(s) && Writing(s, fs, Final(name), value) && Durable(fs, Final(name), value)
      modifies this
      ensures Valid() && r != Refused && Writing(s, fs, Final(name), value) && Durable(fs, Final(name), value)
      ensures Spent(old(steps), steps, 2, r) && (r == Done <==> old(steps) >= 2)
    {
      assert fs.dir in fs.log;
      var alive := Tick();
      if !alive { return Died; }
      ghost var m := fs;
      fs := fs.Remove(Pending(Final(name)));
      WroteEntry(s, m, fs, name, value);
      alive := Tick();
      if !alive { return Died; }
      m := fs;
      fs := fs.SyncDir();
      WroteEntry(s, m, fs, name, value);
      return Done;
    }

    /**
      Whatever runs, in whatever order and however often it is killed or loses power, no
      final name ever shows an incomplete value, and what was durable stays as it was.
     */
    method Run(script: seq<Action<N, R>>)
      requires Valid()
      modifies this
      ensures Valid()
      ensures forall n, v :: Durable(old(fs), Final(n), v) ==> Durable(fs, Final(n), v)
    {
      for i := 0 to |script|
        invariant Valid()
        invariant forall n, v :: Durable(old(fs), Final(n), v) ==> Durable(fs, Final(n), v)
      {
        ghost var s := fs;
        match script[i] {
          case InstallFile(n, v, k) =>
            steps := k;
            var _ := Install(Final(n), v);
            InstallKeepsDurable(s, fs, n, v);
          case SyncDirectory(k) =>
            steps := k;
            var _ := SyncDir();
          case CleanPendings(names, k) =>
            steps := k;
            var _ := CleanPending(names);
            PendingFrameKeepsDurable(s, fs, set n | n in names :: Pending(Final(n)));
          case CleanTwins(names, k) =>
            steps := k;
            var _ := CleanPendingTwins(names);
            CleaningKeepsDurable(s, fs, Twins(s, names));
          case PowerLoss(keep, harm) =>
            fs := Lose(fs, keep, harm);
            LossKeepsSound(s, fs);
            forall n, v | Durable(s, Final(n), v) ensures Durable(fs, Final(n), v) {
              LossKeepsDurable(s, fs, Final(n), v);
            }
        }
      }
    }
  }

  lemma PendingFrameKeepsDurable<N(!new), R>(s: FS<N, R>, t: FS<N, R>, es: set<Entry<N>>)
    requires s.WF() && t.WF() && Grows(s, t) && Framed(s, t, es)
    requires forall e :: e in es ==> e.Pending?
    ensures forall n, v :: Durable(s, Final(n), v) ==> Durable(t, Final(n), v)
  {
    forall n, v | Durable(s, Final(n), v) ensures Durable(t, Final(n), v) {
      FrameKeepsDurable(s, t, es, Final(n), v);
    }
  }

  /** Once durable, a name survives every later install, of the same name or another. */
  lemma InstallKeepsDurable<N(!new), R>(s: FS<N, R>, t: FS<N, R>, name: N, value: R)
    requires s.WF() && Installing(s, t, Final(name), value)
    ensures forall n, v :: Durable(s, Final(n), v) ==> Durable(t, Final(n), v)
  {
    forall n, v | Durable(s, Final(n), v) ensures Durable(t, Final(n), v) {
      if n == name {
        assert s.dir in s.log;
      } else {
        FrameKeepsDurable(s, t, {Final(name), Pending(Final(name))}, Final(n), v);
      }
    }
  }
}
