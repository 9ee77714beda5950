/**
  internal/trust/bootstrap/client.go and state.go, and internal/discovery/session.go: the
  durable trust state of a client, and the view of the network that a session retains from
  it. What go-tuf downloads and accepts is a parameter: any sequence of cache contents may
  be checkpointed.
 */
module TrustClient {
  import opened Wrappers
  import opened Disk
  import opened Install

  datatype Role = Root | Timestamp | Snapshot | Targets

  datatype Doc = Doc(bytes: nat, wellFormed: bool, expires: int)

  type Metadata = map<Role, Doc>

  datatype Accepted = Accepted(metadata: Metadata, manifest: nat)

  datatype State = State(fingerprint: nat, metadata: Metadata, accepted: Option<Accepted>)

  datatype View = View(metadata: Metadata, manifest: nat, expires: int)

  datatype StateFile = StateJson

  function At(m: Metadata, r: Role): Option<Doc> { if r in m then Some(m[r]) else None }

  /** The two roles that decide who belongs to the network. */
  predicate SameAuthority(a: Metadata, b: Metadata) { At(a, Root) == At(b, Root) && At(a, Targets) == At(b, Targets) }

  /** state.go:184 */
  predicate CheckMetadata(m: Metadata) { Root in m && forall r :: r in m ==> m[r].wellFormed }

  predicate Sane(st: State, fingerprint: nat) {
    && st.fingerprint == fingerprint && CheckMetadata(st.metadata)
    && (st.accepted.Some? ==> CheckMetadata(st.accepted.value.metadata) &&
                              SameAuthority(st.accepted.value.metadata, st.metadata))
  }

  /** What any process may find on disk, now or after any power loss. */
  ghost predicate Trusted(s: FS<StateFile, State>, fingerprint: nat) {
    && s.WF() && Sound(s)
    && forall d :: d in s.log && Final(StateJson) in d ==> Sane(s.data[d[Final(StateJson)]].value, fingerprint)
  }

  function Visible(s: FS<StateFile, State>): Option<State>
    requires s.WF()
  {
    if Final(StateJson) in s.dir && s.data[s.dir[Final(StateJson)]].Whole? then Some(s.data[s.dir[Final(StateJson)]].value)
    else None
  }

  function Deadline(m: Metadata): (t: int)
    requires Root in m && Timestamp in m && Snapshot in m && Targets in m
    ensures forall r :: r in {Root, Timestamp, Snapshot, Targets} ==> t <= m[r].expires
    ensures exists r :: r in {Root, Timestamp, Snapshot, Targets} && t == m[r].expires
  {
    var a := if m[Timestamp].expires < m[Root].expires then m[Timestamp].expires else m[Root].expires;
    var b := if m[Snapshot].expires < a then m[Snapshot].expires else a;
    if m[Targets].expires < b then m[Targets].expires else b
  }

  /** client.go:293, given whether the exact documents authenticate the manifest. */
  function Verify(a: Accepted, authentic: (Metadata, nat) -> bool, now: int): (v: Option<View>)
    ensures v.Some? ==> v.value.metadata == a.metadata && v.value.manifest == a.manifest && now < v.value.expires
    ensures v.Some? ==> authentic(a.metadata, a.manifest)
  {
    if Root in a.metadata && Timestamp in a.metadata && Snapshot in a.metadata && Targets in a.metadata &&
       authentic(a.metadata, a.manifest) && now < Deadline(a.metadata)
    then Some(View(a.metadata, a.manifest, Deadline(a.metadata)))
    else None
  }

  /** client.go:129 on the state it loads. */
  function Current(st: Option<State>, authentic: (Metadata, nat) -> bool, now: int): (v: Option<View>)
    ensures v.Some? ==> st.Some? && SameAuthority(v.value.metadata, st.value.metadata)
  {
    if st.None? || st.value.accepted.None? || !SameAuthority(st.value.accepted.value.metadata, st.value.metadata) then None
    else Verify(st.value.accepted.value, authentic, now)
  }

  /** The state still accepts a manifest, under the same root and targets as the view. */
  ghost predicate Supports(st: Option<State>, v: View) {
    st.Some? && st.value.accepted.Some? && SameAuthority(v.metadata, st.value.metadata)
  }

  /** How many file operations a save takes; the last one makes its rename durable. */
  function SaveCost(s: FS<StateFile, State>): nat { TemporaryCost(s, StateJson) + 2 }

  /**
    The one case in which the session does not hear of a revocation: it holds a view, the
    checkpoint is well formed and changes root or targets, and saving it fails in its very
    last operation, after the rename.
   */
  predicate Unheard(view: Option<View>, st: State, files: Metadata, s: FS<StateFile, State>, steps: nat) {
    view.Some? && CheckMetadata(files) && !SameAuthority(files, st.metadata) && steps + 1 == SaveCost(s)
  }

  /** client.go:278-283: what a checkpoint of these files makes of the state. */
  function Checkpointed(st: State, files: Metadata): State {
    st.(metadata := files, accepted := if SameAuthority(files, st.metadata) then st.accepted else None)
  }

  lemma CheckpointSane(st: State, files: Metadata, fingerprint: nat)
    requires Sane(st, fingerprint) && CheckMetadata(files)
    ensures Sane(Checkpointed(st, files), fingerprint)
  {
  }

  lemma SaveTrusted(s: FS<StateFile, State>, t: FS<StateFile, State>, st: State, fingerprint: nat)
    requires Trusted(s, fingerprint) && Writing(s, t, Final(StateJson), st) && Sound(t) && Sane(st, fingerprint)
    ensures Trusted(t, fingerprint)
    ensures Visible(t) == Visible(s) || Visible(t) == Some(st)
  {
    assert s.dir in s.log && t.dir in t.log;
    assert Shows(s, t, t.dir, Final(StateJson), st);
  }

  /** No process and no power loss finds a state here. */
  ghost predicate Never(s: FS<StateFile, State>) { s.WF() && forall d :: d in s.log ==> Final(StateJson) !in d }

  /** Some power loss leaves the directory without a state. */
  ghost predicate MayVanish(s: FS<StateFile, State>)
    requires s.WF()
  {
    exists t :: Loss(s, t) && Never(t)
  }

  lemma CanVanish(s: FS<StateFile, State>, t: FS<StateFile, State>)
    requires Never(s) && t.WF() && exists d :: d in t.log && Final(StateJson) !in d
    ensures MayVanish(t)
  {
    var d :| d in t.log && Final(StateJson) !in d;
    var i :| 0 <= i < |t.log| && t.log[i] == d;
    var u := Lose(t, map[Final(StateJson) := i], Harm({}, {}));
    assert Disk.At(u.dir, Final(StateJson)) == Disk.At(t.log[i], Final(StateJson));
  }

  lemma DurableStays(s: FS<StateFile, State>, st: State)
    requires s.WF() && Durable(s, Final(StateJson), st)
    ensures !MayVanish(s)
  {
    forall t | Loss(s, t) ensures !Never(t) {
      LossKeepsDurable(s, t, Final(StateJson), st);
      assert t.dir in t.log;
    }
  }

  lemma NeverVisible(s: FS<StateFile, State>)
    requires Never(s)
    ensures Visible(s) == None
    ensures forall t :: Loss(s, t) ==> Never(t)
  {
    assert s.dir in s.log;
    forall t | Loss(s, t) ensures Never(t) {
      assert Recalls(s.log, t.dir, Final(StateJson));
    }
  }

  lemma LossTrusted(s: FS<StateFile, State>, t: FS<StateFile, State>, fingerprint: nat)
    requires Trusted(s, fingerprint) && Loss(s, t)
    ensures Trusted(t, fingerprint)
  {
    LossKeepsSound(s, t);
    if Final(StateJson) in t.dir {
      assert Recalls(s.log, t.dir, Final(StateJson));
    }
  }

  class Client {
    const fingerprint: nat
    const authentic: (Metadata, nat) -> bool
    const store: Store<StateFile, State>
    var view: Option<View> // the session's retained view
    var created: bool      // whether the state directory has been created

    ghost predicate Valid() reads this, store { Trusted(store.fs, fingerprint) }

    /** A retained view is one that the state on disk supports. */
    ghost predicate Coherent()
      reads this, store
      requires Valid()
    {
      view.Some? ==> Supports(Visible(store.fs), view.value)
    }

    constructor (fingerprint: nat, authentic: (Metadata, nat) -> bool)
      ensures Valid() && Coherent() && view == None && !created && fresh(store) && Never(store.fs) && store.fs.dir == map[]
      ensures this.fingerprint == fingerprint && this.authentic == authentic
    {
      this.fingerprint, this.authentic, view, created := fingerprint, authentic, None, false;
      store := new Store();
    }

    /** state.go:196 - write, sync, rename, sync: the old state or the new one, never anything else. */
    method Save(st: State) returns (ok: bool)
      requires Valid() && Sane(st, fingerprint)
      modifies store
      ensures Valid()
      ensures ok ==> Visible(store.fs) == Some(st) && Durable(store.fs, Final(StateJson), st)
      ensures Visible(store.fs) == old(Visible(store.fs)) || Visible(store.fs) == Some(st)
      ensures Spent(old(store.steps), store.steps, 8, if ok then Done else Died)
      ensures ok <==> old(store.steps) >= SaveCost(old(store.fs))
      ensures Visible(store.fs) == if old(store.steps) + 1 >= SaveCost(old(store.fs)) then Some(st) else old(Visible(store.fs))
      ensures old(Never(store.fs)) ==> (Never(store.fs) <==> old(store.steps) + 1 < SaveCost(old(store.fs)))
      ensures old(Never(store.fs)) ==> (MayVanish(store.fs) <==> !ok)
    {
      ghost var s := store.fs;
      assert s.dir in s.log;
      var r := store.WriteTemporary(StateJson, st);
      SaveTrusted(s, store.fs, st, fingerprint);
      if r != Done {
        if Never(s) { CanVanish(s, store.fs); }
        return false;
      }
      r := store.Expose(s, StateJson, st, true);
      SaveTrusted(s, store.fs, st, fingerprint);
      assert store.fs.dir in store.fs.log;
      ok := r == Done;
      if Never(s) {
        if ok { DurableStays(store.fs, st); } else { CanVanish(s, store.fs); }
      }
    }

    /**
      client.go:189-200 and 258-291. A checkpoint that changes root or targets drops the
      accepted manifest and, once it is durable, the session's view; a view that the disk no
      longer supports is left exactly if the save failed after its rename.
     */
    method Checkpoint(st: State, files: Metadata) returns (ok: bool, next: State)
      requires Valid() && Visible(store.fs) == Some(st) && Sane(st, fingerprint)
      modifies this`view, store
      ensures Valid()
      ensures ok ==> next == Checkpointed(st, files) && Sane(next, fingerprint) && Visible(store.fs) == Some(next)
      ensures ok ==> view == if st.accepted.Some? && next.accepted.None? then None else old(view)
      ensures ok && old(Coherent()) ==> Coherent()
      ensures !ok ==> view == old(view) && next == st
      ensures Visible(store.fs) == Some(st) || Visible(store.fs) == Some(Checkpointed(st, files))
      ensures ok <==> files == st.metadata || (CheckMetadata(files) && old(store.steps) >= SaveCost(old(store.fs)))
      ensures !ok ==> !CheckMetadata(files) || store.steps == 0
      ensures old(store.steps) <= store.steps + 8
      ensures old(Coherent()) ==> (Coherent() <==> !Unheard(old(view), st, files, old(store.fs), old(store.steps)))
    {
      if files == st.metadata { return true, st; }
      if !CheckMetadata(files) { return false, st; }
      next := Checkpointed(st, files);
      CheckpointSane(st, files, fingerprint);
      ok := Save(next);
      if !ok { return false, st; }
      if st.accepted.Some? && next.accepted.None? { view := None; }
    }

    /**
      client.go:156 - `fetched` are the cache contents at each checkpoint, before every request
      and at the end; `complete` says whether the updater finished and found its target.
     */
    method Refresh(fetched: seq<Metadata>, complete: bool, manifest: nat, now: int) returns (v: Option<View>)
      requires Valid()
      modifies this`view, store
      ensures Valid()
      ensures v.Some? ==> Supports(Visible(store.fs), v.value)
      ensures v.Some? && old(Coherent()) ==> Coherent()
      ensures v.Some? ==> v == Current(Visible(store.fs), authentic, now)
      ensures view.Some? ==> view == old(view)
      ensures old(Visible(store.fs)).None? ==> v.None? && store.fs == old(store.fs) && view == old(view)
      ensures v.Some? ==> Accepts(old(Visible(store.fs)), fetched, complete, manifest, authentic, now)
      ensures v.Some? ==> Visible(store.fs) == Some(Refreshed(old(Visible(store.fs)).value, fetched, manifest))
      ensures v.None? && Accepts(old(Visible(store.fs)), fetched, complete, manifest, authentic, now) ==>
        old(store.steps) <= 8 * |fetched| + 8
    {
      var loaded := Load();
      if loaded.None? { return None; }
      var st := loaded.value;
      for i := 0 to |fetched|
        invariant Valid() && Visible(store.fs) == Some(st) && Sane(st, fingerprint)
        invariant st == After(loaded.value, fetched, i) && old(store.steps) <= store.steps + 8 * i
        invariant forall k :: 0 <= k < i ==> CheckMetadata(fetched[k])
        invariant view.Some? ==> view == old(view)
        invariant old(Coherent()) ==> Coherent()
      {
        var ok;
        ok, st := Checkpoint(st, fetched[i]);
        if !ok { return None; }
      }
      if !complete { return None; }
      var record := Accepted(st.metadata, manifest);
      v := Verify(record, authentic, now);
      if v.None? { return; }
      var ok := Save(st.(accepted := Some(record)));
      if !ok { return None; }
    }

    /** state.go:145 */
    method Load() returns (st: Option<State>)
      requires Valid()
      ensures st == Visible(store.fs)
      ensures st.Some? ==> Sane(st.value, fingerprint)
    {
      assert store.fs.dir in store.fs.log;
      st := Visible(store.fs);
    }

    /** session.go:96 - a refresh that fails falls back to what the disk still supports, or to nothing. */
    method SessionRefresh(fetched: seq<Metadata>, complete: bool, manifest: nat, now: int)
      requires Valid()
      modifies this`view, store
      ensures Valid() && Coherent()
      ensures view == Current(Visible(store.fs), authentic, now)
      ensures old(Visible(store.fs)).None? ==> store.fs == old(store.fs)
      ensures Accepts(old(Visible(store.fs)), fetched, complete, manifest, authentic, now) &&
              old(store.steps) > 8 * |fetched| + 8 ==>
        view.Some? && Visible(store.fs) == Some(Refreshed(old(Visible(store.fs)).value, fetched, manifest))
    {
      var v := Refresh(fetched, complete, manifest, now);
      if v.None? {
        var st := Load();
        v := Current(st, authentic, now);
      }
      view := v;
    }

    /** session.go:83 - never waits on a refresh, and checks expiry itself. */
    method SessionCurrent(now: int) returns (v: Option<View>)
      requires Valid() && Coherent()
      ensures v.Some? ==> now < v.value.expires && Supports(Visible(store.fs), v.value)
      ensures v.None? <==> view.None? || now >= view.value.expires
    {
      if view.None? || now >= view.value.expires { return None; }
      v := view;
    }

    /**
      session.go:38 and client.go:108-121: a state is written only into a directory that this
      call creates; one that exists without a state is refused.
     */
    method Open(initial: Doc, now: int) returns (ok: bool)
      requires Valid() && initial.wellFormed
      modifies this`view, this`created, store
      ensures Valid() && Coherent() && created
      ensures ok <==> if old(created) then old(Visible(store.fs)).Some? else old(store.steps) >= SaveCost(old(store.fs))
      ensures old(created) ==> store.fs == old(store.fs)
      ensures !old(created) && old(Never(store.fs)) ==>
        && (Never(store.fs) <==> old(store.steps) + 1 < SaveCost(old(store.fs)))
        && (MayVanish(store.fs) <==> !ok)
      ensures !old(created) && old(store.steps) + 1 >= SaveCost(old(store.fs)) ==>
        Visible(store.fs) == Some(State(fingerprint, map[Root := initial], None))
      ensures !old(created) && old(store.steps) + 1 < SaveCost(old(store.fs)) ==> Visible(store.fs) == old(Visible(store.fs))
      ensures view == if ok then Current(Visible(store.fs), authentic, now) else None
    {
      view := None;
      if !created {
        created := true;
        ok := Save(State(fingerprint, map[Root := initial], None));
        if !ok { return; }
      }
      var st := Load();
      if st.None? { return false; }
      view := Current(st, authentic, now);
      ok := true;
    }

    /**
      Refreshes that fail at any file operation, restarts and power losses, in any order. A
      directory that was left without a state stays without one, and without a view.
     */
    method Run(script: seq<Event>)
      requires Valid() && Coherent() && forall i :: 0 <= i < |script| && script[i].Restart? ==> script[i].initial.wellFormed
      modifies this`view, this`created, store
      ensures Valid() && Coherent()
      ensures old(created) ==> created
      ensures old(created && Never(store.fs) && view.None?) ==> Never(store.fs) && view.None?
      ensures Visible(store.fs).Some? && Visible(store.fs).value.accepted.Some? ==>
        SameAuthority(Visible(store.fs).value.accepted.value.metadata, Visible(store.fs).value.metadata)
    {
      for i := 0 to |script|
        invariant Valid() && Coherent() && (old(created) ==> created)
        invariant old(created && Never(store.fs) && view.None?) ==> created && Never(store.fs) && view.None?
      {
        if Never(store.fs) { NeverVisible(store.fs); }
        match script[i] {
          case DoRefresh(fetched, complete, manifest, now, steps) =>
            store.steps := steps;
            SessionRefresh(fetched, complete, manifest, now);
          case Restart(initial, now, steps) =>
            store.steps := steps;
            var _ := Open(initial, now);
          case PowerLoss(keep, harm) =>
            ghost var s := store.fs;
            store.fs := Lose(store.fs, keep, harm);
            LossTrusted(s, store.fs, fingerprint);
            view := None;
        }
      }
      assert store.fs.dir in store.fs.log;
    }
  }

  datatype Event =
    | DoRefresh(fetched: seq<Metadata>, complete: bool, manifest: nat, now: int, steps: nat)
    | Restart(initial: Doc, now: int, steps: nat)
    | PowerLoss(keep: map<Entry<StateFile>, nat>, harm: Harm)

  /** Once revoked, no number of further checkpoints brings a view back: only a full refresh does. */
  lemma {:induction false} RevokedStaysRevoked(st: State, fetched: seq<Metadata>, i: nat, authentic: (Metadata, nat) -> bool,
                                               now: int)
    requires i <= |fetched| && st.accepted.None?
    ensures Current(Some(After(st, fetched, i)), authentic, now) == None
  {
    if i > 0 {
      RevokedStaysRevoked(st, fetched, i - 1, authentic, now);
      StillRevoked(st, fetched, i - 1);
    }
  }

  lemma {:induction false} StillRevoked(st: State, fetched: seq<Metadata>, i: nat)
    requires i <= |fetched| && st.accepted.None?
    ensures After(st, fetched, i).accepted.None?
  {
    if i > 0 { StillRevoked(st, fetched, i - 1); }
  }

  /** The state after the first `i` checkpoints. */
  function After(st: State, fetched: seq<Metadata>, i: nat): State
    requires i <= |fetched|
  {
    if i == 0 then st else Checkpointed(After(st, fetched, i - 1), fetched[i - 1])
  }

  /** A refresh that runs to its end: the checkpoints, then the manifest under the metadata they left. */
  function Refreshed(st: State, fetched: seq<Metadata>, manifest: nat): State {
    var last := After(st, fetched, |fetched|);
    last.(accepted := Some(Accepted(last.metadata, manifest)))
  }

  /** Exactly when a refresh accepts a manifest, if no file operation fails. */
  predicate Accepts(st: Option<State>, fetched: seq<Metadata>, complete: bool, manifest: nat,
                    authentic: (Metadata, nat) -> bool, now: int) {
    && st.Some? && (forall i :: 0 <= i < |fetched| ==> CheckMetadata(fetched[i])) && complete
    && Verify(Refreshed(st.value, fetched, manifest).accepted.value, authentic, now).Some?
  }

  /** The accepted manifest survives a refresh's checkpoints exactly while root and targets stay what they were. */
  lemma {:induction false} AcceptedSurvives(st: State, fetched: seq<Metadata>, i: nat)
    requires i <= |fetched| && st.accepted.Some?
    ensures After(st, fetched, i).accepted == st.accepted || After(st, fetched, i).accepted == None
    ensures After(st, fetched, i).accepted == st.accepted <==>
      forall k :: 0 <= k < i ==> SameAuthority(fetched[k], st.metadata)
    ensures After(st, fetched, i).accepted.Some? ==> SameAuthority(After(st, fetched, i).metadata, st.metadata)
  {
    if i > 0 {
      AcceptedSurvives(st, fetched, i - 1);
      var p := After(st, fetched, i - 1);
      if p.accepted.None? {
        StillRevoked(p, [fetched[i - 1]], 1);
      }
    }
  }

  /**
    The gap, run: a client that has accepted `files` fails to save a checkpoint of `changed`
    in the last file operation. The disk no longer accepts anything, and the session still
    offers its view.
   */
  method UnheardRevocation(fingerprint: nat, authentic: (Metadata, nat) -> bool, files: Metadata, manifest: nat, now: int,
                           changed: Metadata)
    returns (c: Client, ok: bool)
    requires Root in files && Timestamp in files && Snapshot in files && Targets in files && CheckMetadata(files)
    requires authentic(files, manifest) && now < Deadline(files)
    requires CheckMetadata(changed) && !SameAuthority(changed, files)
    ensures fresh(c) && c.Valid() && !ok
    ensures c.view == Some(View(files, manifest, Deadline(files))) && !c.Coherent()
    ensures Visible(c.store.fs).Some? && Current(Visible(c.store.fs), authentic, now) == None
  {
    c := NewSession(fingerprint, authentic, files, manifest, now);
    var st := c.Load();
    c.store.steps := SaveCost(c.store.fs) - 1;
    var next;
    ok, next := c.Checkpoint(st.value, changed);
  }

  /** A new client whose first refresh accepts `files`. */
  method NewSession(fingerprint: nat, authentic: (Metadata, nat) -> bool, files: Metadata, manifest: nat, now: int)
    returns (c: Client)
    requires Root in files && Timestamp in files && Snapshot in files && Targets in files && CheckMetadata(files)
    requires authentic(files, manifest) && now < Deadline(files)
    ensures fresh(c) && fresh(c.store) && c.Valid() && c.Coherent() && c.authentic == authentic
    ensures c.view == Some(View(files, manifest, Deadline(files)))
    ensures Visible(c.store.fs) == Some(State(fingerprint, files, Some(Accepted(files, manifest))))
  {
    c := new Client(fingerprint, authentic);
    c.store.steps := SaveCost(c.store.fs);
    var ok := c.Open(files[Root], now);
    c.store.steps := 17;
    c.SessionRefresh([files], true, manifest, now);
    assert After(State(fingerprint, map[Root := files[Root]], None), [files], 0).fingerprint == fingerprint;
    assert After(State(fingerprint, map[Root := files[Root]], None), [files], 1).metadata == files;
  }

  /**
    A client that dies while it opens its state directory for the first time, and whatever is
    tried afterwards. If it dies before the rename, there is never a state and never a view; if
    it dies after the rename and before the sync, the next opening succeeds, and a power loss
    until then brings about the first case.
   */
  method Stillborn(fingerprint: nat, authentic: (Metadata, nat) -> bool, initial: Doc, now: int, steps: nat,
                   script: seq<Event>)
    returns (c: Client, ok: bool)
    requires initial.wellFormed && forall i :: 0 <= i < |script| && script[i].Restart? ==> script[i].initial.wellFormed
    requires steps < 5
    ensures fresh(c) && c.Valid() && c.created
    ensures steps < 4 ==> !ok && Never(c.store.fs) && c.view == None
    ensures steps == 4 ==> ok && MayVanish(c.store.fs)
  {
    c := new Client(fingerprint, authentic);
    c.store.steps := steps;
    ok := c.Open(initial, now);
    assert !ok;
    if steps < 4 {
      c.Run(script);
      NeverVisible(c.store.fs);
      ok := c.Open(initial, now);
    } else {
      ok := c.Open(initial, now);
    }
  }
}
