/**
  internal/omega/rotation_store.go: the two files of a prepared rotation - the intent, which is
  durable before anything is signed, and the signed record.
 */
module Preparation {
  import opened Wrappers
  import opened Disk
  import opened Install
  import M = RootMeta
  import S = Successor
  import T = Rotation

  datatype File = IntentFile(v: int) | RecordFile(v: int)

  datatype Data = IntentData(intent: T.Intent) | RecordData(rec: T.Record)

  type State = FS<File, Data>

  /** The signed record that is there, committed or not; an incomplete write does not count. */
  function Candidate(s: State, v: int): Option<Content<Data>>
    requires s.WF()
  {
    if Final(RecordFile(v)) in s.dir then s.Read(Final(RecordFile(v)))
    else if s.Read(Pending(Final(RecordFile(v)))) == Some(Torn) then None
    else s.Read(Pending(Final(RecordFile(v))))
  }

  /** What is there is a record that readers accept. */
  predicate Usable(c: Content<Data>, fp: int, previous: M.Root, intent: T.Intent) {
    c.Whole? && c.value.RecordData? && T.RecordValid(c.value.rec, fp, previous, intent)
  }

  /** Enough keys to sign the successor an intent describes. */
  predicate Quorum(intent: T.Intent, current: seq<M.Key>, successors: seq<M.Key>) {
    |current| >= 2 && (intent.schema == 3 ==> |successors| >= 2)
  }

  /** Why a preparation is refused: another intent is recorded, or what is signed is no good, or it cannot be signed. */
  predicate RefusesPreparation(s: State, v: int, fp: int, previous: M.Root, intent: T.Intent, current: seq<M.Key>,
                               successors: seq<M.Key>)
    requires s.WF()
  {
    || (Final(IntentFile(v)) in s.dir && s.Read(Final(IntentFile(v))) != Some(Whole(IntentData(intent))))
    || (if Candidate(s, v).Some? then !Usable(Candidate(s, v).value, fp, previous, intent)
        else !Quorum(intent, current, successors))
  }

  ghost predicate KeepsDurable(s: State, t: State)
    requires s.WF() && t.WF()
  {
    forall n, v :: Durable(s, Final(n), v) ==> Durable(t, Final(n), v)
  }

  /** Installing a file and syncing the directory; the other file of the rotation stays as it is. */
  method Keep(state: Store<File, Data>, n: File, value: Data) returns (r: Outcome)
    requires state.Valid()
    modifies state
    ensures state.Valid() && KeepsDurable(old(state.fs), state.fs)
    ensures r == Refused <==> old(Final(n) in state.fs.dir && state.fs.Read(Final(n)) != Some(Whole(value)))
    ensures r == Done ==> Durable(state.fs, Final(n), value)
    ensures forall k :: k != n ==> At(state.fs.dir, Final(k)) == At(old(state.fs).dir, Final(k)) &&
                                   At(state.fs.dir, Pending(Final(k))) == At(old(state.fs).dir, Pending(Final(k)))
    ensures Grows(old(state.fs), state.fs)
    ensures Spent(old(state.steps), state.steps, 9, r)
  {
    ghost var s := state.fs;
    r := state.Install(Final(n), value);
    InstallKeepsDurable(s, state.fs, n, value);
    forall k | k != n
      ensures At(state.fs.dir, Final(k)) == At(s.dir, Final(k)) && At(state.fs.dir, Pending(Final(k))) == At(s.dir, Pending(Final(k)))
    {
      assert Final(k) !in {Final(n), Pending(Final(n))} && Pending(Final(k)) !in {Final(n), Pending(Final(n))};
    }
    if r == Done {
      r := state.SyncDir();
      assert state.fs.dir in state.fs.log;
    }
  }

  lemma SameCandidate(s: State, t: State, v: int)
    requires s.WF() && t.WF() && Grows(s, t) && At(t.dir, Final(RecordFile(v))) == At(s.dir, Final(RecordFile(v)))
    requires At(t.dir, Pending(Final(RecordFile(v)))) == At(s.dir, Pending(Final(RecordFile(v))))
    ensures Candidate(t, v) == Candidate(s, v)
  {
  }

  /**
    rotation_store.go:109-222 - record the intent, then the signed successor: the one that is
    there, however often this is killed and run again, or else a new one. What is committed is
    what every later reader accepts, classified as the role the intent reserved.
   */
  method FinishRotation(state: Store<File, Data>, previous: M.Root, intent: T.Intent, fp: int, current: seq<M.Key>,
                        successors: seq<M.Key>, listing: seq<Entry<File>>)
    returns (r: Outcome, rec: Option<T.Record>)
    requires state.Valid() && M.WellShaped(previous.signed) && M.Delegates(previous.signed, M.RootRole, previous.sigs)
    requires intent.Valid(fp, previous, previous.signed.version + 1)
    requires T.RootSigners(previous.signed, current)
    requires forall k :: k in successors ==> exists n :: n in intent.rootKeys && intent.rootKeys[n] == k
    requires forall i, j :: 0 <= i < j < |successors| ==> successors[i] != successors[j]
    modifies state
    ensures state.Valid() && KeepsDurable(old(state.fs), state.fs)
    ensures var v := previous.signed.version + 1;
      && (r == Refused ==> RefusesPreparation(old(state.fs), v, fp, previous, intent, current, successors))
      && (r == Done ==> !RefusesPreparation(old(state.fs), v, fp, previous, intent, current, successors))
    ensures r == Done ==> rec.Some? && Committed(state.fs, previous, intent, fp, rec.value)
    ensures r == Done && Candidate(old(state.fs), previous.signed.version + 1).Some? ==>
      Candidate(old(state.fs), previous.signed.version + 1) == Some(Whole(RecordData(rec.value)))
    ensures Spent(old(state.steps), state.steps, 4 * |listing| + 18, r)
  {
    var v := previous.signed.version + 1;
    ghost var s := state.fs;
    rec := None;
    r := Keep(state, IntentFile(v), IntentData(intent));
    if r != Done { return; }
    SameCandidate(s, state.fs, v);
    r, rec := Sign(state, previous, intent, fp, current, successors);
    if r != Done { return; }
    ghost var t := state.fs;
    r := state.CleanPendingTwins(listing);
    CleaningKeepsDurable(t, state.fs, Twins(t, listing));
  }

  /** The intent and the record are durable, and reading them back is accepted. */
  ghost predicate Committed(s: State, previous: M.Root, intent: T.Intent, fp: int, rec: T.Record)
    requires s.WF()
  {
    var v := previous.signed.version + 1;
    && Durable(s, Final(IntentFile(v)), IntentData(intent)) && Durable(s, Final(RecordFile(v)), RecordData(rec))
    && Acceptable(previous, intent, fp, rec)
  }

  /** rotation_store.go:118-222: reuse the exact bytes that are there, or sign. */
  method Sign(state: Store<File, Data>, previous: M.Root, intent: T.Intent, fp: int, current: seq<M.Key>,
              successors: seq<M.Key>)
    returns (r: Outcome, rec: Option<T.Record>)
    requires state.Valid() && M.WellShaped(previous.signed) && M.Delegates(previous.signed, M.RootRole, previous.sigs)
    requires intent.Valid(fp, previous, previous.signed.version + 1)
    requires T.RootSigners(previous.signed, current)
    requires forall k :: k in successors ==> exists n :: n in intent.rootKeys && intent.rootKeys[n] == k
    requires forall i, j :: 0 <= i < j < |successors| ==> successors[i] != successors[j]
    requires Durable(state.fs, Final(IntentFile(previous.signed.version + 1)), IntentData(intent))
    modifies state
    ensures state.Valid() && KeepsDurable(old(state.fs), state.fs)
    ensures var c := Candidate(old(state.fs), previous.signed.version + 1);
      && (r == Refused <==> if c.Some? then !Usable(c.value, fp, previous, intent) else !Quorum(intent, current, successors))
      && (r == Done && c.Some? ==> rec.Some? && c == Some(Whole(RecordData(rec.value))))
    ensures r == Done ==> rec.Some? && Committed(state.fs, previous, intent, fp, rec.value)
    ensures Spent(old(state.steps), state.steps, 9, r)
  {
    var v := previous.signed.version + 1;
    rec := Choose(state.fs, previous, intent, fp, current, successors);
    if rec.None? { return Refused, None; }
    r := Keep(state, RecordFile(v), RecordData(rec.value));
    if r != Done { return; }
    ReadsBack(state.fs, previous, intent, fp, rec.value);
    if !ReadBack(state.fs, previous, fp, v) { return Refused, rec; }
  }

  /** rotation_store.go:118-207: the signed record that is there, or a new one. */
  method Choose(s: State, previous: M.Root, intent: T.Intent, fp: int, current: seq<M.Key>, successors: seq<M.Key>)
    returns (rec: Option<T.Record>)
    requires s.WF() && M.WellShaped(previous.signed) && M.Delegates(previous.signed, M.RootRole, previous.sigs)
    requires intent.Valid(fp, previous, previous.signed.version + 1)
    requires T.RootSigners(previous.signed, current)
    requires forall k :: k in successors ==> exists n :: n in intent.rootKeys && intent.rootKeys[n] == k
    requires forall i, j :: 0 <= i < j < |successors| ==> successors[i] != successors[j]
    ensures var c := Candidate(s, previous.signed.version + 1);
      && (rec.Some? <==> if c.Some? then Usable(c.value, fp, previous, intent) else Quorum(intent, current, successors))
      && (rec.Some? && c.Some? ==> c == Some(Whole(RecordData(rec.value))))
    ensures rec.Some? ==> Acceptable(previous, intent, fp, rec.value)
  {
    var v := previous.signed.version + 1;
    var candidate := Candidate(s, v);
    if candidate.None? {
      rec := T.FinishRotation(previous, intent, fp, current, successors);
    } else if Usable(candidate.value, fp, previous, intent) {
      rec := Some(candidate.value.value.rec);
      T.RotationStep(rec.value, fp, previous, v);
    } else {
      rec := None;
    }
  }

  ghost predicate Acceptable(previous: M.Root, intent: T.Intent, fp: int, rec: T.Record) {
    && rec.intent == intent && T.ReadRotation(rec, fp, previous, previous.signed.version + 1)
    && S.SuccessorGroup(previous.signed, rec.root.signed) == Some(intent.Group())
  }

  lemma ReadsBack(s: State, previous: M.Root, intent: T.Intent, fp: int, rec: T.Record)
    requires s.WF() && Committed(s, previous, intent, fp, rec)
    ensures ReadBack(s, previous, fp, previous.signed.version + 1)
  {
    assert s.dir in s.log;
  }

  /** rotation_roots.go:194 on the two files. */
  predicate ReadBack(s: State, previous: M.Root, fp: int, v: int)
    requires s.WF()
  {
    var i, c := s.Read(Final(IntentFile(v))), s.Read(Final(RecordFile(v)));
    && i.Some? && i.value.Whole? && i.value.value.IntentData? && c.Some? && c.value.Whole? && c.value.value.RecordData?
    && c.value.value.rec.intent == i.value.value.intent && T.ReadRotation(c.value.value.rec, fp, previous, v)
  }
}
