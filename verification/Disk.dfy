/**
  A directory of a local filesystem, as the journal code relies on it: names point to
  inodes, hard links share an inode, and neither file contents nor directory entries are
  on stable storage until they are synced.
 */
module Disk {
  import opened Wrappers

  /** `Final(n)` is a plain file name; `Pending(e)` is that name with ".pending" appended. */
  datatype Entry<N> = Final(base: N) | Pending(of: Entry<N>)

  /**
    The bytes of a file: a completely written value, an incomplete write, or one that lacks
    nothing but the newline every record ends with. The last is complete JSON, but no
    reader takes it for the record.
   */
  datatype Content<R> = Whole(value: R) | Cut | Torn

  type Dir<N(==)> = map<Entry<N>, nat>

  datatype FS<N(==), R> = FS(
    dir: Dir<N>,              // the directory as running processes see it
    log: seq<Dir<N>>,         // every directory state since the last directory sync
    data: map<nat, Content<R>>, // inode contents as running processes see them
    synced: set<nat>,         // inodes whose contents are on stable storage
    next: nat)                // every inode number from here on is unused
  {
    predicate WF() {
      && dir in log && log[|log| - 1] == dir
      && (forall d, e :: d in log && e in d ==> d[e] in data)
      && synced <= data.Keys
      && (forall i :: i in data ==> i < next)
    }

    function Read(e: Entry<N>): (c: Option<Content<R>>)
      requires WF()
    {
      if e in dir then Some(data[dir[e]]) else None
    }

    /** `O_CREATE|O_EXCL`: a new empty file. An empty file is an incomplete write. */
    function Create(e: Entry<N>): (s: FS<N, R>)
      requires WF() && e !in dir
      ensures s.WF()
    {
      var d := dir[e := next];
      FS(d, log + [d], data[next := Torn], synced, next + 1)
    }

    function Write(e: Entry<N>, value: R): (s: FS<N, R>)
      requires WF() && e in dir
      ensures s.WF()
    {
      this.(data := data[dir[e] := Whole(value)], synced := synced - {dir[e]})
    }

    /** A write that stops before its last byte. */
    function WriteCut(e: Entry<N>): (s: FS<N, R>)
      requires WF() && e in dir
      ensures s.WF()
    {
      this.(data := data[dir[e] := Cut], synced := synced - {dir[e]})
    }

    function SyncFile(e: Entry<N>): (s: FS<N, R>)
      requires WF() && e in dir
      ensures s.WF()
    {
      this.(synced := synced + {dir[e]})
    }

    function Link(source: Entry<N>, target: Entry<N>): (s: FS<N, R>)
      requires WF() && source in dir && target !in dir
      ensures s.WF()
    {
      var d := dir[target := dir[source]];
      this.(dir := d, log := log + [d])
    }

    function Remove(e: Entry<N>): (s: FS<N, R>)
      requires WF()
      ensures s.WF()
    {
      var d := dir - {e};
      this.(dir := d, log := log + [d])
    }

    function Rename(source: Entry<N>, target: Entry<N>): (s: FS<N, R>)
      requires WF() && source in dir && source != target
      ensures s.WF()
    {
      var d := (dir - {source})[target := dir[source]];
      this.(dir := d, log := log + [d])
    }

    function SyncDir(): (s: FS<N, R>)
      requires WF()
      ensures s.WF()
    {
      this.(log := [dir])
    }
  }

  function At<N(==)>(d: Dir<N>, e: Entry<N>): Option<nat> {
    if e in d then Some(d[e]) else None
  }

  /** `d` gives `e` a value that it had in some directory of `log`. */
  ghost predicate Recalls<N>(log: seq<Dir<N>>, d: Dir<N>, e: Entry<N>) {
    exists b :: b in log && At(d, e) == At(b, e)
  }

  /**
    A power loss. Each directory entry falls back, independently of every other entry, to
    some value it had since the last directory sync, and unsynced contents may be torn or cut.
   */
  ghost predicate Loss<N(!new), R>(s: FS<N, R>, t: FS<N, R>)
    requires s.WF()
  {
    && t.WF()
    && (forall e :: Recalls(s.log, t.dir, e))
    && t.log == [t.dir]
    && t.data.Keys == s.data.Keys
    && (forall i :: i in s.data ==> t.data[i] == s.data[i] || (i !in s.synced && !t.data[i].Whole?))
    && t.synced == t.data.Keys
    && t.next == s.next
  }

  /** A power loss on a filesystem that persists directory operations in order. */
  ghost predicate OrderedLoss<N(!new), R>(s: FS<N, R>, t: FS<N, R>)
    requires s.WF()
  {
    Loss(s, t) && t.dir in s.log
  }

  /** Under every outcome of a power loss, `e` still holds exactly `value`. */
  ghost predicate Durable<N, R>(s: FS<N, R>, e: Entry<N>, value: R)
    requires s.WF()
  {
    forall d :: d in s.log ==> e in d && d[e] in s.synced && s.data[d[e]] == Whole(value)
  }

  /** No process and no reboot can ever read an incomplete value under a final name. */
  ghost predicate Sound<N(!new), R>(s: FS<N, R>)
    requires s.WF()
  {
    forall d, n :: d in s.log && Final(n) in d ==>
      d[Final(n)] in s.synced && s.data[d[Final(n)]].Whole?
  }

  /** Contents already written never change, and nothing synced becomes unsynced. */
  ghost predicate Grows<N, R>(s: FS<N, R>, t: FS<N, R>) {
    && (forall i :: i in s.data ==> i in t.data && t.data[i] == s.data[i])
    && s.synced <= t.synced
  }

  /** `d` agrees with `b` on every entry outside `es`. */
  ghost predicate SameBut<N(!new)>(d: Dir<N>, b: Dir<N>, es: set<Entry<N>>) {
    forall e :: e !in es ==> At(d, e) == At(b, e)
  }

  /** From `s` to `t` only entries in `es` were touched. */
  ghost predicate Framed<N(!new), R>(s: FS<N, R>, t: FS<N, R>, es: set<Entry<N>>) {
    && SameBut(t.dir, s.dir, es)
    && forall d :: d in t.log ==> d in s.log || SameBut(d, s.dir, es)
  }

  lemma LossKeepsDurable<N(!new), R>(s: FS<N, R>, t: FS<N, R>, e: Entry<N>, value: R)
    requires s.WF() && Loss(s, t) && Durable(s, e, value)
    ensures Durable(t, e, value)
  {
    assert Recalls(s.log, t.dir, e);
  }

  lemma LossKeepsSound<N(!new), R>(s: FS<N, R>, t: FS<N, R>)
    requires s.WF() && Loss(s, t) && Sound(s)
    ensures Sound(t)
  {
    forall n | Final(n) in t.dir
      ensures t.dir[Final(n)] in t.synced && t.data[t.dir[Final(n)]].Whole?
    {
      assert Recalls(s.log, t.dir, Final(n));
    }
  }

  /** What `Framed` and `Grows` are for: untouched durable values stay durable. */
  lemma FrameKeepsDurable<N(!new), R>(s: FS<N, R>, t: FS<N, R>, es: set<Entry<N>>, e: Entry<N>, value: R)
    requires s.WF() && t.WF() && Grows(s, t) && Framed(s, t, es) && e !in es && Durable(s, e, value)
    ensures Durable(t, e, value)
  {
    assert s.dir in s.log;
    forall d | d in t.log
      ensures e in d && d[e] in t.synced && t.data[d[e]] == Whole(value)
    {
      if d !in s.log {
        assert At(d, e) == At(s.dir, e);
      }
    }
  }
}
