/**
  cmd/server/main.go and internal/client/client.go: listing keys page by page with a cursor,
  and the client's walk over all pages while the store changes between requests.
 */
module Pagination {
  import opened Strings

  /** Strictly increasing, so without repetitions. */
  ghost predicate Increasing(s: seq<string>) { forall i, j :: 0 <= i < j < |s| ==> Less(s[i], s[j]) }

  /** Where `k` belongs in a sorted list. */
  ghost predicate Splits(s: seq<string>, k: string, i: nat)
    requires i <= |s|
  {
    && (forall j :: 0 <= j < i ==> Less(s[j], k))
    && (forall j :: i <= j < |s| ==> AtMost(k, s[j]))
  }

  /** sort.SearchStrings: the first position whose key is not below `k`. */
  method Search(s: seq<string>, k: string) returns (i: nat)
    requires Increasing(s)
    ensures i <= |s| && Splits(s, k, i)
  {
    var lo, hi := 0, |s|;
    while lo < hi
      invariant 0 <= lo <= hi <= |s|
      invariant forall j :: 0 <= j < lo ==> Less(s[j], k)
      invariant forall j :: hi <= j < |s| ==> AtMost(k, s[j])
    {
      var mid := (lo + hi) / 2;
      if Less(s[mid], k) {
        forall j | 0 <= j <= mid ensures Less(s[j], k) {
          if j < mid { LessTransitive(s[j], s[mid], k); }
        }
        lo := mid + 1;
      } else {
        LessTotal(s[mid], k);
        forall j | mid <= j < |s| ensures AtMost(k, s[j]) {
          if j > mid && k != s[mid] { LessTransitive(k, s[mid], s[j]); }
        }
        hi := mid;
      }
    }
    i := lo;
  }

  lemma InsertIncreasing(s: seq<string>, k: string, i: nat)
    requires Increasing(s) && i <= |s| && Splits(s, k, i) && k !in s
    ensures Increasing(s[..i] + [k] + s[i..])
  {
    var t := s[..i] + [k] + s[i..];
    forall a, b | 0 <= a < b < |t| ensures Less(t[a], t[b]) {
      var x, y := if a < i then s[a] else if a == i then k else s[a - 1],
                  if b < i then s[b] else if b == i then k else s[b - 1];
      assert t[a] == x && t[b] == y;
      if a == i { assert s[b - 1] in s; }
    }
  }

  /** sort.Strings on distinct keys. */
  method Sort(keys: seq<string>) returns (s: seq<string>)
    requires forall i, j :: 0 <= i < j < |keys| ==> keys[i] != keys[j]
    ensures Increasing(s) && |s| == |keys| && forall k :: k in s <==> k in keys
  {
    s := [];
    for n := 0 to |keys|
      invariant Increasing(s) && |s| == n && forall k :: k in s <==> k in keys[..n]
    {
      assert keys[n] !in s;
      var i := Search(s, keys[n]);
      InsertIncreasing(s, keys[n], i);
      assert keys[..n + 1] == keys[..n] + [keys[n]];
      assert forall k :: k in s <==> k in s[..i] || k in s[i..] by {
        assert s == s[..i] + s[i..];
      }
      s := s[..i] + [keys[n]] + s[i..];
    }
    assert keys[..|keys|] == keys;
  }

  predicate After(k: string, cursor: string) { cursor == "" || Less(cursor, k) }

  /** A key the listing is about. */
  ghost predicate Wanted(live: set<string>, prefix: string, cursor: string, k: string) {
    k in live && prefix <= k && After(k, cursor)
  }

  datatype Page = Page(keys: seq<string>, next: string)

  /** What one request returns: the wanted keys in order, cut off at the limit. */
  ghost predicate Lists(live: set<string>, prefix: string, limit: int, cursor: string, page: Page) {
    && Increasing(page.keys) && (limit > 0 ==> |page.keys| <= limit)
    && (forall k :: k in page.keys ==> Wanted(live, prefix, cursor, k))
    && (forall k :: Wanted(live, prefix, cursor, k) ==> k in page.keys || Beyond(page.keys, limit, k))
    && page.next == (if CutOff(live, prefix, limit, cursor, page.keys) then page.keys[|page.keys| - 1] else "")
  }

  ghost predicate Beyond(keys: seq<string>, limit: int, k: string) {
    limit > 0 && |keys| == limit && Less(keys[limit - 1], k)
  }

  ghost predicate CutOff(live: set<string>, prefix: string, limit: int, cursor: string, keys: seq<string>) {
    keys != [] && exists k :: Wanted(live, prefix, cursor, k) && Beyond(keys, limit, k)
  }

  /** main.go:721 - `scan` is the store's answer, in any order. */
  method Keys(scan: seq<string>, prefix: string, limit: int, cursor: string, ghost live: set<string>) returns (page: Page)
    requires forall i, j :: 0 <= i < j < |scan| ==> scan[i] != scan[j]
    requires forall k :: k in live <==> k in scan
    ensures Lists(live, prefix, limit, cursor, page)
  {
    var keys := Filter(scan, prefix);
    keys := Sort(keys);
    if cursor != "" {
      var i := Search(keys, cursor);
      if i < |keys| && keys[i] == cursor {
        SkipCursor(keys, cursor, i);
        i := i + 1;
      } else {
        PastCursor(keys, cursor, i);
      }
      AfterCursor(keys, cursor, i);
      keys := keys[i..];
    }
    page := Cut(live, prefix, limit, cursor, keys);
  }

  /** main.go:724-733 */
  method Filter(scan: seq<string>, prefix: string) returns (keys: seq<string>)
    requires forall i, j :: 0 <= i < j < |scan| ==> scan[i] != scan[j]
    ensures forall i, j :: 0 <= i < j < |keys| ==> keys[i] != keys[j]
    ensures forall k :: k in keys <==> k in scan && prefix <= k
  {
    keys := [];
    for n := 0 to |scan|
      invariant forall i, j :: 0 <= i < j < |keys| ==> keys[i] != keys[j]
      invariant forall k :: k in keys <==> k in scan[..n] && prefix <= k
    {
      assert scan[..n + 1] == scan[..n] + [scan[n]];
      assert scan[n] !in scan[..n];
      if prefix <= scan[n] { keys := keys + [scan[n]]; }
    }
    assert scan[..|scan|] == scan;
  }

  lemma SkipCursor(keys: seq<string>, cursor: string, i: nat)
    requires Increasing(keys) && i < |keys| && keys[i] == cursor
    ensures (forall j :: 0 <= j <= i ==> AtMost(keys[j], cursor)) && (forall j :: i < j < |keys| ==> Less(cursor, keys[j]))
  {
  }

  lemma PastCursor(keys: seq<string>, cursor: string, i: nat)
    requires Increasing(keys) && i <= |keys| && Splits(keys, cursor, i) && (i < |keys| ==> keys[i] != cursor)
    ensures forall j :: i <= j < |keys| ==> Less(cursor, keys[j])
  {
    forall j | i < j < |keys| ensures Less(cursor, keys[j]) {
      LessTransitive(cursor, keys[i], keys[j]);
    }
  }

  lemma AfterCursor(keys: seq<string>, cursor: string, i: nat)
    requires Increasing(keys) && i <= |keys|
    requires forall j :: 0 <= j < i ==> AtMost(keys[j], cursor)
    requires forall j :: i <= j < |keys| ==> Less(cursor, keys[j])
    ensures Increasing(keys[i..]) && forall k :: k in keys[i..] <==> k in keys && Less(cursor, k)
  {
    forall k | k in keys && Less(cursor, k) ensures k in keys[i..] {
      var j :| 0 <= j < |keys| && keys[j] == k;
      if j < i {
        LessIrreflexive(cursor);
        if k != cursor { LessTransitive(cursor, k, cursor); }
      }
      assert keys[i..][j - i] == k;
    }
  }

  /** main.go:748-760 */
  method Cut(ghost live: set<string>, prefix: string, limit: int, cursor: string, keys: seq<string>) returns (page: Page)
    requires Increasing(keys) && forall k :: k in keys <==> Wanted(live, prefix, cursor, k)
    ensures Lists(live, prefix, limit, cursor, page)
  {
    if limit > 0 && |keys| > limit {
      page := Page(keys[..limit], keys[limit - 1]);
      forall k | Wanted(live, prefix, cursor, k) ensures k in page.keys || Beyond(page.keys, limit, k) {
        var j :| 0 <= j < |keys| && keys[j] == k;
        if j < limit { assert page.keys[j] == k; }
      }
      assert keys[limit] in keys && Beyond(page.keys, limit, keys[limit]);
    } else {
      page := Page(keys, "");
      forall k | Wanted(live, prefix, cursor, k) ensures !Beyond(keys, limit, k) {
        var j :| 0 <= j < |keys| && keys[j] == k;
        if limit > 0 && |keys| == limit {
          LessIrreflexive(k);
          if j < limit - 1 && Less(keys[limit - 1], k) { LessTransitive(k, keys[limit - 1], k); }
        }
      }
    }
  }

  function PageSize(n: int): int { if n <= 0 then 1000 else n }

  /** The walk so far: in order, genuine, and complete up to the cursor. */
  ghost predicate Walked(stores: seq<set<string>>, prefix: string, n: nat, cursor: string, all: seq<string>)
    requires n <= |stores|
  {
    && Increasing(all)
    && (forall k :: k in all ==> AtMost(k, cursor) && prefix <= k && exists i :: 0 <= i < n && k in stores[i])
    && (forall k :: prefix <= k && AtMost(k, cursor) && (forall i :: 0 <= i < n ==> k in stores[i]) && n > 0 ==> k in all)
  }

  /** The finished walk. */
  ghost predicate Complete(stores: seq<set<string>>, prefix: string, n: nat, all: seq<string>)
    requires n <= |stores|
  {
    && Increasing(all)
    && (forall k :: k in all ==> prefix <= k && exists i :: 0 <= i < n && k in stores[i])
    && (forall k :: prefix <= k && (forall i :: 0 <= i < n ==> k in stores[i]) ==> k in all)
  }

  lemma PageKeys(stores: seq<set<string>>, prefix: string, n: nat, cursor: string, all: seq<string>, page: Page, limit: int)
    requires n < |stores| && Walked(stores, prefix, n, cursor, all) && Lists(stores[n], prefix, limit, cursor, page)
    requires cursor == "" <==> n == 0
    ensures Increasing(all + page.keys)
    ensures forall k :: k in all + page.keys ==> prefix <= k && exists i :: 0 <= i < n + 1 && k in stores[i]
  {
    var more := all + page.keys;
    forall i, j | 0 <= i < j < |more| ensures Less(more[i], more[j]) {
      if i < |all| <= j {
        assert all[i] in all && page.keys[j - |all|] in page.keys;
        assert Less(cursor, more[j]);
        if more[i] != cursor { LessTransitive(more[i], cursor, more[j]); }
      } else if i >= |all| {
        assert Less(page.keys[i - |all|], page.keys[j - |all|]);
      }
    }
    forall k | k in more ensures prefix <= k && exists i :: 0 <= i < n + 1 && k in stores[i] {
      if k !in all { assert k in page.keys && k in stores[n]; }
    }
  }

  /** A key that was live at every request so far is in the list once the walk has passed it. */
  lemma Reached(stores: seq<set<string>>, prefix: string, n: nat, cursor: string, all: seq<string>, page: Page, limit: int,
                k: string)
    requires n < |stores| && Walked(stores, prefix, n, cursor, all) && Lists(stores[n], prefix, limit, cursor, page)
    requires cursor == "" <==> n == 0
    requires prefix <= k && forall i :: 0 <= i < n + 1 ==> k in stores[i]
    ensures k in all + page.keys || Beyond(page.keys, limit, k)
  {
    if After(k, cursor) {
      assert Wanted(stores[n], prefix, cursor, k);
    } else {
      LessTotal(k, cursor);
    }
  }

  lemma NextPage(stores: seq<set<string>>, prefix: string, n: nat, cursor: string, all: seq<string>, page: Page, limit: int)
    requires n < |stores| && Walked(stores, prefix, n, cursor, all) && Lists(stores[n], prefix, limit, cursor, page)
    requires (cursor == "" <==> n == 0) && page.next != "" && limit > 0
    ensures Walked(stores, prefix, n + 1, page.next, all + page.keys)
    ensures page.next != cursor
  {
    PageKeys(stores, prefix, n, cursor, all, page, limit);
    var more, last := all + page.keys, page.keys[|page.keys| - 1];
    assert last in page.keys && page.next == last;
    LessIrreflexive(cursor);
    forall k | k in more ensures AtMost(k, last) {
      if k in page.keys {
        var j :| 0 <= j < |page.keys| && page.keys[j] == k;
      } else if cursor != "" && k != cursor {
        LessTransitive(k, cursor, last);
      }
    }
    forall k | prefix <= k && AtMost(k, last) && (forall i :: 0 <= i < n + 1 ==> k in stores[i]) ensures k in more {
      Reached(stores, prefix, n, cursor, all, page, limit, k);
      if Beyond(page.keys, limit, k) {
        LessIrreflexive(last);
        if k != last { LessTransitive(last, k, last); }
      }
    }
  }

  lemma LastPage(stores: seq<set<string>>, prefix: string, n: nat, cursor: string, all: seq<string>, page: Page, limit: int)
    requires n < |stores| && Walked(stores, prefix, n, cursor, all) && Lists(stores[n], prefix, limit, cursor, page)
    requires (cursor == "" <==> n == 0) && limit > 0 && !CutOff(stores[n], prefix, limit, cursor, page.keys)
    ensures Complete(stores, prefix, n + 1, all + page.keys)
  {
    PageKeys(stores, prefix, n, cursor, all, page, limit);
    forall k | prefix <= k && (forall i :: 0 <= i < n + 1 ==> k in stores[i]) ensures k in all + page.keys {
      Reached(stores, prefix, n, cursor, all, page, limit, k);
      if k !in all + page.keys {
        if !After(k, cursor) { LessTotal(k, cursor); }
        assert Wanted(stores[n], prefix, cursor, k);
      }
    }
  }

  /** No cursor in the answer means no more keys, unless the page is the empty key alone. */
  lemma NoCursor(live: set<string>, prefix: string, cursor: string, page: Page, limit: int)
    requires Lists(live, prefix, limit, cursor, page) && page.next == "" && limit > 0
    ensures CutOff(live, prefix, limit, cursor, page.keys) ==> limit == 1 && page.keys == [""] && "" in live && prefix == ""
  {
    if CutOff(live, prefix, limit, cursor, page.keys) {
      var last := page.keys[limit - 1];
      assert last in page.keys && last == "";
      assert limit > 1 ==> Less(page.keys[0], last);
    }
  }

  /**
    client.go:328 over a store that is `stores[i]` at the i-th request. The list is in
    order, holds every matching key that was there all the time exactly once, and nothing
    that was never there; until it is done, every page is full. It misses keys exactly if the
    first request answers with the empty key alone, which looks like the last page.
   */
  method ListAllKeys(stores: seq<set<string>>, prefix: string, pageSize: int) returns (all: seq<string>, n: nat, done: bool)
    ensures n <= |stores| && (!done ==> n == |stores| && |all| == n * PageSize(pageSize))
    ensures Increasing(all) && forall k :: k in all ==> prefix <= k && exists i :: 0 <= i < n && k in stores[i]
    ensures done ==> n > 0 && (Complete(stores, prefix, n, all) <==> !Swallowed(stores[0], prefix, pageSize))
    ensures stores != [] && Swallowed(stores[0], prefix, pageSize) ==> done && n == 1 && all == [""]
  {
    var limit := PageSize(pageSize);
    all, n, done := [], 0, false;
    var cursor := "";
    while n < |stores|
      invariant n <= |stores| && Walked(stores, prefix, n, cursor, all) && (cursor == "" <==> n == 0)
      invariant |all| == n * limit && (n > 0 ==> !Swallowed(stores[0], prefix, pageSize))
    {
      var scan := Scan(stores[n]);
      var page := Keys(scan, prefix, limit, cursor, stores[n]);
      if page.next == "" || page.next == cursor {
        if page.next != "" { NextPage(stores, prefix, n, cursor, all, page, limit); }
        PageKeys(stores, prefix, n, cursor, all, page, limit);
        WalkEnds(stores, prefix, pageSize, n, cursor, all, page);
        return all + page.keys, n + 1, true;
      }
      NextPage(stores, prefix, n, cursor, all, page, limit);
      if Swallowed(stores[n], prefix, pageSize) && n == 0 { FirstKey(stores[n], prefix, pageSize, page); }
      all, n, cursor := all + page.keys, n + 1, page.next;
    }
  }

  lemma WalkEnds(stores: seq<set<string>>, prefix: string, pageSize: int, n: nat, cursor: string, all: seq<string>,
                 page: Page)
    requires n < |stores| && Walked(stores, prefix, n, cursor, all)
    requires Lists(stores[n], prefix, PageSize(pageSize), cursor, page) && page.next == ""
    requires (cursor == "" <==> n == 0) && (n > 0 ==> !Swallowed(stores[0], prefix, pageSize))
    ensures Complete(stores, prefix, n + 1, all + page.keys) <==> !Swallowed(stores[0], prefix, pageSize)
    ensures Swallowed(stores[0], prefix, pageSize) ==> n == 0 && all + page.keys == [""]
  {
    if Swallowed(stores[0], prefix, pageSize) {
      FirstKey(stores[0], prefix, pageSize, page);
      HasElement(all);
      var k :| k in stores[0] && k != "";
      assert k !in all + page.keys;
    } else {
      NoCursor(stores[n], prefix, cursor, page, PageSize(pageSize));
      if CutOff(stores[n], prefix, PageSize(pageSize), cursor, page.keys) {
        SwallowedHere(stores[n], prefix, pageSize, cursor, page);
      }
      LastPage(stores, prefix, n, cursor, all, page, PageSize(pageSize));
    }
  }

  /** Only the very first page can be the empty key alone. */
  lemma SwallowedHere(live: set<string>, prefix: string, pageSize: int, cursor: string, page: Page)
    requires Lists(live, prefix, PageSize(pageSize), cursor, page) && page.next == ""
    requires CutOff(live, prefix, PageSize(pageSize), cursor, page.keys)
    ensures cursor == "" && Swallowed(live, prefix, pageSize)
  {
    NoCursor(live, prefix, cursor, page, PageSize(pageSize));
    assert "" in page.keys && Wanted(live, prefix, cursor, "");
    var k :| Wanted(live, prefix, cursor, k) && Beyond(page.keys, PageSize(pageSize), k);
    LessIrreflexive("");
  }

  /** memory.go:195 - the live keys in some order. */
  method Scan(live: set<string>) returns (scan: seq<string>)
    ensures forall i, j :: 0 <= i < j < |scan| ==> scan[i] != scan[j]
    ensures forall k :: k in live <==> k in scan
  {
    scan := [];
    var todo := live;
    while todo != {}
      invariant todo <= live && forall k :: k in live <==> k in todo || k in scan
      invariant forall k :: k in scan ==> k !in todo
      invariant forall i, j :: 0 <= i < j < |scan| ==> scan[i] != scan[j]
      decreases |todo|
    {
      var k :| k in todo;
      todo := todo - {k};
      scan := scan + [k];
    }
  }

  ghost function Remaining(live: set<string>, prefix: string, cursor: string): set<string> {
    set k | k in live && prefix <= k && After(k, cursor)
  }

  lemma FewerRemain(live: set<string>, prefix: string, cursor: string, next: string)
    requires Wanted(live, prefix, cursor, next) && next != ""
    ensures Remaining(live, prefix, next) < Remaining(live, prefix, cursor)
  {
    LessIrreflexive(next);
    assert next in Remaining(live, prefix, cursor) && next !in Remaining(live, prefix, next);
    forall k | k in Remaining(live, prefix, next) ensures k in Remaining(live, prefix, cursor) {
      if cursor != "" { LessTransitive(cursor, next, k); }
    }
  }

  /**
    On an unchanging store the walk ends with the matching keys in order: all of them or,
    exactly if pages hold one key, the empty key matches and there are more, that key alone.
   */
  method ListFixed(live: set<string>, prefix: string, pageSize: int) returns (all: seq<string>)
    ensures Increasing(all) && forall k :: k in all ==> k in live && prefix <= k
    ensures (forall k :: k in live && prefix <= k ==> k in all) <==> !Swallowed(live, prefix, pageSize)
    ensures Swallowed(live, prefix, pageSize) ==> all == [""]
  {
    var limit := PageSize(pageSize);
    all := [];
    var cursor := "";
    ghost var n: nat := 0;
    while true
      invariant (cursor == "" <==> n == 0) && (n > 0 ==> !Swallowed(live, prefix, pageSize))
      invariant Walked(Copies(live, n + 1), prefix, n, cursor, all)
      decreases Remaining(live, prefix, cursor)
    {
      var scan := Scan(live);
      var page := Keys(scan, prefix, limit, cursor, live);
      ghost var stores := Copies(live, n + 1);
      assert stores[n] == live;
      PageKeys(stores, prefix, n, cursor, all, page, limit);
      if page.next == "" || page.next == cursor {
        if page.next != "" { NextPage(stores, prefix, n, cursor, all, page, limit); }
        Ends(live, prefix, pageSize, n, cursor, all, page);
        return all + page.keys;
      }
      NextPage(stores, prefix, n, cursor, all, page, limit);
      Continues(live, prefix, pageSize, n, cursor, all, page);
      all, n, cursor := all + page.keys, n + 1, page.next;
    }
  }

  ghost function Copies(live: set<string>, n: nat): (s: seq<set<string>>)
    ensures |s| == n && forall i :: 0 <= i < n ==> s[i] == live
  {
    if n == 0 then [] else Copies(live, n - 1) + [live]
  }

  ghost predicate Swallowed(live: set<string>, prefix: string, pageSize: int) {
    PageSize(pageSize) == 1 && prefix == "" && "" in live && exists k :: k in live && k != ""
  }

  lemma FirstKey(live: set<string>, prefix: string, pageSize: int, page: Page)
    requires Lists(live, prefix, PageSize(pageSize), "", page) && Swallowed(live, prefix, pageSize)
    ensures page.keys == [""] && page.next == ""
  {
    assert Wanted(live, prefix, "", "");
    assert "" in page.keys;
  }

  lemma Continues(live: set<string>, prefix: string, pageSize: int, n: nat, cursor: string, all: seq<string>, page: Page)
    requires Walked(Copies(live, n + 1), prefix, n, cursor, all) && (cursor == "" <==> n == 0)
    requires Lists(live, prefix, PageSize(pageSize), cursor, page) && page.next != ""
    requires Walked(Copies(live, n + 1), prefix, n + 1, page.next, all + page.keys)
    requires n > 0 ==> !Swallowed(live, prefix, pageSize)
    ensures !Swallowed(live, prefix, pageSize)
    ensures Walked(Copies(live, n + 2), prefix, n + 1, page.next, all + page.keys)
    ensures Remaining(live, prefix, page.next) < Remaining(live, prefix, cursor)
  {
    if Swallowed(live, prefix, pageSize) { FirstKey(live, prefix, pageSize, page); }
    assert page.next in page.keys;
    FewerRemain(live, prefix, cursor, page.next);
    SameWalk(live, prefix, n + 1, page.next, all + page.keys);
  }

  lemma SameWalk(live: set<string>, prefix: string, n: nat, cursor: string, all: seq<string>)
    requires n > 0 && Walked(Copies(live, n), prefix, n, cursor, all)
    ensures Walked(Copies(live, n + 1), prefix, n, cursor, all)
  {
    var few, many := Copies(live, n), Copies(live, n + 1);
    assert forall i :: 0 <= i < n ==> many[i] == few[i];
    assert many[0] == live;
  }

  lemma HasElement(s: seq<string>)
    ensures s == [] || exists k :: k in s
  {
    if s != [] { assert s[0] in s; }
  }

  lemma Ends(live: set<string>, prefix: string, pageSize: int, n: nat, cursor: string, all: seq<string>, page: Page)
    requires Walked(Copies(live, n + 1), prefix, n, cursor, all) && (cursor == "" <==> n == 0)
    requires Lists(live, prefix, PageSize(pageSize), cursor, page) && page.next == ""
    requires n > 0 ==> !Swallowed(live, prefix, pageSize)
    ensures (forall k :: k in live && prefix <= k ==> k in all + page.keys) <==> !Swallowed(live, prefix, pageSize)
    ensures Swallowed(live, prefix, pageSize) ==> all + page.keys == [""]
  {
    if Swallowed(live, prefix, pageSize) {
      FirstKey(live, prefix, pageSize, page);
      HasElement(all);
    } else {
      NoCursor(live, prefix, cursor, page, PageSize(pageSize));
      LastPage(Copies(live, n + 1), prefix, n, cursor, all, page, PageSize(pageSize));
    }
  }
}
