/**
  internal/trust/signedlist.go: parsing and printing the signed list of root nodes. Strings
  are sequences of Unicode characters.
 */
module SignedList {
  import opened Wrappers
  import opened Strings
  import Base64

  datatype Error = Malformed | Duplicate | BadSignature | EmptyNodes | Unknown | Missing(field: string)

  type Bytes = seq<Base64.Byte>

  datatype List = List(version: string, expires: int, nodes: seq<string>, signature: Bytes)

  const MAX_INT64 := 0x7FFF_FFFF_FFFF_FFFF

  // strings.Split, strings.Cut and strings.TrimSpace

  function Split(s: string, sep: char): (parts: seq<string>)
    ensures parts != []
  {
    if s == "" then [""]
    else if s[0] == sep then [""] + Split(s[1..], sep)
    else
      var rest := Split(s[1..], sep);
      [[s[0]] + rest[0]] + rest[1..]
  }

  lemma {:induction false} SplitNone(s: string, sep: char)
    requires sep !in s
    ensures Split(s, sep) == [s]
  {
    if s != "" {
      assert s[0] in s && forall c :: c in s[1..] ==> c in s;
      SplitNone(s[1..], sep);
      assert s == [s[0]] + s[1..];
    }
  }

  lemma {:induction false} SplitAt(a: string, sep: char, b: string)
    requires sep !in a
    ensures Split(a + [sep] + b, sep) == [a] + Split(b, sep)
  {
    var s := a + [sep] + b;
    if a == "" {
      assert s[1..] == b;
    } else {
      assert a[0] in a && forall c :: c in a[1..] ==> c in a;
      assert s[1..] == a[1..] + [sep] + b;
      SplitAt(a[1..], sep, b);
      assert a == [a[0]] + a[1..];
    }
  }

  /** No part contains the separator, and every character of a part is one of the string. */
  lemma {:induction false} SplitParts(s: string, sep: char, i: nat)
    requires i < |Split(s, sep)|
    ensures sep !in Split(s, sep)[i] && forall c :: c in Split(s, sep)[i] ==> c in s
  {
    if s != "" {
      var rest := Split(s[1..], sep);
      assert forall c :: c in s[1..] ==> c in s;
      if s[0] == sep {
        if i > 0 { SplitParts(s[1..], sep, i - 1); }
      } else {
        SplitParts(s[1..], sep, i);
        assert i == 0 ==> Split(s, sep)[i] == [s[0]] + rest[0];
      }
    }
  }

  /** The position of the first `sep`, or the length. */
  function Find(s: string, sep: char): (i: nat)
    ensures i <= |s| && (i < |s| ==> s[i] == sep) && forall j :: 0 <= j < i ==> s[j] != sep
  {
    if s == "" || s[0] == sep then 0
    else
      var i := 1 + Find(s[1..], sep);
      i
  }

  predicate IsSpace(c: char) {
    || '\t' <= c <= '\r' || c == ' ' || c == '\U{0085}' || c == '\U{00A0}' || c == '\U{1680}'
    || '\U{2000}' <= c <= '\U{200A}' || c == '\U{2028}' || c == '\U{2029}' || c == '\U{202F}' || c == '\U{205F}'
    || c == '\U{3000}'
  }

  function TrimLeft(s: string): (r: string)
    ensures |r| <= |s| && r == s[|s| - |r|..] && (r != "" ==> !IsSpace(r[0]))
  {
    if s != "" && IsSpace(s[0]) then TrimLeft(s[1..]) else s
  }

  function TrimRight(s: string): (r: string)
    ensures |r| <= |s| && r == s[..|r|] && (r != "" ==> !IsSpace(r[|r| - 1]))
  {
    if s != "" && IsSpace(s[|s| - 1]) then TrimRight(s[..|s| - 1]) else s
  }

  function Trim(s: string): (r: string)
    ensures Trimmed(r) && forall c :: c in r ==> c in s
  {
    TrimRight(TrimLeft(s))
  }

  predicate Trimmed(s: string) { s == "" || (!IsSpace(s[0]) && !IsSpace(s[|s| - 1])) }

  lemma TrimNothing(s: string)
    requires Trimmed(s)
    ensures Trim(s) == s
  {
  }

  // strconv.ParseInt and strconv.FormatInt

  predicate IsDigit(c: char) { '0' <= c <= '9' }

  function DigitOf(c: char): nat
    requires IsDigit(c)
  {
    c as int - '0' as int
  }

  function Number(s: string): nat
    requires forall c :: c in s ==> IsDigit(c)
  {
    if s == "" then 0
    else
      assert s[|s| - 1] in s;
      Number(s[..|s| - 1]) * 10 + DigitOf(s[|s| - 1])
  }

  function ParseInt(s: string): (r: Option<int>)
    ensures r.Some? ==> -MAX_INT64 - 1 <= r.value <= MAX_INT64
  {
    if s == "" then None
    else
      var body := if s[0] == '+' || s[0] == '-' then s[1..] else s;
      if body == "" || exists c :: c in body && !IsDigit(c) then None
      else
        var n: int := Number(body);
        if s[0] == '-' then (if n > MAX_INT64 + 1 then None else Some(-n))
        else if n > MAX_INT64 then None else Some(n)
  }

  function Digits(n: nat): (s: string)
    ensures s != "" && forall c :: c in s ==> IsDigit(c)
  {
    if n < 10 then ['0' + n as char] else Digits(n / 10) + ['0' + (n % 10) as char]
  }

  function FormatInt(n: int): string { if n < 0 then "-" + Digits(-n) else Digits(n) }

  lemma {:induction false} NumberOfDigits(n: nat)
    ensures Number(Digits(n)) == n
  {
    var s := Digits(n);
    if n < 10 {
      assert s[..0] == "";
    } else {
      NumberOfDigits(n / 10);
      assert s[..|s| - 1] == Digits(n / 10);
    }
  }

  lemma IntRoundTrip(n: int)
    requires -MAX_INT64 - 1 <= n <= MAX_INT64
    ensures ParseInt(FormatInt(n)) == Some(n)
  {
    NumberOfDigits(if n < 0 then -n else n);
    if n < 0 {
      assert FormatInt(n)[1..] == Digits(-n);
    } else {
      assert IsDigit(Digits(n)[0]) by { assert Digits(n)[0] in Digits(n); }
    }
  }

  lemma FormatPlain(n: int)
    ensures Trimmed(FormatInt(n)) && ';' !in FormatInt(n)
  {
    var s := FormatInt(n);
    forall c | c in s ensures IsDigit(c) || c == '-' {
      if n < 0 { assert s == ['-'] + Digits(-n); }
    }
    assert s[0] in s && s[|s| - 1] in s;
  }

  // Node lists

  function Kept(parts: seq<string>): (r: seq<string>)
    ensures forall n :: n in r ==> n != "" && Trimmed(n)
  {
    if parts == [] then []
    else
      var n := Trim(parts[0]);
      if n == "" then Kept(parts[1..]) else [n] + Kept(parts[1..])
  }

  /** signedlist.go:229 */
  method SplitAndTrim(s: string) returns (nodes: seq<string>)
    ensures nodes == Kept(Split(s, ','))
  {
    var parts := Split(s, ',');
    nodes := [];
    for i := 0 to |parts|
      invariant nodes + Kept(parts[i..]) == Kept(parts)
    {
      assert parts[i..][1..] == parts[i + 1..];
      var p := Trim(parts[i]);
      if p != "" { nodes := nodes + [p]; }
    }
    assert parts[|parts|..] == [];
  }

  function Join(nodes: seq<string>): string {
    if nodes == [] then "" else if |nodes| == 1 then nodes[0] else nodes[0] + [','] + Join(nodes[1..])
  }

  predicate WellFormedNode(n: string) { n != "" && Trimmed(n) && ',' !in n && ';' !in n }

  lemma {:induction false} KeptWellFormed(parts: seq<string>)
    requires forall p :: p in parts ==> ',' !in p && ';' !in p
    ensures forall n :: n in Kept(parts) ==> WellFormedNode(n)
  {
    if parts != [] {
      assert parts[0] in parts && forall p :: p in parts[1..] ==> p in parts;
      KeptWellFormed(parts[1..]);
    }
  }

  lemma {:induction false} SplitJoin(nodes: seq<string>)
    requires nodes != [] && forall n :: n in nodes ==> ',' !in n
    ensures Split(Join(nodes), ',') == nodes
  {
    assert nodes[0] in nodes;
    if |nodes| == 1 {
      SplitNone(nodes[0], ',');
    } else {
      assert forall m :: m in nodes[1..] ==> m in nodes;
      SplitJoin(nodes[1..]);
      SplitAt(nodes[0], ',', Join(nodes[1..]));
      assert nodes == [nodes[0]] + nodes[1..];
    }
  }

  lemma {:induction false} KeptAll(nodes: seq<string>)
    requires forall n :: n in nodes ==> n != "" && Trimmed(n)
    ensures Kept(nodes) == nodes
  {
    if nodes != [] {
      assert nodes[0] in nodes && forall m :: m in nodes[1..] ==> m in nodes;
      TrimNothing(nodes[0]);
      KeptAll(nodes[1..]);
      assert nodes == [nodes[0]] + nodes[1..];
    }
  }

  lemma {:induction false} JoinPlain(nodes: seq<string>)
    requires nodes != [] && forall n :: n in nodes ==> WellFormedNode(n)
    ensures Join(nodes) != "" && ';' !in Join(nodes)
    ensures nodes[0] != "" && Join(nodes)[0] == nodes[0][0] && !IsSpace(Join(nodes)[|Join(nodes)| - 1])
  {
    assert nodes[0] in nodes;
    if |nodes| > 1 {
      assert forall m :: m in nodes[1..] ==> m in nodes;
      JoinPlain(nodes[1..]);
    }
  }

  lemma JoinRoundTrip(nodes: seq<string>)
    requires nodes != [] && forall n :: n in nodes ==> WellFormedNode(n)
    ensures Kept(Split(Join(nodes), ',')) == nodes
    ensures Trimmed(Join(nodes)) && Join(nodes) != "" && ';' !in Join(nodes)
  {
    SplitJoin(nodes);
    KeptAll(nodes);
    JoinPlain(nodes);
    assert nodes[0] in nodes;
  }

  // Parsing

  datatype FieldName = VersionField | ExpiresField | NodesField | SignatureField | OtherField(name: string)

  datatype Content = VersionIs(version: string) | ExpiresIs(expires: int) | NodesAre(nodes: seq<string>) | SignatureIs(signature: Bytes)

  /** What one part of the record says. */
  datatype Reading = Blank | NoSeparator | Pair(name: FieldName, content: Result<Content, Error>)

  function NameOf(key: string): FieldName {
    if key == "v" then VersionField
    else if key == "exp" then ExpiresField
    else if key == "nodes" then NodesField
    else if key == "sig" then SignatureField
    else OtherField(key)
  }

  /** signedlist.go:92-129: the value of one field. */
  function Interpret(name: FieldName, value: string): Result<Content, Error> {
    match name
    case VersionField => Ok(VersionIs(value))
    case ExpiresField =>
      var n := ParseInt(value);
      if n.None? then Err(Malformed) else Ok(ExpiresIs(n.value))
    case NodesField =>
      if value == "" then Err(EmptyNodes)
      else
        var nodes := Kept(Split(value, ','));
        if nodes == [] then Err(EmptyNodes) else Ok(NodesAre(nodes))
    case SignatureField =>
      var data := Base64.Decode(value);
      if data.None? then Err(BadSignature) else Ok(SignatureIs(data.value))
    case OtherField(_) => Err(Unknown)
  }

  function KeyOf(part: string): (key: string)
    requires Find(part, '=') < |part|
    ensures Trimmed(key)
  {
    Trim(part[..Find(part, '=')])
  }

  function ValueOf(part: string): (value: string)
    requires Find(part, '=') < |part|
    ensures Trimmed(value) && forall c :: c in value ==> c in part
  {
    Trim(part[Find(part, '=') + 1..])
  }

  function Read(part: string): Reading {
    if part == "" then Blank
    else if Find(part, '=') == |part| then NoSeparator
    else Pair(NameOf(KeyOf(part)), Interpret(NameOf(KeyOf(part)), ValueOf(part)))
  }

  function Map<A, B>(f: A -> B, s: seq<A>): (r: seq<B>)
    ensures |r| == |s| && forall i :: 0 <= i < |s| ==> r[i] == f(s[i])
  {
    if s == [] then [] else [f(s[0])] + Map(f, s[1..])
  }

  lemma MapFour<A, B>(f: A -> B, a: A, b: A, c: A, d: A)
    ensures Map(f, [a, b, c, d]) == [f(a), f(b), f(c), f(d)]
  {
  }

  function Readings(parts: seq<string>): seq<Reading> { Map(Read, parts) }

  /** What the fields read so far amount to. */
  datatype Progress = Progress(seen: set<FieldName>, version: Option<string>, expires: Option<int>,
                               nodes: Option<seq<string>>, signature: Option<Bytes>)

  const START := Progress({}, None, None, None, None)

  function Set(st: Progress, c: Content): Progress {
    match c
    case VersionIs(v) => st.(version := Some(v))
    case ExpiresIs(n) => st.(expires := Some(n))
    case NodesAre(nodes) => st.(nodes := Some(nodes))
    case SignatureIs(data) => st.(signature := Some(data))
  }

  /** signedlist.go:75-130: a field may appear once, and every field must be known. */
  function Take(st: Progress, r: Reading): Result<Progress, Error> {
    match r
    case Blank => Ok(st)
    case NoSeparator => Err(Malformed)
    case Pair(name, content) =>
      if name in st.seen then Err(Duplicate)
      else if content.Err? then Err(content.error)
      else Ok(Set(st.(seen := st.seen + {name}), content.value))
  }

  function TakeAll(st: Progress, rs: seq<Reading>): Result<Progress, Error>
    decreases |rs|
  {
    if rs == [] then Ok(st)
    else
      var next := Take(st, rs[0]);
      if next.Err? then Err(next.error) else TakeAll(next.value, rs[1..])
  }

  function Finish(st: Progress): Result<List, Error> {
    if st.version.None? then Err(Missing("v"))
    else if st.expires.None? then Err(Missing("exp"))
    else if st.nodes.None? then Err(Missing("nodes"))
    else if st.signature.None? then Err(Missing("sig"))
    else Ok(List(st.version.value, st.expires.value, st.nodes.value, st.signature.value))
  }

  function Assemble(rs: seq<Reading>): Result<List, Error> {
    var st := TakeAll(START, rs);
    if st.Err? then Err(st.error) else Finish(st.value)
  }

  function Parsed(raw: string): Result<List, Error> {
    if raw == "" then Err(Malformed) else Assemble(Readings(Split(raw, ';')))
  }

  /** signedlist.go:66 - the loop over the parts. */
  method Parse(raw: string) returns (r: Result<List, Error>)
    ensures r == Parsed(raw)
    ensures r.Ok? ==> WellFormed(r.value)
  {
    if raw == "" { return Err(Malformed); }
    var parts := Split(raw, ';');
    ghost var rs := Readings(parts);
    var st := START;
    for i := 0 to |parts|
      invariant TakeAll(st, rs[i..]) == TakeAll(START, rs)
    {
      assert rs[i..][0] == Read(parts[i]) && rs[i..][1..] == rs[i + 1..];
      var next := Take(st, Read(parts[i]));
      if next.Err? { return Err(next.error); }
      st := next.value;
    }
    assert rs[|parts|..] == [];
    r := Finish(st);
    if r.Ok? { ParsedWellFormed(raw); }
  }

  /** The lists a record can stand for. */
  ghost predicate WellFormed(l: List) {
    GoodVersion(l.version) && GoodExpiry(l.expires) && GoodNodes(l.nodes)
  }

  ghost predicate GoodVersion(v: string) { Trimmed(v) && ';' !in v }

  ghost predicate GoodExpiry(n: int) { -MAX_INT64 - 1 <= n <= MAX_INT64 }

  ghost predicate GoodNodes(nodes: seq<string>) { nodes != [] && forall n :: n in nodes ==> WellFormedNode(n) }

  ghost predicate GoodContent(c: Content) {
    match c
    case VersionIs(v) => GoodVersion(v)
    case ExpiresIs(n) => GoodExpiry(n)
    case NodesAre(nodes) => GoodNodes(nodes)
    case SignatureIs(_) => true
  }

  ghost predicate GoodReading(r: Reading) { r.Pair? && r.content.Ok? ==> GoodContent(r.content.value) }

  ghost predicate GoodProgress(st: Progress) {
    && (st.version.Some? ==> GoodVersion(st.version.value))
    && (st.expires.Some? ==> GoodExpiry(st.expires.value))
    && (st.nodes.Some? ==> GoodNodes(st.nodes.value))
  }

  lemma GoodSplit(value: string)
    requires ';' !in value
    ensures forall n :: n in Kept(Split(value, ',')) ==> WellFormedNode(n)
  {
    var parts := Split(value, ',');
    forall p | p in parts ensures ',' !in p && ';' !in p {
      var i :| 0 <= i < |parts| && parts[i] == p;
      SplitParts(value, ',', i);
    }
    KeptWellFormed(parts);
  }

  lemma InterpretGood(name: FieldName, value: string)
    requires Trimmed(value) && ';' !in value && Interpret(name, value).Ok?
    ensures GoodContent(Interpret(name, value).value)
  {
    if name == NodesField { GoodSplit(value); }
  }

  lemma ReadGood(part: string)
    requires ';' !in part
    ensures GoodReading(Read(part))
  {
    if Read(part).Pair? && Read(part).content.Ok? {
      InterpretGood(Read(part).name, ValueOf(part));
    }
  }

  lemma {:induction false} TakeAllGood(st: Progress, rs: seq<Reading>)
    requires GoodProgress(st) && (forall r :: r in rs ==> GoodReading(r)) && TakeAll(st, rs).Ok?
    ensures GoodProgress(TakeAll(st, rs).value)
    decreases |rs|
  {
    if rs != [] {
      assert rs[0] in rs && forall r :: r in rs[1..] ==> r in rs;
      TakeAllGood(Take(st, rs[0]).value, rs[1..]);
    }
  }

  lemma ParsedWellFormed(raw: string)
    requires Parsed(raw).Ok?
    ensures WellFormed(Parsed(raw).value)
  {
    var parts := Split(raw, ';');
    var rs := Readings(parts);
    forall r | r in rs ensures GoodReading(r) {
      var i :| 0 <= i < |rs| && rs[i] == r;
      SplitParts(raw, ';', i);
      ReadGood(parts[i]);
    }
    TakeAllGood(START, rs);
  }

  // Printing

  /** signedlist.go:147 */
  function Canonical(l: List): string {
    CanonicalOf(l.version, FormatInt(l.expires), Join(Sorted(l.nodes)))
  }

  function CanonicalOf(v: string, e: string, n: string): string { Three("v=" + v, "exp=" + e, "nodes=" + n) }

  function Three(a: string, b: string, c: string): string { a + ";" + b + ";" + c }

  /** signedlist.go:169 */
  function Encode(l: List): string { Canonical(l) + ";" + ("sig=" + Base64.Encode(l.signature)) }

  lemma SplitFour(a: string, b: string, c: string, d: string)
    requires ';' !in a && ';' !in b && ';' !in c && ';' !in d
    ensures Split(Three(a, b, c) + ";" + d, ';') == [a, b, c, d]
  {
    var cd := c + [';'] + d;
    var bcd := b + [';'] + cd;
    assert Three(a, b, c) + ";" + d == a + [';'] + bcd;
    SplitAt(a, ';', bcd);
    SplitAt(b, ';', cd);
    SplitAt(c, ';', d);
    SplitNone(d, ';');
  }

  lemma CutAt(key: string, value: string)
    requires key != "" && '=' !in key && Trimmed(key) && Trimmed(value)
    ensures Find(key + "=" + value, '=') == |key|
    ensures KeyOf(key + "=" + value) == key && ValueOf(key + "=" + value) == value
  {
    var part := key + "=" + value;
    FindAt(key, value);
    assert part[..|key|] == key && part[|key| + 1..] == value;
    TrimNothing(key);
    TrimNothing(value);
  }

  lemma FindAt(key: string, value: string)
    requires '=' !in key
    ensures Find(key + "=" + value, '=') == |key|
  {
    var part := key + "=" + value;
    assert part[|key|] == '=';
    assert forall j :: 0 <= j < |key| ==> part[j] == key[j] && key[j] in key;
  }

  lemma ReadOf(key: string, value: string, name: FieldName)
    requires key != "" && '=' !in key && Trimmed(key) && Trimmed(value) && NameOf(key) == name
    ensures Read(key + "=" + value) == Pair(name, Interpret(name, value))
  {
    CutAt(key, value);
  }

  lemma SignaturePlain(data: Bytes)
    ensures Trimmed(Base64.Encode(data)) && ';' !in Base64.Encode(data)
  {
    var s := Base64.Encode(data);
    forall i | 0 <= i < |s| ensures !IsSpace(s[i]) && s[i] != ';' {
      Base64.EncodeAlphabet(data, i);
    }
  }

  lemma SortedNodes(nodes: seq<string>)
    requires GoodNodes(nodes)
    ensures GoodNodes(Sorted(nodes))
  {
    forall n | n in Sorted(nodes) ensures n in nodes {
      assert n in multiset(Sorted(nodes));
    }
  }

  lemma ReadFour(v: string, e: string, n: string, s: string)
    requires Trimmed(v) && Trimmed(e) && Trimmed(n) && Trimmed(s)
    ensures Readings(["v=" + v, "exp=" + e, "nodes=" + n, "sig=" + s]) ==
      [Pair(VersionField, Interpret(VersionField, v)), Pair(ExpiresField, Interpret(ExpiresField, e)),
       Pair(NodesField, Interpret(NodesField, n)), Pair(SignatureField, Interpret(SignatureField, s))]
  {
    MapFour(Read, "v=" + v, "exp=" + e, "nodes=" + n, "sig=" + s);
    ReadVersion(v);
    ReadExpires(e);
    ReadNodes(n);
    ReadSignature(s);
  }

  lemma ReadVersion(v: string)
    requires Trimmed(v)
    ensures Read("v=" + v) == Pair(VersionField, Interpret(VersionField, v))
  {
    assert "v" + "=" + v == "v=" + v;
    ReadOf("v", v, VersionField);
  }

  lemma ReadExpires(e: string)
    requires Trimmed(e)
    ensures Read("exp=" + e) == Pair(ExpiresField, Interpret(ExpiresField, e))
  {
    assert "exp" + "=" + e == "exp=" + e;
    ReadOf("exp", e, ExpiresField);
  }

  lemma ReadNodes(n: string)
    requires Trimmed(n)
    ensures Read("nodes=" + n) == Pair(NodesField, Interpret(NodesField, n))
  {
    assert "nodes" + "=" + n == "nodes=" + n;
    ReadOf("nodes", n, NodesField);
  }

  lemma ReadSignature(s: string)
    requires Trimmed(s)
    ensures Read("sig=" + s) == Pair(SignatureField, Interpret(SignatureField, s))
  {
    assert "sig" + "=" + s == "sig=" + s;
    ReadOf("sig", s, SignatureField);
  }

  lemma TakeFirst(st: Progress, r: Reading, rest: seq<Reading>, next: Progress)
    requires Take(st, r) == Ok(next)
    ensures TakeAll(st, [r] + rest) == TakeAll(next, rest)
  {
    assert ([r] + rest)[1..] == rest;
  }

  lemma AssembleFour(v: string, e: int, n: seq<string>, s: Bytes)
    ensures Assemble([Pair(VersionField, Ok(VersionIs(v))), Pair(ExpiresField, Ok(ExpiresIs(e))),
                      Pair(NodesField, Ok(NodesAre(n))), Pair(SignatureField, Ok(SignatureIs(s)))]) == Ok(List(v, e, n, s))
  {
    var a, b, c, d := Pair(VersionField, Ok(VersionIs(v))), Pair(ExpiresField, Ok(ExpiresIs(e))),
                      Pair(NodesField, Ok(NodesAre(n))), Pair(SignatureField, Ok(SignatureIs(s)));
    var p := Take(START, a).value;
    var q := Take(p, b).value;
    var r := Take(q, c).value;
    var t := Take(r, d).value;
    TakeFirst(START, a, [b, c, d], p);
    TakeFirst(p, b, [c, d], q);
    TakeFirst(q, c, [d], r);
    TakeFirst(r, d, [], t);
    assert [a, b, c, d] == [a] + [b, c, d] && [b, c, d] == [b] + [c, d] && [c, d] == [c] + [d] && [d] == [d] + [];
  }

  lemma ParsedFour(v: string, e: string, n: string, s: string)
    requires Trimmed(v) && Trimmed(e) && Trimmed(n) && Trimmed(s)
    requires ';' !in v && ';' !in e && ';' !in n && ';' !in s
    ensures Parsed(CanonicalOf(v, e, n) + ";" + ("sig=" + s)) ==
      Assemble([Pair(VersionField, Interpret(VersionField, v)), Pair(ExpiresField, Interpret(ExpiresField, e)),
                Pair(NodesField, Interpret(NodesField, n)), Pair(SignatureField, Interpret(SignatureField, s))])
  {
    SplitFour("v=" + v, "exp=" + e, "nodes=" + n, "sig=" + s);
    ReadFour(v, e, n, s);
  }

  lemma PrintedNodes(nodes: seq<string>)
    requires GoodNodes(nodes)
    ensures Trimmed(Join(Sorted(nodes))) && ';' !in Join(Sorted(nodes))
    ensures Interpret(NodesField, Join(Sorted(nodes))) == Ok(NodesAre(Sorted(nodes)))
  {
    SortedNodes(nodes);
    JoinRoundTrip(Sorted(nodes));
    InterpretNodes(Join(Sorted(nodes)), Sorted(nodes));
  }

  lemma PrintedExpires(n: int)
    requires GoodExpiry(n)
    ensures Trimmed(FormatInt(n)) && ';' !in FormatInt(n) && Interpret(ExpiresField, FormatInt(n)) == Ok(ExpiresIs(n))
  {
    FormatPlain(n);
    IntRoundTrip(n);
    InterpretExpires(FormatInt(n), n);
  }

  lemma PrintedSignature(data: Bytes)
    ensures Trimmed(Base64.Encode(data)) && ';' !in Base64.Encode(data)
    ensures Interpret(SignatureField, Base64.Encode(data)) == Ok(SignatureIs(data))
  {
    SignaturePlain(data);
    Base64.RoundTrip(data);
    InterpretSignature(Base64.Encode(data), data);
  }

  /** Printing and parsing again gives the same list with its nodes in order. */
  lemma RoundTrip(l: List)
    requires WellFormed(l)
    ensures Parsed(Encode(l)) == Ok(l.(nodes := Sorted(l.nodes)))
  {
    PrintedNodes(l.nodes);
    PrintedExpires(l.expires);
    PrintedSignature(l.signature);
    ParsedFour(l.version, FormatInt(l.expires), Join(Sorted(l.nodes)), Base64.Encode(l.signature));
    AssembleFour(l.version, l.expires, Sorted(l.nodes), l.signature);
  }

  lemma InterpretNodes(n: string, nodes: seq<string>)
    requires n != "" && Kept(Split(n, ',')) == nodes && nodes != []
    ensures Interpret(NodesField, n) == Ok(NodesAre(nodes))
  {
  }

  lemma InterpretExpires(e: string, expires: int)
    requires ParseInt(e) == Some(expires)
    ensures Interpret(ExpiresField, e) == Ok(ExpiresIs(expires))
  {
  }

  lemma InterpretSignature(s: string, data: Bytes)
    requires Base64.Decode(s) == Some(data)
    ensures Interpret(SignatureField, s) == Ok(SignatureIs(data))
  {
  }

  /** For every record that parses, printing it and parsing that again succeeds and changes only the node order. */
  lemma ParseEncodeParse(raw: string)
    requires Parsed(raw).Ok?
    ensures Parsed(Encode(Parsed(raw).value)) == Ok(Parsed(raw).value.(nodes := Sorted(Parsed(raw).value.nodes)))
  {
    ParsedWellFormed(raw);
    RoundTrip(Parsed(raw).value);
  }

  /** What is signed determines the list up to the order of its nodes, and does not depend on that order. */
  lemma CanonicalUpToOrder(a: List, b: List)
    requires WellFormed(a) && WellFormed(b)
    ensures Canonical(a) == Canonical(b) <==>
      a.version == b.version && a.expires == b.expires && multiset(a.nodes) == multiset(b.nodes)
  {
    SortedSame(a.nodes, b.nodes);
    if Canonical(a) == Canonical(b) {
      RoundTrip(a.(signature := []));
      RoundTrip(b.(signature := []));
      assert Canonical(a.(signature := [])) == Canonical(a) && Canonical(b.(signature := [])) == Canonical(b);
    }
  }
}
