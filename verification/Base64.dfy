/** Standard base64 with padding, as section 4 of RFC 4648 defines it and encoding/base64 reads it. */
module Base64 {
  import opened Wrappers

  type Byte = b: nat | b < 256
  type Sextet = v: nat | v < 64

  function Char(v: Sextet): char {
    if v < 26 then 'A' + v as char
    else if v < 52 then 'a' + (v - 26) as char
    else if v < 62 then '0' + (v - 52) as char
    else if v == 62 then '+' else '/'
  }

  function Value(c: char): Option<Sextet> {
    if 'A' <= c <= 'Z' then Some(c as int - 'A' as int)
    else if 'a' <= c <= 'z' then Some(c as int - 'a' as int + 26)
    else if '0' <= c <= '9' then Some(c as int - '0' as int + 52)
    else if c == '+' then Some(62) else if c == '/' then Some(63) else None
  }

  lemma ValueOfChar(v: Sextet)
    ensures Value(Char(v)) == Some(v) && Char(v) != '='
  {
  }

  function Encode(data: seq<Byte>): string {
    if data == [] then ""
    else if |data| == 1 then [Char(data[0] / 4), Char(data[0] % 4 * 16), '=', '=']
    else if |data| == 2 then
      [Char(data[0] / 4), Char(data[0] % 4 * 16 + data[1] / 16), Char(data[1] % 16 * 4), '=']
    else
      [Char(data[0] / 4), Char(data[0] % 4 * 16 + data[1] / 16), Char(data[1] % 16 * 4 + data[2] / 64), Char(data[2] % 64)]
      + Encode(data[3..])
  }

  /** Line breaks are ignored wherever they occur. */
  function Unfold(s: string): string {
    if s == "" then "" else if s[0] == '\r' || s[0] == '\n' then Unfold(s[1..]) else [s[0]] + Unfold(s[1..])
  }

  function Decode(s: string): Option<seq<Byte>> { DecodeQuanta(Unfold(s)) }

  function DecodeQuanta(s: string): Option<seq<Byte>> {
    if s == "" then Some([])
    else if |s| < 4 then None
    else
      var a, b, c, d := Value(s[0]), Value(s[1]), Value(s[2]), Value(s[3]);
      if a.None? || b.None? then None
      else if |s| == 4 && s[2] == '=' && s[3] == '=' then Some([First(a.value, b.value)])
      else if c.None? then None
      else if |s| == 4 && s[3] == '=' then Some([First(a.value, b.value), Second(b.value, c.value)])
      else if d.None? then None
      else
        var rest := DecodeQuanta(s[4..]);
        if rest.None? then None
        else Some([First(a.value, b.value), Second(b.value, c.value), Third(c.value, d.value)] + rest.value)
  }

  function First(a: Sextet, b: Sextet): Byte { a * 4 + b / 16 }

  function Second(b: Sextet, c: Sextet): Byte { b % 16 * 16 + c / 4 }

  function Third(c: Sextet, d: Sextet): Byte { c % 4 * 64 + d }

  /** Every character of an encoding is a digit of the alphabet or padding. */
  lemma {:induction false} EncodeAlphabet(data: seq<Byte>, i: nat)
    requires i < |Encode(data)|
    ensures Value(Encode(data)[i]).Some? || Encode(data)[i] == '='
  {
    if |data| >= 3 && i >= 4 { EncodeAlphabet(data[3..], i - 4); }
  }

  lemma {:induction false} UnfoldPlain(s: string)
    requires forall i :: 0 <= i < |s| ==> s[i] != '\r' && s[i] != '\n'
    ensures Unfold(s) == s
  {
    if s != "" {
      UnfoldPlain(s[1..]);
      assert s == [s[0]] + s[1..];
    }
  }

  lemma {:induction false} QuantaRoundTrip(data: seq<Byte>)
    ensures DecodeQuanta(Encode(data)) == Some(data)
  {
    if |data| == 1 {
      OneByte(data[0]);
      assert data == [data[0]];
    } else if |data| == 2 {
      TwoBytes(data[0], data[1]);
      assert data == [data[0], data[1]];
    } else if |data| >= 3 {
      QuantaRoundTrip(data[3..]);
      FullQuantum(data[0], data[1], data[2], Encode(data[3..]), data[3..]);
      assert data == [data[0], data[1], data[2]] + data[3..];
    }
  }

  lemma FullQuantum(a: Byte, b: Byte, c: Byte, rest: string, decoded: seq<Byte>)
    requires DecodeQuanta(rest) == Some(decoded)
    ensures DecodeQuanta([Char(a / 4), Char(a % 4 * 16 + b / 16), Char(b % 16 * 4 + c / 64), Char(c % 64)] + rest) ==
      Some([a, b, c] + decoded)
  {
    ThreeBytes(a, b, c);
    var s := [Char(a / 4), Char(a % 4 * 16 + b / 16), Char(b % 16 * 4 + c / 64), Char(c % 64)] + rest;
    assert s[4..] == rest;
  }

  lemma OneByte(a: Byte)
    ensures DecodeQuanta([Char(a / 4), Char(a % 4 * 16), '=', '=']) == Some([a])
  {
    ValueOfChar(a / 4);
    ValueOfChar(a % 4 * 16);
  }

  lemma TwoBytes(a: Byte, b: Byte)
    ensures DecodeQuanta([Char(a / 4), Char(a % 4 * 16 + b / 16), Char(b % 16 * 4), '=']) == Some([a, b])
  {
    ValueOfChar(a / 4);
    ValueOfChar(a % 4 * 16 + b / 16);
    ValueOfChar(b % 16 * 4);
    assert First(a / 4, a % 4 * 16 + b / 16) == a;
    assert Second(a % 4 * 16 + b / 16, b % 16 * 4) == b;
  }

  lemma ThreeBytes(a: Byte, b: Byte, c: Byte)
    ensures Value(Char(a / 4)) == Some(a / 4) && Value(Char(a % 4 * 16 + b / 16)) == Some(a % 4 * 16 + b / 16)
    ensures Value(Char(b % 16 * 4 + c / 64)) == Some(b % 16 * 4 + c / 64) && Value(Char(c % 64)) == Some(c % 64)
    ensures Char(c % 64) != '=' && Char(b % 16 * 4 + c / 64) != '='
    ensures First(a / 4, a % 4 * 16 + b / 16) == a
    ensures Second(a % 4 * 16 + b / 16, b % 16 * 4 + c / 64) == b
    ensures Third(b % 16 * 4 + c / 64, c % 64) == c
  {
    ValueOfChar(a / 4);
    ValueOfChar(a % 4 * 16 + b / 16);
    ValueOfChar(b % 16 * 4 + c / 64);
    ValueOfChar(c % 64);
  }

  lemma RoundTrip(data: seq<Byte>)
    ensures Decode(Encode(data)) == Some(data)
  {
    forall i | 0 <= i < |Encode(data)| ensures Encode(data)[i] != '\r' && Encode(data)[i] != '\n' {
      EncodeAlphabet(data, i);
    }
    UnfoldPlain(Encode(data));
    QuantaRoundTrip(data);
  }
}
