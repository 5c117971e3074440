/** UTF-16LE with a byte-order mark, as the task importer reads it. */
module Utf16 {
  import opened Wrappers

  type Byte = n: int | 0 <= n < 256
  type Unit = n: int | 0 <= n < 0x1_0000

  /** One scalar as one or two code units. */
  function Units(c: char): seq<Unit> {
    var n := c as int;
    if n < 0x1_0000 then [n]
    else [0xD800 + (n - 0x1_0000) / 0x400, 0xDC00 + (n - 0x1_0000) % 0x400]
  }

  function Bytes(u: Unit): seq<Byte> { [u % 256, u / 256] }

  function CharBytes(c: char): seq<Byte> {
    var us := Units(c);
    if |us| == 1 then Bytes(us[0]) else Bytes(us[0]) + Bytes(us[1])
  }

  function Body(s: string): seq<Byte> {
    if s == [] then [] else CharBytes(s[0]) + Body(s[1..])
  }

  method Encode(s: string) returns (out: seq<Byte>)
    ensures out == [0xFF, 0xFE] + Body(s)
  {
    out := [0xFF, 0xFE];
    for i := 0 to |s|
      invariant out + Body(s[i..]) == [0xFF, 0xFE] + Body(s)
    {
      out := out + CharBytes(s[i]);
    }
    assert s[|s|..] == [];
  }

  // ---------------------------------------------------------------- the reader

  function UnitAt(b: seq<Byte>): Unit
    requires |b| >= 2
  {
    (b[0] as int) + 256 * (b[1] as int)
  }

  /** Pairs surrogates, and refuses a lone one or an odd byte. */
  function DecodeBody(b: seq<Byte>): Option<string>
    decreases |b|
  {
    if b == [] then Some([])
    else if |b| < 2 then None
    else
      var u := UnitAt(b);
      if u < 0xD800 || 0xE000 <= u then
        match DecodeBody(b[2..]) { case None => None case Some(s) => Some([u as char] + s) }
      else if u < 0xDC00 && |b| >= 4 && 0xDC00 <= UnitAt(b[2..]) < 0xE000 then
        var n := 0x1_0000 + (u - 0xD800) * 0x400 + (UnitAt(b[2..]) - 0xDC00);
        match DecodeBody(b[4..]) { case None => None case Some(s) => Some([n as char] + s) }
      else None
  }

  function Decode(b: seq<Byte>): Option<string> {
    if [0xFF, 0xFE] <= b then DecodeBody(b[2..]) else None
  }

  lemma BytesBack(u: Unit, rest: seq<Byte>)
    ensures |Bytes(u) + rest| >= 2 && UnitAt(Bytes(u) + rest) == u && (Bytes(u) + rest)[2..] == rest
  {
    var b := Bytes(u) + rest;
    assert b[0] == u % 256 && b[1] == u / 256;
  }

  lemma PlainBack(c: char, tail: seq<Byte>, s: string)
    requires c as int < 0x1_0000 && DecodeBody(tail) == Some(s)
    ensures DecodeBody(CharBytes(c) + tail) == Some([c] + s)
  {
    BytesBack(c as int, tail);
  }

  lemma PairBack(hi: Unit, lo: Unit, tail: seq<Byte>)
    ensures var b := Bytes(hi) + Bytes(lo) + tail;
            |b| >= 4 && UnitAt(b) == hi && UnitAt(b[2..]) == lo && b[4..] == tail
  {
    var b := Bytes(hi) + Bytes(lo) + tail;
    assert b == Bytes(hi) + (Bytes(lo) + tail);
    BytesBack(hi, Bytes(lo) + tail);
    BytesBack(lo, tail);
    assert b[4..] == b[2..][2..];
  }

  lemma SurrogatesBack(c: char, tail: seq<Byte>, s: string)
    requires c as int >= 0x1_0000 && DecodeBody(tail) == Some(s)
    ensures DecodeBody(CharBytes(c) + tail) == Some([c] + s)
  {
    var us, v := Units(c), c as int - 0x1_0000;
    PairBack(us[0], us[1], tail);
    assert (v / 0x400) * 0x400 + v % 0x400 == v && 0 <= v / 0x400 < 0x400;
  }

  lemma {:induction false} BodyRoundTrip(s: string)
    ensures DecodeBody(Body(s)) == Some(s)
  {
    if s != [] {
      BodyRoundTrip(s[1..]);
      assert [s[0]] + s[1..] == s;
      if s[0] as int < 0x1_0000 {
        PlainBack(s[0], Body(s[1..]), s[1..]);
      } else {
        SurrogatesBack(s[0], Body(s[1..]), s[1..]);
      }
    }
  }

  /** Every string survives the encoding. */
  lemma RoundTrip(s: string)
    ensures Decode([0xFF, 0xFE] + Body(s)) == Some(s)
  {
    assert ([0xFF, 0xFE] + Body(s))[2..] == Body(s);
    BodyRoundTrip(s);
  }
}
