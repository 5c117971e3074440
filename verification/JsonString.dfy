/** The JSON string of the proxy's error envelope, and a reader for section 7 of RFC 8259. */
module JsonString {
  import opened Wrappers
  import opened Text
  import opened SeqFacts

  function HexDigit(d: nat): char
    requires d < 16
  {
    "0123456789abcdef"[d]
  }

  function HexValue(c: char): Option<nat> {
    if '0' <= c <= '9' then Some(c as int - '0' as int)
    else if 'a' <= c <= 'f' then Some(c as int - 'a' as int + 10)
    else if 'A' <= c <= 'F' then Some(c as int - 'A' as int + 10)
    else None
  }

  /** What one character becomes. */
  function Escape(c: char): string {
    if c == '"' then "\\\""
    else if c == '\\' then "\\\\"
    else if c == '\n' then "\\n"
    else if c == '\r' then "\\r"
    else if c == '\t' then "\\t"
    else if c as int < 0x20 then "\\u00" + [HexDigit(c as int / 16), HexDigit(c as int % 16)]
    else [c]
  }

  method Print(s: string) returns (out: string)
    ensures out == "\"" + Subst(s, Escape) + "\""
  {
    out := "\"";
    for i := 0 to |s|
      invariant out == "\"" + Subst(s[..i], Escape)
    {
      out := out + Escape(s[i]);
      assert s[..i + 1] == s[..i] + [s[i]];
      SubstConcat(s[..i], [s[i]], Escape);
      assert Subst([s[i]], Escape) == Escape(s[i]);
    }
    assert s[..|s|] == s;
    out := out + "\"";
  }

  // ---------------------------------------------------------------- the reader

  function Hex4(text: string): Option<nat> {
    if |text| < 4 then None
    else match (HexValue(text[0]), HexValue(text[1]), HexValue(text[2]), HexValue(text[3]))
      case (Some(a), Some(b), Some(c), Some(d)) => Some(4096 * a + 256 * b + 16 * c + d)
      case _ => None
  }

  /** The escapes of two characters. */
  function Short(c: char): Option<char> {
    match c
    case '"' => Some('"')
    case '\\' => Some('\\')
    case '/' => Some('/')
    case 'b' => Some('\U{0008}')
    case 'f' => Some('\U{000C}')
    case 'n' => Some('\n')
    case 'r' => Some('\r')
    case 't' => Some('\t')
    case _ => None
  }

  function Scalar(n: int): Option<char> {
    if 0 <= n < 0xD800 || 0xE000 <= n < 0x11_0000 then Some(n as char) else None
  }

  /** One character of the string: no raw control character, escapes and surrogate pairs decoded. */
  function Next(text: string): Option<(char, nat)> {
    if text == [] || text[0] == '"' || text[0] as int < 0x20 then None
    else if text[0] != '\\' then Some((text[0], 1))
    else if |text| < 2 then None
    else if text[1] != 'u' then
      match Short(text[1])
      case Some(c) => Some((c, 2))
      case None => None
    else match Hex4(text[2..])
      case None => None
      case Some(hi) =>
        if 0xD800 <= hi < 0xDC00 && |text| >= 12 && text[6] == '\\' && text[7] == 'u' then
          match Hex4(text[8..])
          case Some(lo) =>
            if 0xDC00 <= lo < 0xE000 then
              match Scalar(0x1_0000 + (hi - 0xD800) * 0x400 + (lo - 0xDC00))
              case Some(c) => Some((c, 12))
              case None => None
            else None
          case None => None
        else match Scalar(hi)
          case Some(c) => Some((c, 6))
          case None => None
  }

  /** A JSON string at the front of a text, and what follows it. */
  function Read(text: string): Option<(string, string)> {
    match Strip("\"", text)
    case None => None
    case Some(inner) =>
      var (s, rest) := ReadChars(Next, inner);
      match Strip("\"", rest)
      case None => None
      case Some(after) => Some((s, after))
  }

  // ---------------------------------------------------------------- what else it reads

  /** A hexadecimal digit in either case. */
  ghost function AnyDigit(d: nat, upper: bool): char
    requires d < 16
  {
    if upper then "0123456789ABCDEF"[d] else "0123456789abcdef"[d]
  }

  ghost function FourDigits(n: nat, upper: bool): string
    requires n < 0x1_0000
  {
    [AnyDigit(n / 0x1000, upper), AnyDigit(n / 0x100 % 0x10, upper), AnyDigit(n / 0x10 % 0x10, upper), AnyDigit(n % 0x10, upper)]
  }

  lemma AnyDigitReads(d: nat, upper: bool)
    requires d < 16
    ensures HexValue(AnyDigit(d, upper)) == Some(d)
  {
  }

  lemma Digits4(n: nat)
    requires n < 0x1_0000
    ensures 4096 * (n / 4096) + 256 * (n / 256 % 16) + 16 * (n / 16 % 16) + n % 16 == n
  {
    assert n / 256 == 16 * (n / 4096) + n / 256 % 16;
    assert n / 16 == 16 * (n / 256) + n / 16 % 16;
    assert n == 16 * (n / 16) + n % 16;
  }

  lemma UnitReads(n: nat, upper: bool, rest: string)
    requires n < 0x1_0000
    ensures Hex4(FourDigits(n, upper) + rest) == Some(n)
  {
    var four := FourDigits(n, upper);
    AnyDigitReads(n / 0x1000, upper);
    AnyDigitReads(n / 0x100 % 0x10, upper);
    AnyDigitReads(n / 0x10 % 0x10, upper);
    AnyDigitReads(n % 0x10, upper);
    Digits4(n);
    assert forall i :: 0 <= i < 4 ==> (four + rest)[i] == four[i];
  }

  /** The surrogate pair of a character beyond the basic plane. */
  ghost function Pair(c: char): (nat, nat)
    requires c as int >= 0x1_0000
  {
    var v := c as int - 0x1_0000;
    (0xD800 + v / 0x400, 0xDC00 + v % 0x400)
  }

  lemma UnitFollows(n: nat, upper: bool, rest: string)
    requires n < 0x1_0000
    ensures var text := "\\u" + FourDigits(n, upper) + rest;
            |text| == 6 + |rest| && text[..2] == "\\u" && Hex4(text[2..]) == Some(n) && text[6..] == rest
  {
    var text := "\\u" + FourDigits(n, upper) + rest;
    UnitReads(n, upper, rest);
    assert text[2..] == FourDigits(n, upper) + rest;
  }

  /** Any character may be written as one escape of its number, */
  lemma EscapeReads(c: char, upper: bool, rest: string)
    requires c as int < 0x1_0000
    ensures Next("\\u" + FourDigits(c as int, upper) + rest) == Some((c, 6))
  {
    var text := "\\u" + FourDigits(c as int, upper) + rest;
    UnitFollows(c as int, upper, rest);
    assert text[0] == text[..2][0] && text[1] == text[..2][1];
  }

  lemma NextPair(text: string, hi: nat, lo: nat)
    requires |text| >= 12 && text[..2] == "\\u" && Hex4(text[2..]) == Some(hi) && 0xD800 <= hi < 0xDC00
    requires text[6..8] == "\\u" && Hex4(text[8..]) == Some(lo) && 0xDC00 <= lo < 0xE000
    ensures Next(text) == Some(((0x1_0000 + (hi - 0xD800) * 0x400 + (lo - 0xDC00)) as char, 12))
  {
    assert text[0] == text[..2][0] && text[1] == text[..2][1] && text[6] == text[6..8][0] && text[7] == text[6..8][1];
  }

  /** or as the two of its surrogate pair. */
  lemma PairReads(c: char, upper: bool, rest: string)
    requires c as int >= 0x1_0000
    ensures Next("\\u" + FourDigits(Pair(c).0, upper) + ("\\u" + FourDigits(Pair(c).1, upper) + rest)) == Some((c, 12))
  {
    var (hi, lo) := Pair(c);
    var second := "\\u" + FourDigits(lo, upper) + rest;
    var text := "\\u" + FourDigits(hi, upper) + second;
    UnitFollows(lo, upper, rest);
    UnitFollows(hi, upper, second);
    DropDrop(text, 6, 2);
    NextPair(text, hi, lo);
  }

  /** The short escapes of the standard, and no others. */
  lemma ShortReads(c: char, rest: string)
    requires c != 'u'
    ensures Next(['\\', c] + rest) ==
            if c in "\"\\/" then Some((c, 2)) else if c == 'b' then Some((8 as char, 2)) else if c == 'f' then Some((12 as char, 2))
            else if c == 'n' then Some((10 as char, 2)) else if c == 'r' then Some((13 as char, 2))
            else if c == 't' then Some((9 as char, 2)) else None
  {
    assert (['\\', c] + rest)[1] == c;
  }

  // ---------------------------------------------------------------- the round trip

  lemma HexBack(d: nat)
    requires d < 16
    ensures HexValue(HexDigit(d)) == Some(d)
  {
  }

  lemma ControlReads(c: char, rest: string)
    requires c as int < 0x20 && c !in "\n\r\t"
    ensures Next(Escape(c) + rest) == Some((c, 6)) && |Escape(c)| == 6
  {
    var hi, lo := c as int / 16, c as int % 16;
    var text := Escape(c) + rest;
    HexBack(hi);
    HexBack(lo);
    assert text[2..][0] == '0' && text[2..][1] == '0' && text[2..][2] == HexDigit(hi) && text[2..][3] == HexDigit(lo);
    assert 16 * hi + lo == c as int;
    assert Hex4(text[2..]) == Some(c as int);
  }

  lemma CharReads(c: char)
    ensures Reads(Next, Escape, c)
  {
    forall rest ensures Next(Escape(c) + rest) == Some((c, |Escape(c)|)) {
      if c as int < 0x20 && c !in "\n\r\t" {
        ControlReads(c, rest);
      } else {
        var text := Escape(c) + rest;
        assert |Escape(c)| <= 2 && text[0] == Escape(c)[0];
        assert |Escape(c)| == 2 ==> text[1] == Escape(c)[1];
      }
    }
  }

  /** For every string, and whatever follows it in the envelope. */
  lemma RoundTrip(s: string, rest: string)
    ensures Read("\"" + Subst(s, Escape) + "\"" + rest) == Some((s, rest))
  {
    var body := Subst(s, Escape);
    assert "\"" + body + "\"" + rest == "\"" + (body + ("\"" + rest));
    StripBack("\"", body + ("\"" + rest));
    forall c | c in s ensures Reads(Next, Escape, c) {
      CharReads(c);
    }
    ReadBack(Next, Escape, s, "\"" + rest);
    StripBack("\"", rest);
  }
}
