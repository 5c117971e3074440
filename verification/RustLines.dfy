/** What the span scanner's brace counter makes of lines of Rust: a small grammar of lines, and exactly
    which of its literals the counter sees through. */
module RustLines {

  // ---------------------------------------------------------------- what the counter takes for code

  /** How long a character literal at the front of the text is, as far as the scanner can tell: one
      character, or one after a backslash, between quotes.  Zero when it sees none. */
  function LiteralLength(text: string): (n: nat)
    ensures n <= |text|
  {
    var j := if |text| > 1 && text[1] == '\\' then 2 else 1;
    if text != [] && text[0] == '\'' && j + 1 < |text| && text[j + 1] == '\'' then j + 2 else 0
  }

  /** What the scanner takes for code; `q` says that the text starts inside a string. */
  function Code(text: string, q: bool): string
    decreases |text|
  {
    if text == [] then []
    else if !q && "//" <= text then []
    else if text[0] == '"' then Code(text[1..], !q)
    else if q then Code(text[1..], q)
    else if LiteralLength(text) > 0 then Code(text[LiteralLength(text)..], q)
    else [text[0]] + Code(text[1..], q)
  }

  function Tally(s: string, c: char): nat {
    if s == [] then 0 else (if s[0] == c then 1 else 0) + Tally(s[1..], c)
  }

  /** How often `c` occurs. */
  lemma {:induction false} TallyCounts(s: string, c: char)
    ensures Tally(s, c) == multiset(s)[c]
  {
    if s != [] {
      TallyCounts(s[1..], c);
      assert s == [s[0]] + s[1..];
    }
  }

  // ---------------------------------------------------------------- lines of Rust

  datatype Token =
    | Char(c: char)            // one character of code
    | Lifetime(name: string)
    | Str(body: string)        // as written between the quotes
    | CharLit(body: string)
    | Comment(text: string)    // to the end of the line

  function Show(t: Token): string {
    match t
    case Char(c) => [c]
    case Lifetime(name) => "'" + name
    case Str(body) => "\"" + (body + "\"")
    case CharLit(body) => "'" + (body + "'")
    case Comment(text) => "//" + text
  }

  function Print(ts: seq<Token>): string {
    if ts == [] then [] else Show(ts[0]) + Print(ts[1..])
  }

  /** The part of a token that is code. */
  function CodeOf(t: Token): string {
    if t.Char? || t.Lifetime? then Show(t) else []
  }

  function CodeIn(ts: seq<Token>): string {
    if ts == [] then [] else CodeOf(ts[0]) + CodeIn(ts[1..])
  }

  /** Every quote and every backslash is written with a backslash before it. */
  predicate Escaped(s: string) {
    s == [] ||
    (if s[0] == '\\' then |s| >= 2 && Escaped(s[2..]) else s[0] != '"' && Escaped(s[1..]))
  }

  predicate WellFormed(t: Token) {
    match t
    case Char(c) => c != '"' && c != '\''
    case Lifetime(name) => name != [] && forall c :: c in name ==> c !in "\"'/\\"
    case Str(body) => Escaped(body)
    // one character, or an escape such as `n`, `x41` or `u{1F600}` after a backslash
    case CharLit(body) =>
      if |body| == 1 then body[0] != '\'' && body[0] != '\\'
      else |body| >= 2 && body[0] == '\\' && '\'' !in body[2..]
    case Comment(_) => true
  }

  /** `rest` may follow `t`: otherwise the two would make a comment or a character literal together. */
  predicate MayFollow(t: Token, rest: string) {
    && (t.Char? && t.c == '/' ==> rest == [] || rest[0] != '/')
    && (t.Lifetime? && |t.name| == 1 ==> rest == [] || rest[0] != '\'')
    && (t.Comment? ==> rest == [])
  }

  predicate Line(ts: seq<Token>) {
    ts == [] || (WellFormed(ts[0]) && MayFollow(ts[0], Print(ts[1..])) && Line(ts[1..]))
  }

  /** No quote inside a string, and at most one character after the backslash of a character literal. */
  predicate Simple(t: Token) {
    (t.Str? ==> '"' !in t.body) && (t.CharLit? ==> |t.body| <= 2)
  }

  predicate AllSimple(ts: seq<Token>) { forall t :: t in ts ==> Simple(t) }

  /** The counter takes for code what is code. */
  predicate SeesCode(ts: seq<Token>) { Code(Print(ts), false) == CodeIn(ts) }

  // ---------------------------------------------------------------- simple literals are seen through

  lemma {:induction false} InString(body: string, rest: string)
    requires '"' !in body
    ensures Code(body + rest, true) == Code(rest, true)
  {
    if body == [] {
      assert body + rest == rest;
    } else {
      assert (body + rest)[1..] == body[1..] + rest;
      InString(body[1..], rest);
    }
  }

  lemma {:induction false} InName(name: string, rest: string)
    requires forall c :: c in name ==> c !in "\"'/\\"
    ensures Code(name + rest, false) == name + Code(rest, false)
  {
    if name == [] {
      assert name + rest == rest;
    } else {
      var text := name + rest;
      assert text[1..] == name[1..] + rest;
      assert text[0] in name;
      InName(name[1..], rest);
    }
  }

  lemma StringSeen(body: string, rest: string)
    requires '"' !in body
    ensures Code(Show(Str(body)) + rest, false) == Code(rest, false)
  {
    var text, end := Show(Str(body)) + rest, "\"" + rest;
    assert text[0] == '"' && text[1..] == body + end;
    InString(body, end);
    assert end[0] == '"' && end[1..] == rest;
  }

  lemma LiteralSeen(body: string, rest: string)
    requires WellFormed(CharLit(body)) && |body| <= 2
    ensures Code(Show(CharLit(body)) + rest, false) == Code(rest, false)
  {
    var text := Show(CharLit(body)) + rest;
    assert text[1] == body[0] && text[|body| + 1] == '\'';
    assert text[|body| + 2..] == rest;
  }

  lemma LifetimeSeen(name: string, rest: string)
    requires WellFormed(Lifetime(name)) && MayFollow(Lifetime(name), rest)
    ensures Code(Show(Lifetime(name)) + rest, false) == Show(Lifetime(name)) + Code(rest, false)
  {
    var text := Show(Lifetime(name)) + rest;
    assert text[1..] == name + rest;
    assert name[0] in name && text[1] == name[0];
    assert |name| > 1 ==> text[2] == name[1] && name[1] in name;
    InName(name, rest);
  }

  lemma TokenSeen(t: Token, rest: string)
    requires WellFormed(t) && MayFollow(t, rest) && Simple(t)
    ensures Code(Show(t) + rest, false) == CodeOf(t) + Code(rest, false)
  {
    match t
    case Char(c) => assert (Show(t) + rest)[1..] == rest;
    case Lifetime(name) => LifetimeSeen(name, rest);
    case Str(body) => StringSeen(body, rest);
    case CharLit(body) => LiteralSeen(body, rest);
    case Comment(text) => assert "//" <= Show(t) + rest;
  }

  /** Lines of simple tokens are read right: braces are counted in code and nowhere else. */
  lemma {:induction false} LineSeen(ts: seq<Token>)
    requires Line(ts) && AllSimple(ts)
    ensures SeesCode(ts)
  {
    if ts != [] {
      assert ts[0] in ts && forall t :: t in ts[1..] ==> t in ts;
      LineSeen(ts[1..]);
      TokenSeen(ts[0], Print(ts[1..]));
    }
  }

  // ---------------------------------------------------------------- and no others

  /** The scanner takes the first escaped quote for the end of the string; `u` is what is left of it. */
  lemma {:induction false} ClosesEarly(body: string) returns (u: string)
    requires Escaped(body) && '"' in body
    ensures Escaped(u) && forall rest :: Code(body + rest, true) == Code(u + rest, false)
  {
    var k := if body[0] == '\\' then 2 else 1;
    if k == 2 && body[1] == '"' {
      u := body[2..];
      forall rest ensures Code(body + rest, true) == Code(u + rest, false) {
        SkipTwo(body, rest);
      }
    } else {
      u := ClosesEarly(body[k..]);
      forall rest ensures Code(body + rest, true) == Code(u + rest, false) {
        if k == 2 {
          SkipTwo(body, rest);
        } else {
          assert (body + rest)[1..] == body[1..] + rest;
        }
      }
    }
  }

  lemma SkipTwo(body: string, rest: string)
    requires |body| >= 2 && body[0] == '\\'
    ensures Code(body + rest, true) == Code(body[2..] + rest, body[1] != '"')
  {
    var text := body + rest;
    assert text[1..][0] == body[1] && text[1..][1..] == body[2..] + rest;
  }

  /** From there on it cannot come out right both at the end of the line and before one more character. */
  lemma {:induction false} NeverRecovers(u: string)
    requires Escaped(u)
    ensures Code(u + "\"", false) != [] || Code(u + "\"x", false) != "x"
    decreases |u|
  {
    var a, b := u + "\"", u + "\"x";
    if u == [] {
      assert b[1..] == "x" && Code("x", true) == Code("x"[1..], true);
    } else if "//" <= b {
      assert Code(b, false) == [];
    } else if LiteralLength(b) == 0 {
      SameLength(u);
      assert !("//" <= a) by {
        assert |u| > 1 ==> a[1] == b[1];
      }
    } else {
      var n := LiteralLength(b);
      SameLength(u);
      LiteralInside(u);
      assert a[n..] == u[n..] + "\"" && b[n..] == u[n..] + "\"x";
      NeverRecovers(u[n..]);
    }
  }

  lemma SameLength(u: string)
    requires Escaped(u) && u != []
    ensures LiteralLength(u + "\"") == LiteralLength(u + "\"x")
  {
    var a, b := u + "\"", u + "\"x";
    assert forall k :: 0 <= k < |a| ==> a[k] == b[k];
    assert a[|u|] == '"' && b[|u| + 1] == 'x';
    if u[0] == '\'' {
      assert |u| >= 2 && u[1] == '\\' ==> |u| >= 3;
    }
  }

  lemma LiteralInside(u: string)
    requires Escaped(u) && u != [] && LiteralLength(u + "\"x") > 0
    ensures LiteralLength(u + "\"x") <= |u| && Escaped(u[LiteralLength(u + "\"x")..])
  {
    var b := u + "\"x";
    var n := LiteralLength(b);
    assert u[0] == '\'' && b[n - 1] == '\'';
    assert u[1..] == [] || Escaped(u[1..]);
    if |u| >= 2 && u[1] == '\\' {
      assert u[1..][0] == '\\' && u[1..][2..] == u[3..] && Escaped(u[3..]);
      assert n == 4 && b[3] == '\'' && |u| > 3;
      assert u[3..][0] == '\'' && u[3..][1..] == u[4..];
    } else {
      assert n == 3 && b[2] == '\'' && |u| > 2;
      assert u[1..][0] == u[1] && u[1..][1..] == u[2..] && Escaped(u[2..]);
      assert u[2..][0] == '\'' && u[2..][1..] == u[3..];
    }
  }

  /** The same token before nothing, or before one plain character, is read wrong. */
  lemma StringNotSeen(body: string)
    requires Escaped(body) && '"' in body
    ensures !SeesCode([Str(body)]) || !SeesCode([Str(body), Char('x')])
  {
    var u := ClosesEarly(body);
    NeverRecovers(u);
    PrintOne(Str(body));
    PrintTwo(Str(body), Char('x'));
    Opened(body, "\"");
    Opened(body, "\"x");
    assert Show(Str(body)) == "\"" + (body + "\"");
    assert Show(Str(body)) + Show(Char('x')) == "\"" + (body + "\"x");
  }

  lemma Opened(body: string, rest: string)
    ensures Code("\"" + (body + rest), false) == Code(body + rest, true)
  {
    var text := "\"" + (body + rest);
    assert text[0] == '"' && text[1..] == body + rest;
  }

  lemma PrintOne(t: Token)
    ensures Print([t]) == Show(t) && CodeIn([t]) == CodeOf(t)
  {
    assert [t][1..] == [];
  }

  lemma PrintTwo(t: Token, t': Token)
    ensures Print([t, t']) == Show(t) + Show(t') && CodeIn([t, t']) == CodeOf(t) + CodeOf(t')
  {
    assert [t, t'][1..] == [t'];
    PrintOne(t');
  }

  lemma LiteralNotSeen(body: string)
    requires WellFormed(CharLit(body)) && |body| > 2
    ensures !SeesCode([CharLit(body)])
  {
    var text := Show(CharLit(body));
    PrintOne(CharLit(body));
    assert text[1] == '\\' && text[3] == body[2] && body[2] == body[2..][0];
    assert LiteralLength(text) == 0;
  }

  /** In every line whose other tokens are simple, `t` in front is read right. */
  ghost predicate SafeInFront(t: Token) {
    forall rest :: Line([t] + rest) && AllSimple(rest) ==> SeesCode([t] + rest)
  }

  /** A token is safe exactly when it is simple: an escaped quote in a string and an escape of several
      characters in a character literal are what the counter gets wrong, and all that it gets wrong. */
  lemma SafeExactly(t: Token)
    requires WellFormed(t)
    ensures SafeInFront(t) <==> Simple(t)
  {
    if Simple(t) {
      forall rest | Line([t] + rest) && AllSimple(rest) ensures SeesCode([t] + rest) {
        assert forall x :: x in [t] + rest ==> x == t || x in rest;
        LineSeen([t] + rest);
      }
    } else {
      LineOf(t, []);
      LineOf(t, [Char('x')]);
      assert [t] + [] == [t] && [t] + [Char('x')] == [t, Char('x')];
      if t.Str? {
        StringNotSeen(t.body);
      } else {
        LiteralNotSeen(t.body);
      }
    }
  }

  lemma LineOf(t: Token, rest: seq<Token>)
    requires WellFormed(t) && (t.Str? || t.CharLit?) && Line(rest)
    ensures Line([t] + rest)
  {
    assert ([t] + rest)[1..] == rest;
  }

  /** A string with an escaped quote and a brace: nothing in it is code, and a brace is counted. */
  lemma FailingLine()
    ensures Line([Str("\\\"{")]) && CodeIn([Str("\\\"{")]) == [] && Print([Str("\\\"{")]) == "\"\\\"{\""
    ensures Tally(Code("\"\\\"{\"", false), '{') == 1
  {
    var body := "\\\"{";
    PrintOne(Str(body));
    assert body[2..] == "{" && "{"[1..] == [];
    assert Line([]);
    LineOf(Str(body), []);
    assert [Str(body)] + [] == [Str(body)];
    var line := "\"\\\"{\"";
    assert line[1..] == "\\\"{\"" && line[1..][1..] == "\"{\"" && line[1..][1..][1..] == "{\"";
    assert "{\""[1..] == "\"" && "\""[1..] == [];
    assert Code("{\"", false) == "{";
  }
}
