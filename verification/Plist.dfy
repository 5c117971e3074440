/** The generated LaunchAgent property list, and a reader of its character data. */
module Plist {
  import opened Wrappers
  import opened Text
  import opened SeqFacts

  type Env = seq<(string, string)>

  /** Three passes, the ampersand first. */
  function XmlEscape(s: string): string {
    Replace(Replace(Replace(s, '&', "&amp;"), '<', "&lt;"), '>', "&gt;")
  }

  /** What the three passes do to one character. */
  function Escape(c: char): string {
    if c == '&' then "&amp;" else if c == '<' then "&lt;" else if c == '>' then "&gt;" else [c]
  }

  lemma EscapeOnce(s: string)
    ensures XmlEscape(s) == Subst(s, Escape)
  {
    TwoPasses(s);
    forall c ensures Escape(c) == Replace(EscapeTwo(c), '>', "&gt;") {
      Untouched(EscapeTwo(c), '>', "&gt;");
    }
    SubstTwice(s, EscapeTwo, ReplaceWith('>', "&gt;"), Escape);
  }

  lemma TwoPasses(s: string)
    ensures Replace(Replace(s, '&', "&amp;"), '<', "&lt;") == Subst(s, EscapeTwo)
  {
    forall c ensures EscapeTwo(c) == Replace(ReplaceWith('&', "&amp;")(c), '<', "&lt;") {
      Untouched(ReplaceWith('&', "&amp;")(c), '<', "&lt;");
    }
    SubstTwice(s, ReplaceWith('&', "&amp;"), ReplaceWith('<', "&lt;"), EscapeTwo);
  }

  /** What the first two passes do to one character. */
  function EscapeTwo(c: char): string {
    if c == '&' then "&amp;" else if c == '<' then "&lt;" else [c]
  }

  lemma {:induction false} Untouched(s: string, c: char, text: string)
    ensures c !in s ==> Replace(s, c, text) == s
    ensures s == [c] ==> Replace(s, c, text) == text
  {
    if s != [] {
      Untouched(s[1..], c, text);
    }
  }

  // ---------------------------------------------------------------- the document

  /** The fixed text around the values: before the arguments, between them and the log, around the log. */
  datatype Frame = Frame(head: string, run: string, between: string, tail: string)

  const OPEN := "    <string>"
  const CLOSE := "</string>\n"
  const ENV_OPEN := "  <key>EnvironmentVariables</key>\n  <dict>\n"
  const ENV_CLOSE := "  </dict>\n"
  const KEY_OPEN := "    <key>"
  const KEY_CLOSE := "</key>\n    <string>"
  const ARRAY_END := "  </array>\n"

  function StringLine(a: string): string { OPEN + (XmlEscape(a) + CLOSE) }

  function StringLines(xs: seq<string>): string {
    if xs == [] then [] else StringLine(xs[0]) + StringLines(xs[1..])
  }

  function EnvLine(k: string, v: string): string { KEY_OPEN + (XmlEscape(k) + (KEY_CLOSE + (XmlEscape(v) + CLOSE))) }

  function EnvLines(env: Env): string {
    if env == [] then [] else EnvLine(env[0].0, env[0].1) + EnvLines(env[1..])
  }

  function EnvBlock(env: Env): string {
    if env == [] then [] else ENV_OPEN + (EnvLines(env) + ENV_CLOSE)
  }

  /** Program first, then the arguments; the environment block only when there is an environment. */
  function Document(f: Frame, argv: seq<string>, env: Env, log: string): string {
    f.head + (StringLines(argv) + (ARRAY_END + (EnvBlock(env) +
      (f.run + (XmlEscape(log) + (f.between + (XmlEscape(log) + f.tail)))))))
  }

  method PrintStrings(xs: seq<string>) returns (out: string)
    ensures out == StringLines(xs)
  {
    out := "";
    for i := 0 to |xs|
      invariant out + StringLines(xs[i..]) == StringLines(xs)
    {
      out := out + StringLine(xs[i]);
    }
    assert xs[|xs|..] == [];
  }

  method PrintEnv(env: Env) returns (out: string)
    ensures out == EnvBlock(env)
  {
    if env == [] { return ""; }
    var lines := PrintPairs(env);
    out := ENV_OPEN + (lines + ENV_CLOSE);
  }

  method PrintPairs(env: Env) returns (lines: string)
    ensures lines == EnvLines(env)
  {
    lines := "";
    for i := 0 to |env|
      invariant lines + EnvLines(env[i..]) == EnvLines(env)
    {
      DropDrop(env, i, 1);
      Assoc(lines, EnvLine(env[i].0, env[i].1), EnvLines(env[i + 1..]));
      lines := lines + EnvLine(env[i].0, env[i].1);
    }
  }

  method LaunchdPlist(f: Frame, program: string, args: seq<string>, env: Env, log: string) returns (doc: string)
    ensures doc == Document(f, [program] + args, env, log)
  {
    var progArgs := PrintStrings([program] + args);
    var envBlock := PrintEnv(env);
    doc := f.head + (progArgs + (ARRAY_END + (envBlock +
             (f.run + (XmlEscape(log) + (f.between + (XmlEscape(log) + f.tail)))))));
  }

  // ---------------------------------------------------------------- the reader

  /** The characters a document may hold at all (section 2.2 of XML 1.0); surrogates are no characters. */
  predicate IsXmlChar(c: char) {
    var n := c as int;
    n == 0x9 || n == 0xA || n == 0xD || 0x20 <= n <= 0xD7FF || 0xE000 <= n <= 0xFFFD || 0x1_0000 <= n <= 0x10_FFFF
  }

  /** The characters that are left once line ends are normalised. */
  predicate IsPlainChar(c: char)
    ensures IsPlainChar(c) <==> c == '\t' || c == '\n' || (' ' <= c && c as int != 0xFFFE && c as int != 0xFFFF)
  {
    IsXmlChar(c) && c != '\r'
  }

  ghost predicate IsPlain(s: string) { forall c :: c in s ==> IsPlainChar(c) }

  /** One character of character data (section 2.4 of XML 1.0), in a text with normalised line ends. */
  function NextData(text: string): Option<(char, nat)> {
    if text == [] || text[0] == '<' || !IsPlainChar(text[0]) then None
    else if text[0] != '&' then Some((text[0], 1))
    else if "&amp;" <= text then Some(('&', 5))
    else if "&lt;" <= text then Some(('<', 4))
    else if "&gt;" <= text then Some(('>', 4))
    else None
  }

  function ReadData(close: string, text: string): Option<(string, string)> {
    var (s, rest) := ReadChars(NextData, text);
    match Strip(close, rest)
    case None => None
    case Some(after) => Some((s, after))
  }

  function ReadStrings(text: string): Option<(seq<string>, string)>
    decreases |text|
  {
    match Strip(OPEN, text)
    case None => Some(([], text))
    case Some(t) =>
      match ReadData(CLOSE, t)
      case None => None
      case Some((x, t2)) =>
        if |t2| >= |text| then None
        else match ReadStrings(t2)
          case None => None
          case Some((xs, rest)) => Some(([x] + xs, rest))
  }

  function ReadPairs(text: string): Option<(Env, string)>
    decreases |text|
  {
    match Strip(KEY_OPEN, text)
    case None => Some(([], text))
    case Some(t) =>
      match ReadData(KEY_CLOSE, t)
      case None => None
      case Some((k, t2)) =>
        match ReadData(CLOSE, t2)
        case None => None
        case Some((v, t3)) =>
          if |t3| >= |text| then None
          else match ReadPairs(t3)
            case None => None
            case Some((env, rest)) => Some(([(k, v)] + env, rest))
  }

  /** What a document says: the command line, the environment, and where the two output streams go. */
  datatype Agent = Agent(argv: seq<string>, env: Env, out: string, err: string)

  /** The environment block is optional. */
  function ReadBlock(text: string): Option<(Env, string)> {
    match Strip(ENV_OPEN, text)
    case None => Some(([], text))
    case Some(t) =>
      match ReadPairs(t)
      case None => None
      case Some((env, t2)) =>
        match Strip(ENV_CLOSE, t2)
        case None => None
        case Some(rest) => Some((env, rest))
  }

  /** The two log paths, up to the very end of the text. */
  function ReadLogs(f: Frame, text: string): Option<(string, string)> {
    match Strip(f.run, text)
    case None => None
    case Some(t) =>
      match ReadData(f.between, t)
      case None => None
      case Some((out, t2)) =>
        match ReadData(f.tail, t2)
        case None => None
        case Some((err, rest)) => if rest == [] then Some((out, err)) else None
  }

  function ReadDocument(f: Frame, text: string): Option<Agent> {
    match Strip(f.head, text)
    case None => None
    case Some(t) =>
      match ReadStrings(t)
      case None => None
      case Some((argv, t2)) =>
        match Strip(ARRAY_END, t2)
        case None => None
        case Some(t3) =>
          match ReadBlock(t3)
          case None => None
          case Some((env, t4)) =>
            match ReadLogs(f, t4)
            case None => None
            case Some((out, err)) => Some(Agent(argv, env, out, err))
  }

  // ---------------------------------------------------------------- the round trip

  lemma DataBack(s: string, close: string, rest: string)
    requires close != [] && close[0] == '<' && IsPlain(s)
    ensures ReadData(close, XmlEscape(s) + (close + rest)) == Some((s, rest))
  {
    EscapeOnce(s);
    forall c | c in s ensures Reads(NextData, Escape, c) {
      CharReads(c);
    }
    ReadBack(NextData, Escape, s, close + rest);
    StripBack(close, rest);
  }

  lemma CharReads(c: char)
    requires IsPlainChar(c)
    ensures Reads(NextData, Escape, c)
  {
    forall rest: string ensures var used: nat := |Escape(c)|; NextData(Escape(c) + rest) == Some((c, used)) {
      var text := Escape(c) + rest;
      assert text[0] == Escape(c)[0];
      assert c in "&<>" ==> Escape(c) <= text && text[1] == Escape(c)[1];
    }
  }

  lemma {:induction false} StringsBack(xs: seq<string>, rest: string)
    requires !(OPEN <= rest) && forall x :: x in xs ==> IsPlain(x)
    ensures ReadStrings(StringLines(xs) + rest) == Some((xs, rest))
  {
    if xs == [] {
      assert StringLines(xs) + rest == rest;
    } else {
      var tail := StringLines(xs[1..]) + rest;
      var t := XmlEscape(xs[0]) + (CLOSE + tail);
      Regroup(OPEN, XmlEscape(xs[0]), CLOSE, tail);
      Assoc(StringLine(xs[0]), StringLines(xs[1..]), rest);
      StripBack(OPEN, t);
      DataBack(xs[0], CLOSE, tail);
      StringsBack(xs[1..], rest);
      assert [xs[0]] + xs[1..] == xs;
    }
  }

  ghost predicate EnvPlain(env: Env) {
    forall i :: 0 <= i < |env| ==> IsPlain(env[i].0) && IsPlain(env[i].1)
  }

  /** One pair in front of a text that reads. */
  lemma PairBack(k: string, v: string, tail: string)
    requires IsPlain(k) && IsPlain(v)
    ensures ReadPairs(EnvLine(k, v) + tail) ==
            match ReadPairs(tail) case None => None case Some((env, rest)) => Some(([(k, v)] + env, rest))
  {
    var t2 := XmlEscape(v) + (CLOSE + tail);
    var t := XmlEscape(k) + (KEY_CLOSE + t2);
    assert EnvLine(k, v) + tail == KEY_OPEN + t by {
      Regroup5(KEY_OPEN, XmlEscape(k), KEY_CLOSE, XmlEscape(v), CLOSE, tail, []);
      assert tail + [] == tail;
    }
    StripBack(KEY_OPEN, t);
    DataBack(k, KEY_CLOSE, t2);
    DataBack(v, CLOSE, tail);
  }

  lemma {:induction false} PairsBack(env: Env, rest: string)
    requires !(KEY_OPEN <= rest) && EnvPlain(env)
    ensures ReadPairs(EnvLines(env) + rest) == Some((env, rest))
  {
    if env == [] {
      assert EnvLines(env) + rest == rest;
    } else {
      var line, lines := EnvLine(env[0].0, env[0].1), EnvLines(env[1..]);
      Assoc(line, lines, rest);
      PairBack(env[0].0, env[0].1, lines + rest);
      PairsBack(env[1..], rest);
      assert [env[0]] + env[1..] == env;
    }
  }

  /** Markup follows each log path, and the text after the environment starts like no environment block. */
  ghost predicate WellFramed(f: Frame) {
    && |f.run| > 7 && f.run[7] != 'E'
    && f.between != [] && f.between[0] == '<'
    && f.tail != [] && f.tail[0] == '<'
  }

  /** Every value is made of characters a document may hold, without carriage returns. */
  ghost predicate AllPlain(argv: seq<string>, env: Env, log: string) {
    (forall x :: x in argv ==> IsPlain(x)) && EnvPlain(env) && IsPlain(log)
  }

  /** Every argument, every environment pair and both log paths read back. */
  lemma DocumentRoundTrip(f: Frame, argv: seq<string>, env: Env, log: string)
    requires WellFramed(f) && AllPlain(argv, env, log)
    ensures ReadDocument(f, Document(f, argv, env, log)) == Some(Agent(argv, env, log, log))
  {
    var end := f.run + (XmlEscape(log) + (f.between + (XmlEscape(log) + f.tail)));
    var t3 := EnvBlock(env) + end;
    StripBack(f.head, StringLines(argv) + (ARRAY_END + t3));
    assert (ARRAY_END + t3)[2] == '<';
    StringsBack(argv, ARRAY_END + t3);
    StripBack(ARRAY_END, t3);
    BlockBack(f, env, end);
    LogsBack(f, log);
  }

  lemma LogsBack(f: Frame, log: string)
    requires WellFramed(f) && IsPlain(log)
    ensures ReadLogs(f, f.run + (XmlEscape(log) + (f.between + (XmlEscape(log) + f.tail)))) == Some((log, log))
  {
    var t2 := XmlEscape(log) + f.tail;
    StripBack(f.run, XmlEscape(log) + (f.between + t2));
    DataBack(log, f.between, t2);
    assert f.tail + [] == f.tail;
    DataBack(log, f.tail, []);
  }

  lemma BlockBack(f: Frame, env: Env, end: string)
    requires WellFramed(f) && f.run <= end && EnvPlain(env)
    ensures ReadBlock(EnvBlock(env) + end) == Some((env, end))
  {
    if env == [] {
      assert EnvBlock(env) + end == end;
      assert ENV_OPEN[7] == 'E' && end[7] == f.run[7];
    } else {
      Regroup(ENV_OPEN, EnvLines(env), ENV_CLOSE, end);
      StripBack(ENV_OPEN, EnvLines(env) + (ENV_CLOSE + end));
      assert (ENV_CLOSE + end)[2] == '<';
      PairsBack(env, ENV_CLOSE + end);
      StripBack(ENV_CLOSE, end);
    }
  }

  lemma {:induction false} DataIsPlain(text: string)
    ensures IsPlain(ReadChars(NextData, text).0)
    decreases |text|
  {
    match NextData(text)
    case None =>
    case Some((c, k)) =>
      if 1 <= k <= |text| {
        DataIsPlain(text[k..]);
      }
  }

  lemma {:induction false} StringsArePlain(text: string)
    ensures ReadStrings(text).Some? ==> forall x :: x in ReadStrings(text).value.0 ==> IsPlain(x)
    decreases |text|
  {
    match Strip(OPEN, text)
    case None =>
    case Some(t) =>
      DataIsPlain(t);
      match ReadData(CLOSE, t)
      case None =>
      case Some((x, t2)) =>
        if |t2| < |text| {
          StringsArePlain(t2);
        }
  }

  lemma {:induction false} PairsArePlain(text: string)
    ensures ReadPairs(text).Some? ==> EnvPlain(ReadPairs(text).value.0)
    decreases |text|
  {
    match Strip(KEY_OPEN, text)
    case None =>
    case Some(t) =>
      DataIsPlain(t);
      match ReadData(KEY_CLOSE, t)
      case None =>
      case Some((k, t2)) =>
        DataIsPlain(t2);
        match ReadData(CLOSE, t2)
        case None =>
        case Some((v, t3)) =>
          if |t3| < |text| {
            PairsArePlain(t3);
          }
  }

  lemma BlockIsPlain(text: string)
    ensures ReadBlock(text).Some? ==> EnvPlain(ReadBlock(text).value.0)
  {
    match Strip(ENV_OPEN, text)
    case None =>
    case Some(t) => PairsArePlain(t);
  }

  lemma LogsArePlain(f: Frame, text: string)
    ensures ReadLogs(f, text).Some? ==> IsPlain(ReadLogs(f, text).value.0)
  {
    match Strip(f.run, text)
    case None =>
    case Some(t) => DataIsPlain(t);
  }

  lemma DocumentIsPlain(f: Frame, text: string)
    ensures ReadDocument(f, text).Some? ==> var a := ReadDocument(f, text).value; AllPlain(a.argv, a.env, a.out)
  {
    if ReadDocument(f, text).Some? {
      var t := Strip(f.head, text).value;
      StringsArePlain(t);
      var t3 := Strip(ARRAY_END, ReadStrings(t).value.1).value;
      BlockIsPlain(t3);
      LogsArePlain(f, ReadBlock(t3).value.1);
    }
  }

  // ---------------------------------------------------------------- line ends

  /** An XML processor reads every CR and CR LF as one LF (section 2.11 of XML 1.0). */
  function NormalizeLines(s: string): string {
    if s == [] then []
    else if s[0] != '\r' then [s[0]] + NormalizeLines(s[1..])
    else ['\n'] + NormalizeLines(if |s| > 1 && s[1] == '\n' then s[2..] else s[1..])
  }

  /** Either line end becomes one line feed. */
  lemma {:induction false} LineEndRead(a: string, end: string, b: string)
    requires '\r' !in a && (end == "\r\n" || (end == "\r" && (b == [] || b[0] != '\n')))
    ensures NormalizeLines(a + (end + b)) == a + ("\n" + NormalizeLines(b))
  {
    if a == [] {
      assert a + (end + b) == end + b;
      assert (end + b)[|end|..] == b;
    } else {
      assert a[0] in a && forall c :: c in a[1..] ==> c in a;
      LineEndRead(a[1..], end, b);
      assert (a + (end + b))[1..] == a[1..] + (end + b);
      assert a == [a[0]] + a[1..];
    }
  }

  lemma {:induction false} NormalizeKeeps(s: string)
    ensures NormalizeLines(s) == s <==> '\r' !in s
    ensures '\r' !in NormalizeLines(s)
    decreases |s|
  {
    if s != [] {
      var rest := if s[0] != '\r' then s[1..] else if |s| > 1 && s[1] == '\n' then s[2..] else s[1..];
      NormalizeKeeps(rest);
      if s[0] != '\r' {
        assert s == [s[0]] + s[1..];
      }
    }
  }

  lemma {:induction false} EscapeNoReturn(s: string)
    requires '\r' !in s
    ensures '\r' !in Subst(s, Escape)
  {
    if s != [] {
      assert s[0] in s && forall c :: c in s[1..] ==> c in s;
      EscapeNoReturn(s[1..]);
    }
  }

  lemma XmlNoReturn(s: string)
    requires '\r' !in s
    ensures '\r' !in XmlEscape(s)
  {
    EscapeOnce(s);
    EscapeNoReturn(s);
  }

  lemma ConcatNoReturn(a: string, b: string)
    requires '\r' !in a && '\r' !in b
    ensures '\r' !in a + b
  {
  }

  lemma EnvLineNoReturn(k: string, v: string)
    requires '\r' !in k && '\r' !in v
    ensures '\r' !in EnvLine(k, v)
  {
    XmlNoReturn(k);
    XmlNoReturn(v);
    assert '\r' !in KEY_OPEN && '\r' !in KEY_CLOSE && '\r' !in CLOSE;
    ConcatNoReturn(XmlEscape(v), CLOSE);
    ConcatNoReturn(KEY_CLOSE, XmlEscape(v) + CLOSE);
    ConcatNoReturn(XmlEscape(k), KEY_CLOSE + (XmlEscape(v) + CLOSE));
    ConcatNoReturn(KEY_OPEN, XmlEscape(k) + (KEY_CLOSE + (XmlEscape(v) + CLOSE)));
  }

  lemma StringLineNoReturn(x: string)
    requires '\r' !in x
    ensures '\r' !in StringLine(x)
  {
    XmlNoReturn(x);
    assert '\r' !in OPEN && '\r' !in CLOSE;
    ConcatNoReturn(XmlEscape(x), CLOSE);
    ConcatNoReturn(OPEN, XmlEscape(x) + CLOSE);
  }

  lemma {:induction false} StringsNoReturn(xs: seq<string>)
    requires forall x :: x in xs ==> IsPlain(x)
    ensures '\r' !in StringLines(xs)
  {
    if xs != [] {
      assert xs[0] in xs && forall x :: x in xs[1..] ==> x in xs;
      StringLineNoReturn(xs[0]);
      StringsNoReturn(xs[1..]);
      ConcatNoReturn(StringLine(xs[0]), StringLines(xs[1..]));
    }
  }

  lemma {:induction false} EnvNoReturn(env: Env)
    requires EnvPlain(env)
    ensures '\r' !in EnvLines(env)
  {
    if env != [] {
      EnvLineNoReturn(env[0].0, env[0].1);
      EnvNoReturn(env[1..]);
      ConcatNoReturn(EnvLine(env[0].0, env[0].1), EnvLines(env[1..]));
    }
  }

  /** The fixed text has no carriage return either. */
  ghost predicate CleanFrame(f: Frame) {
    WellFramed(f) && '\r' !in f.head && '\r' !in f.run && '\r' !in f.between && '\r' !in f.tail
  }

  lemma EnvOpenNoReturn()
    ensures '\r' !in ENV_OPEN
  {
  }

  lemma BlockNoReturn(env: Env)
    requires EnvPlain(env)
    ensures '\r' !in EnvBlock(env)
  {
    EnvNoReturn(env);
    EnvOpenNoReturn();
    assert '\r' !in ENV_CLOSE;
    ConcatNoReturn(EnvLines(env), ENV_CLOSE);
    ConcatNoReturn(ENV_OPEN, EnvLines(env) + ENV_CLOSE);
  }

  lemma LogsNoReturn(f: Frame, log: string)
    requires CleanFrame(f) && IsPlain(log)
    ensures '\r' !in f.run + (XmlEscape(log) + (f.between + (XmlEscape(log) + f.tail)))
  {
    XmlNoReturn(log);
    ConcatNoReturn(XmlEscape(log), f.tail);
    ConcatNoReturn(f.between, XmlEscape(log) + f.tail);
    ConcatNoReturn(XmlEscape(log), f.between + (XmlEscape(log) + f.tail));
  }

  lemma DocumentNoReturn(f: Frame, argv: seq<string>, env: Env, log: string)
    requires CleanFrame(f) && AllPlain(argv, env, log)
    ensures '\r' !in Document(f, argv, env, log)
  {
    var end := f.run + (XmlEscape(log) + (f.between + (XmlEscape(log) + f.tail)));
    LogsNoReturn(f, log);
    BlockNoReturn(env);
    ConcatNoReturn(EnvBlock(env), end);
    assert '\r' !in ARRAY_END;
    ConcatNoReturn(ARRAY_END, EnvBlock(env) + end);
    StringsNoReturn(argv);
    ConcatNoReturn(StringLines(argv), ARRAY_END + (EnvBlock(env) + end));
    ConcatNoReturn(f.head, StringLines(argv) + (ARRAY_END + (EnvBlock(env) + end)));
  }

  /** What an XML processor reads: line ends first, then the document. */
  function ReadPlist(f: Frame, text: string): Option<Agent> { ReadDocument(f, NormalizeLines(text)) }

  /** Everything reads back exactly when every value is made of characters XML allows and has no carriage
      return; the program writes the others down as they are. */
  lemma DocumentReadsBackExactly(f: Frame, argv: seq<string>, env: Env, log: string)
    requires CleanFrame(f)
    ensures ReadPlist(f, Document(f, argv, env, log)) == Some(Agent(argv, env, log, log)) <==> AllPlain(argv, env, log)
  {
    var text := Document(f, argv, env, log);
    NormalizeKeeps(text);
    if AllPlain(argv, env, log) {
      DocumentNoReturn(f, argv, env, log);
      DocumentRoundTrip(f, argv, env, log);
    }
    DocumentIsPlain(f, NormalizeLines(text));
  }

  /** The same for one value, wherever it stands. */
  lemma ReadsBackExactly(s: string, rest: string)
    ensures ReadData(CLOSE, NormalizeLines(XmlEscape(s)) + (CLOSE + rest)) == Some((s, rest)) <==> IsPlain(s)
  {
    if IsPlain(s) {
      XmlNoReturn(s);
      NormalizeKeeps(XmlEscape(s));
      DataBack(s, CLOSE, rest);
    }
    DataIsPlain(NormalizeLines(XmlEscape(s)) + (CLOSE + rest));
  }

  /** The fixed text of the gateway's own LaunchAgent. */
  const LABEL := "com.rozum.gateway"
  const XML := "<?xml version=\"1.0\" encoding=\"UTF-8\"?>\n"
  const DOCTYPE := "<!DOCTYPE plist PUBLIC "
  const PUBLIC_ID := "\"-//Apple//DTD PLIST 1.0//EN\" "
  const SYSTEM_ID := "\"http://www.apple.com/DTDs/"
  const SYSTEM_END := "PropertyList-1.0.dtd\">\n"
  const PLIST := "<plist version=\"1.0\">\n<dict>\n"
  const LABEL_KEY := "  <key>Label</key>\n  <string>"
  const LABEL_END := "</string>\n  <key>"
  const ARGS_KEY := "ProgramArguments</key>\n  <array>\n"
  const SYSTEM := SYSTEM_ID + SYSTEM_END
  const PROLOG := XML + (DOCTYPE + PUBLIC_ID + SYSTEM)
  const ARGS := LABEL_END + ARGS_KEY
  const OPENING := PLIST + (LABEL_KEY + LABEL + ARGS)
  const RUN := "  <key>RunAtLoad</key>\n"
  const TRUE := "  <true/>\n"
  const KEEP := "  <key>KeepAlive</key>\n"
  const OUT := "  <key>StandardOutPath</key>\n"
  const ERR := "  <key>StandardErrorPath</key>\n"
  const VALUE := "  <string>"
  const END := "</dict>\n</plist>\n"

  const RUNS := RUN + (TRUE + (KEEP + (TRUE + (OUT + VALUE))))

  const GATEWAY := Frame(PROLOG + OPENING, RUNS, CLOSE + (ERR + VALUE), CLOSE + END)

  lemma GatewayRoundTrip(argv: seq<string>, env: Env, log: string)
    ensures ReadPlist(GATEWAY, Document(GATEWAY, argv, env, log)) == Some(Agent(argv, env, log, log)) <==> AllPlain(argv, env, log)
  {
    GatewayIsClean();
    DocumentReadsBackExactly(GATEWAY, argv, env, log);
  }

  lemma SystemIsClean()
    ensures '\r' !in SYSTEM
  {
    assert '\r' !in SYSTEM_ID;
    assert '\r' !in SYSTEM_END;
  }

  lemma DoctypeIsClean()
    ensures '\r' !in DOCTYPE + PUBLIC_ID
  {
    assert '\r' !in DOCTYPE;
    assert '\r' !in PUBLIC_ID;
  }

  lemma XmlIsClean()
    ensures '\r' !in XML
  {
  }

  lemma PrologIsClean()
    ensures '\r' !in PROLOG
  {
    SystemIsClean();
    DoctypeIsClean();
    XmlIsClean();
    ConcatNoReturn(DOCTYPE + PUBLIC_ID, SYSTEM);
    ConcatNoReturn(XML, DOCTYPE + PUBLIC_ID + SYSTEM);
  }

  lemma ArgsIsClean()
    ensures '\r' !in ARGS
  {
    assert '\r' !in LABEL_END;
    assert '\r' !in ARGS_KEY;
  }

  lemma LabelIsClean()
    ensures '\r' !in LABEL_KEY + LABEL
  {
    assert '\r' !in LABEL_KEY;
    assert '\r' !in LABEL;
  }

  lemma OpeningIsClean()
    ensures '\r' !in OPENING
  {
    ArgsIsClean();
    LabelIsClean();
    assert '\r' !in PLIST;
    ConcatNoReturn(LABEL_KEY + LABEL, ARGS);
    ConcatNoReturn(PLIST, LABEL_KEY + LABEL + ARGS);
  }

  lemma RunsIsClean()
    ensures '\r' !in RUNS && |RUNS| > 7 && RUNS[7] == 'R'
  {
    assert '\r' !in OUT + VALUE;
    assert '\r' !in TRUE;
    ConcatNoReturn(TRUE, OUT + VALUE);
    assert '\r' !in KEEP;
    ConcatNoReturn(KEEP, TRUE + (OUT + VALUE));
    ConcatNoReturn(TRUE, KEEP + (TRUE + (OUT + VALUE)));
    assert '\r' !in RUN;
    assert RUN[7] == 'R' && RUNS[7] == RUN[7];
  }

  lemma LogKeysAreClean()
    ensures '\r' !in CLOSE + (ERR + VALUE) && '\r' !in CLOSE + END
    ensures |CLOSE + (ERR + VALUE)| > 0 && (CLOSE + (ERR + VALUE))[0] == '<' && |CLOSE + END| > 0 && (CLOSE + END)[0] == '<'
  {
    assert '\r' !in ERR && '\r' !in VALUE;
    assert '\r' !in CLOSE && '\r' !in END;
  }

  lemma GatewayIsClean()
    ensures CleanFrame(GATEWAY)
  {
    PrologIsClean();
    OpeningIsClean();
    RunsIsClean();
    LogKeysAreClean();
    ConcatNoReturn(PROLOG, OPENING);
  }
}
