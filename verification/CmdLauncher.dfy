/** The generated `.cmd` launcher of the Windows scheduled task, and a reader of such files. */
module CmdLauncher {
  import opened Wrappers
  import opened Text
  import opened SeqFacts

  datatype Result = Ok(script: string) | Refused(what: string, value: string)

  type Env = seq<(string, string)>

  datatype Launch = Launch(env: Env, program: string, args: seq<string>, log: string)

  function Percent(c: char): string { if c == '%' then "%%" else [c] }

  /** A literal percent sign is written twice. */
  function EscapePercent(s: string): string { Subst(s, Percent) }

  predicate Quoted(s: string) { '"' in s }

  const HEADER := "@echo off\r\nsetlocal\r\n"

  function SetLine(k: string, v: string): string {
    "set \"" + (EscapePercent(k) + ("=" + (EscapePercent(v) + "\"\r\n")))
  }

  function SetLines(env: Env): string {
    if env == [] then [] else SetLine(env[0].0, env[0].1) + SetLines(env[1..])
  }

  function ArgText(a: string): string { " \"" + (EscapePercent(a) + "\"") }

  function ArgsText(args: seq<string>): string {
    if args == [] then [] else ArgText(args[0]) + ArgsText(args[1..])
  }

  /** The text of the launcher. */
  function Script(l: Launch): string {
    HEADER + (SetLines(l.env) + ("\"" + (EscapePercent(l.program) + ("\"" + (ArgsText(l.args) +
      (" >> \"" + (EscapePercent(l.log) + "\" 2>&1\r\n")))))))
  }

  predicate AnyQuoted(l: Launch) {
    || Quoted(l.program)
    || (exists a :: a in l.args && Quoted(a))
    || (exists i :: 0 <= i < |l.env| && Quoted(l.env[i].1))
    || Quoted(l.log)
  }

  /** The first value with a quote in it, in the order they are looked at. */
  method FirstQuoted(l: Launch) returns (refusal: Option<(string, string)>)
    ensures refusal.Some? <==> AnyQuoted(l)
    ensures refusal.Some? ==> Quoted(refusal.value.1)
  {
    if Quoted(l.program) { return Some(("the program path", l.program)); }
    for i := 0 to |l.args|
      invariant forall j :: 0 <= j < i ==> !Quoted(l.args[j])
    {
      if Quoted(l.args[i]) { return Some(("an argument", l.args[i])); }
    }
    for i := 0 to |l.env|
      invariant forall j :: 0 <= j < i ==> !Quoted(l.env[j].1)
    {
      if Quoted(l.env[i].1) { return Some(("environment value " + l.env[i].0, l.env[i].1)); }
    }
    if Quoted(l.log) { return Some(("the log path", l.log)); }
    return None;
  }

  method PrintEnv(env: Env) returns (s: string)
    ensures s == HEADER + SetLines(env)
  {
    s := HEADER;
    for i := 0 to |env|
      invariant s + SetLines(env[i..]) == HEADER + SetLines(env)
    {
      s := s + SetLine(env[i].0, env[i].1);
    }
    assert env[|env|..] == [];
  }

  method PrintCommand(program: string, args: seq<string>) returns (line: string)
    ensures line == "\"" + (EscapePercent(program) + ("\"" + ArgsText(args)))
  {
    line := "\"" + (EscapePercent(program) + "\"");
    ghost var start := line;
    for i := 0 to |args|
      invariant line + ArgsText(args[i..]) == start + ArgsText(args)
    {
      line := line + ArgText(args[i]);
    }
    assert args[|args|..] == [];
    Regroup("\"", EscapePercent(program), "\"", ArgsText(args));
  }

  /** Refused exactly when the program, an argument, an environment value or the log path has a quote. */
  method WindowsLauncherCmd(l: Launch) returns (r: Result)
    ensures r.Refused? <==> AnyQuoted(l)
    ensures r.Refused? <==>
              '"' in l.program || '"' in l.log || (exists a :: a in l.args && '"' in a)
              || exists i :: 0 <= i < |l.env| && '"' in l.env[i].1
    ensures r.Ok? ==> r.script == Script(l)
    ensures r.Refused? ==> '"' in r.value
  {
    var refusal := FirstQuoted(l);
    if refusal.Some? { return Refused(refusal.value.0, refusal.value.1); }
    var s := PrintEnv(l.env);
    var line := PrintCommand(l.program, l.args);
    var end := " >> \"" + (EscapePercent(l.log) + "\" 2>&1\r\n");
    r := Ok(s + (line + end));
    JoinsUp(l, end);
  }

  lemma JoinsUp(l: Launch, end: string)
    ensures HEADER + SetLines(l.env) + ("\"" + (EscapePercent(l.program) + ("\"" + ArgsText(l.args))) + end) ==
            HEADER + (SetLines(l.env) + ("\"" + (EscapePercent(l.program) + ("\"" + (ArgsText(l.args) + end)))))
  {
    var p, a := EscapePercent(l.program), ArgsText(l.args);
    Regroup("\"", p, "\"" + a, end);
    Regroup("\"", a, end, []);
    Regroup(HEADER, SetLines(l.env), "\"" + (p + ("\"" + (a + end))), []);
  }

  // ---------------------------------------------------------------- the reader

  /** One character inside quotes; `%%` is a percent sign and a lone one is no literal at all. */
  function NextBefore(stop: char): Next {
    (text: string) =>
      if text == [] || text[0] == stop || text[0] in "\"\r\n" then None
      else if text[0] != '%' then Some((text[0], 1))
      else if |text| >= 2 && text[1] == '%' then Some(('%', 2))
      else None
  }

  /** Characters up to a closing text, which is consumed. */
  function ReadUpTo(stop: char, close: string, text: string): Option<(string, string)> {
    var (s, rest) := ReadChars(NextBefore(stop), text);
    match Strip(close, rest)
    case None => None
    case Some(after) => Some((s, after))
  }

  function ReadEnv(text: string): Option<(Env, string)>
    decreases |text|
  {
    match Strip("set \"", text)
    case None => Some(([], text))
    case Some(t) =>
      match ReadUpTo('=', "=", t)
      case None => None
      case Some((k, t2)) =>
        match ReadUpTo('"', "\"\r\n", t2)
        case None => None
        case Some((v, t3)) =>
          if |t3| >= |text| then None
          else match ReadEnv(t3)
            case None => None
            case Some((env, rest)) => Some(([(k, v)] + env, rest))
  }

  function ReadArgs(text: string): Option<(seq<string>, string)>
    decreases |text|
  {
    match Strip(" \"", text)
    case None => Some(([], text))
    case Some(t) =>
      match ReadUpTo('"', "\"", t)
      case None => None
      case Some((a, t2)) =>
        if |t2| >= |text| then None
        else match ReadArgs(t2)
          case None => None
          case Some((args, rest)) => Some(([a] + args, rest))
  }

  function ReadCommand(text: string): Option<(string, seq<string>, string)> {
    match Strip("\"", text)
    case None => None
    case Some(t) =>
      match ReadUpTo('"', "\"", t)
      case None => None
      case Some((program, t2)) =>
        match ReadArgs(t2)
        case None => None
        case Some((args, t3)) =>
          match Strip(" >> \"", t3)
          case None => None
          case Some(t4) =>
            match ReadUpTo('"', "\" 2>&1\r\n", t4)
            case None => None
            case Some((log, rest)) => if rest == [] then Some((program, args, log)) else None
  }

  function ReadScript(text: string): Option<Launch> {
    match Strip(HEADER, text)
    case None => None
    case Some(t) =>
      match ReadEnv(t)
      case None => None
      case Some((env, t2)) =>
        match ReadCommand(t2)
        case None => None
        case Some((program, args, log)) => Some(Launch(env, program, args, log))
  }

  // ---------------------------------------------------------------- the round trip

  /** Can stand between quotes on one line. */
  predicate OneLine(s: string) { '"' !in s && '\r' !in s && '\n' !in s }

  ghost predicate Writable(l: Launch) {
    && OneLine(l.program) && OneLine(l.log)
    && (forall a :: a in l.args ==> OneLine(a))
    && EnvOk(l.env)
  }

  ghost predicate EnvOk(env: Env) {
    forall i :: 0 <= i < |env| ==> OneLine(env[i].0) && '=' !in env[i].0 && OneLine(env[i].1)
  }

  lemma UpToBack(s: string, stop: char, close: string, rest: string)
    requires OneLine(s) && stop !in s && close != [] && close[0] == stop && stop != '%'
    ensures ReadUpTo(stop, close, EscapePercent(s) + (close + rest)) == Some((s, rest))
  {
    forall c | c in s ensures Reads(NextBefore(stop), Percent, c) {
      assert forall more :: (Percent(c) + more)[0] == c && (c == '%' ==> (Percent(c) + more)[1] == '%');
    }
    assert (close + rest)[0] == stop;
    ReadBack(NextBefore(stop), Percent, s, close + rest);
    StripBack(close, rest);
  }

  lemma {:induction false} EnvBack(env: Env, rest: string)
    requires EnvOk(env)
    requires rest != [] && rest[0] != 's'
    ensures ReadEnv(SetLines(env) + rest) == Some((env, rest))
  {
    if env == [] {
      assert SetLines(env) + rest == rest;
    } else {
      var (k, v) := env[0];
      var tail := SetLines(env[1..]) + rest;
      var t2 := EscapePercent(v) + ("\"\r\n" + tail);
      var t := EscapePercent(k) + ("=" + t2);
      Regroup5("set \"", EscapePercent(k), "=", EscapePercent(v), "\"\r\n", SetLines(env[1..]), rest);
      StripBack("set \"", t);
      UpToBack(k, '=', "=", t2);
      UpToBack(v, '"', "\"\r\n", tail);
      EnvBack(env[1..], rest);
      assert [(k, v)] + env[1..] == env;
    }
  }

  lemma {:induction false} ArgsBack(args: seq<string>, rest: string)
    requires forall a :: a in args ==> OneLine(a)
    requires |rest| >= 2 && rest[1] != '"'
    ensures ReadArgs(ArgsText(args) + rest) == Some((args, rest))
  {
    if args == [] {
      assert ArgsText(args) + rest == rest;
    } else {
      var tail := ArgsText(args[1..]) + rest;
      var t := EscapePercent(args[0]) + ("\"" + tail);
      Regroup(" \"", EscapePercent(args[0]), "\"", tail);
      Assoc(ArgText(args[0]), ArgsText(args[1..]), rest);
      StripBack(" \"", t);
      UpToBack(args[0], '"', "\"", tail);
      ArgsBack(args[1..], rest);
      assert [args[0]] + args[1..] == args;
    }
  }

  lemma CommandBack(l: Launch)
    requires Writable(l)
    ensures ReadCommand("\"" + (EscapePercent(l.program) + ("\"" + (ArgsText(l.args) +
              (" >> \"" + (EscapePercent(l.log) + "\" 2>&1\r\n")))))) == Some((l.program, l.args, l.log))
  {
    var t4 := EscapePercent(l.log) + "\" 2>&1\r\n";
    var t3 := " >> \"" + t4;
    var t2 := ArgsText(l.args) + t3;
    StripBack("\"", EscapePercent(l.program) + ("\"" + t2));
    UpToBack(l.program, '"', "\"", t2);
    ArgsBack(l.args, t3);
    StripBack(" >> \"", t4);
    assert "\" 2>&1\r\n" + [] == "\" 2>&1\r\n";
    UpToBack(l.log, '"', "\" 2>&1\r\n", []);
  }

  /** Reading the launcher back gives exactly what it was made from. */
  lemma ScriptRoundTrip(l: Launch)
    requires Writable(l)
    ensures ReadScript(Script(l)) == Some(l)
  {
    var t2 := "\"" + (EscapePercent(l.program) + ("\"" + (ArgsText(l.args) +
                (" >> \"" + (EscapePercent(l.log) + "\" 2>&1\r\n")))));
    StripBack(HEADER, SetLines(l.env) + t2);
    EnvBack(l.env, t2);
    CommandBack(l);
  }

  // ---------------------------------------------------------------- nothing else reads back

  lemma {:induction false} CharsStop(stop: char, text: string)
    ensures var s := ReadChars(NextBefore(stop), text).0; OneLine(s) && stop !in s
    decreases |text|
  {
    var next := NextBefore(stop);
    match next(text)
    case None =>
    case Some((c, k)) =>
      if 1 <= k <= |text| {
        CharsStop(stop, text[k..]);
        assert c !in "\"\r\n" && (c == stop ==> stop == '%');
      }
  }

  lemma {:induction false} EnvReadIsWritable(text: string)
    ensures ReadEnv(text).Some? ==> EnvOk(ReadEnv(text).value.0)
    decreases |text|
  {
    match Strip("set \"", text)
    case None =>
    case Some(t) =>
      CharsStop('=', t);
      match ReadUpTo('=', "=", t)
      case None =>
      case Some((k, t2)) =>
        CharsStop('"', t2);
        match ReadUpTo('"', "\"\r\n", t2)
        case None =>
        case Some((v, t3)) =>
          if |t3| < |text| {
            EnvReadIsWritable(t3);
          }
  }

  lemma {:induction false} ArgsReadAreWritable(text: string)
    ensures ReadArgs(text).Some? ==> forall a :: a in ReadArgs(text).value.0 ==> OneLine(a)
    decreases |text|
  {
    match Strip(" \"", text)
    case None =>
    case Some(t) =>
      CharsStop('"', t);
      match ReadUpTo('"', "\"", t)
      case None =>
      case Some((a, t2)) =>
        if |t2| < |text| {
          ArgsReadAreWritable(t2);
        }
  }

  lemma CommandReadIsWritable(text: string)
    ensures ReadCommand(text).Some? ==>
              var (program, args, log) := ReadCommand(text).value;
              OneLine(program) && OneLine(log) && forall a :: a in args ==> OneLine(a)
  {
    match Strip("\"", text)
    case None =>
    case Some(t) =>
      CharsStop('"', t);
      match ReadUpTo('"', "\"", t)
      case None =>
      case Some((program, t2)) =>
        ArgsReadAreWritable(t2);
        match ReadArgs(t2)
        case None =>
        case Some((args, t3)) =>
          match Strip(" >> \"", t3)
          case None =>
          case Some(t4) => CharsStop('"', t4);
  }

  /** A launch reads back from its launcher exactly when every value fits on one line without a quote and
      no key has a quote, a line break or an equals sign.  Quotes in keys, equals signs in keys and line
      breaks anywhere are accepted by the program and do not survive. */
  lemma ReadsBackExactly(l: Launch)
    ensures ReadScript(Script(l)) == Some(l) <==> Writable(l)
  {
    if Writable(l) {
      ScriptRoundTrip(l);
    }
    var r := ReadScript(Script(l));
    if r.Some? {
      var t := Strip(HEADER, Script(l)).value;
      EnvReadIsWritable(t);
      CommandReadIsWritable(ReadEnv(t).value.1);
    }
  }

  /** Keys have to be free of `=`: moving one between key and value gives the very same text, which no
      reader can tell apart. */
  lemma EqualsInKeyIsAmbiguous(l: Launch, a: string, b: string, c: string)
    ensures var l1, l2 := l.(env := [(a + "=" + b, c)]), l.(env := [(a, b + "=" + c)]);
            l1 != l2 && Script(l1) == Script(l2)
  {
    OneSetLine(a + "=" + b, c);
    OneSetLine(a, b + "=" + c);
    EscapedPair(a, b);
    EscapedPair(b, c);
    Shift(EscapePercent(a), EscapePercent(b), EscapePercent(c), "=", "\"\r\n");
    assert |a + "=" + b| > |a|;
    assert [(a + "=" + b, c)][0].0 != [(a, b + "=" + c)][0].0;
  }

  lemma EscapedPair(a: string, b: string)
    ensures EscapePercent(a + "=" + b) == EscapePercent(a) + "=" + EscapePercent(b)
  {
    assert EscapePercent("=") == "=";
    SubstConcat(a + "=", b, Percent);
    SubstConcat(a, "=", Percent);
  }

  lemma Shift(a: string, b: string, c: string, eq: string, end: string)
    ensures (a + eq + b) + (eq + (c + end)) == a + (eq + ((b + eq + c) + end))
  {
    Assoc(a + eq, b, eq + (c + end));
    Assoc(a, eq, b + (eq + (c + end)));
    Assoc(b + eq, c, end);
    Assoc(b, eq, c + end);
  }

  lemma OneSetLine(k: string, v: string)
    ensures SetLines([(k, v)]) == SetLine(k, v)
  {
    assert [(k, v)][1..] == [];
  }
}
