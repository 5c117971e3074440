/** The item-span scanner of `scripts/rust-item-spans.py`. */
module Spans {
  import opened Wrappers
  import opened RustLines

  // ---------------------------------------------------------------- braces of one line

  /** Net depth change and number of opening braces, counted in what the scanner takes for code. */
  method Braces(line: string) returns (net: int, opens: nat)
    ensures opens == Tally(Code(line, false), '{')
    ensures net == Tally(Code(line, false), '{') - Tally(Code(line, false), '}')
    // which is the code, and no string, literal or comment, of every line of simple tokens
    ensures forall ts :: Line(ts) && AllSimple(ts) && Print(ts) == line ==>
              opens == Tally(CodeIn(ts), '{') && net == Tally(CodeIn(ts), '{') - Tally(CodeIn(ts), '}')
  {
    net, opens := CountBraces(line);
    forall ts | Line(ts) && AllSimple(ts) && Print(ts) == line ensures Code(line, false) == CodeIn(ts) {
      LineSeen(ts);
    }
  }

  method CountBraces(line: string) returns (net: int, opens: nat)
    ensures opens == Tally(Code(line, false), '{')
    ensures net == Tally(Code(line, false), '{') - Tally(Code(line, false), '}')
  {
    net, opens := 0, 0;
    var i, q, n := 0, false, |line|;
    assert line[0..] == line;
    while i < n
      invariant 0 <= i <= n
      invariant opens + Tally(Code(line[i..], q), '{') == Tally(Code(line, false), '{')
      invariant net + Tally(Code(line[i..], q), '{') - Tally(Code(line[i..], q), '}') ==
                Tally(Code(line, false), '{') - Tally(Code(line, false), '}')
    {
      var ch := line[i];
      CodeStep(line, i, q);
      if !q && ch == '/' && i + 1 < n && line[i + 1] == '/' { return; }
      if ch == '"' {
        q := !q;
      } else if !q && ch == '\'' {
        var j := i + 1;
        if j < n && line[j] == '\\' { j := j + 1; }
        if j + 1 < n && line[j + 1] == '\'' { i := j + 1; }
      } else if !q {
        if ch == '{' {
          net, opens := net + 1, opens + 1;
        } else if ch == '}' {
          net := net - 1;
        }
      }
      i := i + 1;
    }
  }

  /** One turn of the loop, in terms of positions in the line. */
  lemma CodeStep(line: string, i: nat, q: bool)
    requires i < |line|
    ensures var text, j := line[i..], if i + 1 < |line| && line[i + 1] == '\\' then i + 2 else i + 1;
            && ("//" <= text <==> line[i] == '/' && i + 1 < |line| && line[i + 1] == '/')
            && Code(text, q) ==
               if !q && "//" <= text then []
               else if line[i] == '"' then Code(line[i + 1..], !q)
               else if q then Code(line[i + 1..], q)
               else if line[i] == '\'' && j + 1 < |line| && line[j + 1] == '\'' then Code(line[j + 2..], q)
               else [line[i]] + Code(line[i + 1..], q)
  {
    var text := line[i..];
    assert text[1..] == line[i + 1..];
    assert forall k :: 0 <= k <= |text| ==> text[k..] == line[i + k..];
  }

  // ---------------------------------------------------------------- lines

  predicate IsSpace(c: char) { c in " \t\n\r" || c as int == 11 || c as int == 12 }

  /** The white space of ASCII by number: tab, the line ends between, and the blank. */
  ghost predicate White(c: char) { 9 <= c as int <= 13 || c as int == 32 }

  function LStrip(s: string): string {
    if s != [] && IsSpace(s[0]) then LStrip(s[1..]) else s
  }

  function RStrip(s: string): string {
    if s != [] && IsSpace(s[|s| - 1]) then RStrip(s[..|s| - 1]) else s
  }

  predicate Leads(line: string) { "//" <= LStrip(line) || "#[" <= LStrip(line) }

  predicate EndsSemi(line: string) { RStrip(line) != [] && RStrip(line)[|RStrip(line)| - 1] == ';' }

  /** A comment or an attribute, behind white space. */
  ghost predicate LeadingLine(line: string) {
    exists n :: MarksAt(line, n)
  }

  /** A semicolon, before white space. */
  ghost predicate EndsItem(line: string) {
    exists n :: SemiAt(line, n)
  }

  ghost predicate SemiAt(line: string, n: int) {
    0 <= n < |line| && line[n] == ';' && forall k :: n < k < |line| ==> White(line[k])
  }

  ghost predicate MarksAt(line: string, n: int) {
    0 <= n <= |line| && (forall k :: 0 <= k < n ==> White(line[k])) && ("//" <= line[n..] || "#[" <= line[n..])
  }

  lemma MarksLonger(line: string, n: int)
    requires line != [] && White(line[0]) && n >= 1
    ensures MarksAt(line, n) <==> MarksAt(line[1..], n - 1)
  {
    if n <= |line| {
      assert line[n..] == line[1..][n - 1..];
      assert forall k :: 0 <= k < n - 1 ==> line[1..][k] == line[k + 1];
    }
  }

  lemma MarksBehindSpace(line: string)
    requires line != [] && White(line[0])
    ensures LeadingLine(line) <==> LeadingLine(line[1..])
  {
    if n :| MarksAt(line, n) {
      assert n > 0;
      MarksLonger(line, n);
    }
    if n :| MarksAt(line[1..], n) {
      MarksLonger(line, n + 1);
    }
  }

  lemma MarksInFront(line: string)
    requires line == [] || !White(line[0])
    ensures LeadingLine(line) <==> "//" <= line || "#[" <= line
  {
    assert line[0..] == line;
    if n :| MarksAt(line, n) {
      assert n == 0;
    }
    assert MarksAt(line, 0) <==> "//" <= line || "#[" <= line;
  }

  lemma {:induction false} LeadsExactly(line: string)
    ensures Leads(line) <==> LeadingLine(line)
  {
    if line != [] && IsSpace(line[0]) {
      LeadsExactly(line[1..]);
      MarksBehindSpace(line);
    } else {
      MarksInFront(line);
    }
  }

  lemma ItemBeforeSpace(line: string)
    requires line != [] && White(line[|line| - 1])
    ensures EndsItem(line) <==> EndsItem(line[..|line| - 1])
  {
    var front := line[..|line| - 1];
    if n :| SemiAt(line, n) {
      assert SemiAt(front, n);
    }
    if n :| SemiAt(front, n) {
      assert SemiAt(line, n);
    }
  }

  lemma ItemAtEnd(line: string)
    requires line != [] && !White(line[|line| - 1])
    ensures EndsItem(line) <==> line[|line| - 1] == ';'
  {
    if n :| SemiAt(line, n) {
      assert n == |line| - 1;
    }
    assert line[|line| - 1] == ';' ==> SemiAt(line, |line| - 1);
  }

  lemma {:induction false} EndsSemiExactly(line: string)
    ensures EndsSemi(line) <==> EndsItem(line)
  {
    if line != [] && IsSpace(line[|line| - 1]) {
      EndsSemiExactly(line[..|line| - 1]);
      ItemBeforeSpace(line);
    } else if line != [] {
      ItemAtEnd(line);
    }
  }

  // ---------------------------------------------------------------- where a body ends

  type Source = seq<string>

  /** The code of lines `i` to `j - 1`. */
  ghost function Flat(src: Source, i: nat, j: nat): string
    requires i <= j <= |src|
  {
    if i == j then [] else Flat(src, i, j - 1) + Code(src[j - 1], false)
  }

  /** The item that starts at `i` may end at `j`: its braces are opened and matched, or it has none and
      the line ends it. */
  ghost predicate Closes(src: Source, i: nat, j: nat)
    requires i <= j < |src|
  {
    var code := Flat(src, i, j + 1);
    if '{' in code then multiset(code)['{'] == multiset(code)['}'] else EndsItem(src[j])
  }

  /** The first line that closes it, or one past the end of the file. */
  ghost predicate EndsAt(src: Source, i: nat, j: nat)
    requires i < |src|
  {
    && i <= j <= |src|
    && (j < |src| ==> Closes(src, i, j))
    && forall k :: i <= k < j ==> !Closes(src, i, k)
  }

  /** Opening less closing braces. */
  ghost function Depth(code: string): int { Tally(code, '{') as int - Tally(code, '}') as int }

  /** One more line. */
  lemma FlatStep(src: Source, i: nat, j: nat)
    requires i <= j < |src|
    ensures var code := Code(src[j], false);
            && Depth(Flat(src, i, j + 1)) == Depth(Flat(src, i, j)) + Depth(code)
            && ('{' in Flat(src, i, j + 1) <==> '{' in Flat(src, i, j) || Tally(code, '{') > 0)
  {
    var past, code := Flat(src, i, j), Code(src[j], false);
    forall c: char ensures Tally(past + code, c) == Tally(past, c) + Tally(code, c) {
      TallyCounts(past, c);
      TallyCounts(code, c);
      TallyCounts(past + code, c);
    }
    TallyCounts(code, '{');
  }

  lemma ClosesWhen(src: Source, i: nat, j: nat)
    requires i <= j < |src|
    ensures Closes(src, i, j) <==> if '{' in Flat(src, i, j + 1) then Depth(Flat(src, i, j + 1)) == 0 else EndsSemi(src[j])
  {
    TallyCounts(Flat(src, i, j + 1), '{');
    TallyCounts(Flat(src, i, j + 1), '}');
    EndsSemiExactly(src[j]);
  }

  method BodyEnd(src: Source, i: nat) returns (j: nat)
    requires i < |src|
    ensures EndsAt(src, i, j)
  {
    var d, isOpen := 0, false;
    j := i;
    while j < |src|
      invariant i <= j <= |src|
      invariant d == Depth(Flat(src, i, j)) && (isOpen <==> '{' in Flat(src, i, j))
      invariant forall k :: i <= k < j ==> !Closes(src, i, k)
    {
      var net, opens := Braces(src[j]);
      d := d + net;
      isOpen := isOpen || opens > 0;
      FlatStep(src, i, j);
      ClosesWhen(src, i, j);
      if isOpen && d == 0 { return; }
      if !isOpen && EndsSemi(src[j]) { return; }
      j := j + 1;
    }
  }

  method LeadStart(src: Source, i: nat) returns (k: nat)
    requires i < |src|
    ensures k <= i && (forall l :: k <= l < i ==> LeadingLine(src[l])) && (k > 0 ==> !LeadingLine(src[k - 1]))
  {
    k := i;
    forall l | 0 <= l < i ensures Leads(src[l]) <==> LeadingLine(src[l]) {
      LeadsExactly(src[l]);
    }
    while k > 0 && Leads(src[k - 1])
      invariant k <= i && forall l :: k <= l < i ==> LeadingLine(src[l])
    {
      k := k - 1;
    }
  }

  // ---------------------------------------------------------------- the scan

  /** A reported item: its leading lines start at `lead`, its header is `head`, its last line `last`. */
  datatype Span = Span(lead: nat, head: nat, last: nat, name: string)

  predicate Wanted(header: string -> Option<string>, want: string -> bool, line: string) {
    header(line).Some? && want(header(line).value)
  }

  ghost predicate SpanOk(src: Source, header: string -> Option<string>, want: string -> bool, s: Span) {
    && s.lead <= s.head <= s.last < |src|
    && header(src[s.head]) == Some(s.name) && want(s.name)
    && (EndsAt(src, s.head, s.last) || (s.last == |src| - 1 && EndsAt(src, s.head, |src|)))
    && (forall l :: s.lead <= l < s.head ==> LeadingLine(src[l]))
    && (s.lead > 0 ==> !LeadingLine(src[s.lead - 1]))
  }

  /** `header` is the item pattern applied to a line and `want` the caller's filter on the name. */
  method FindSpans(src: Source, header: string -> Option<string>, want: string -> bool) returns (found: seq<Span>)
    ensures forall s :: s in found ==> SpanOk(src, header, want, s)
    ensures forall a, b :: 0 <= a < b < |found| ==> found[a].last < found[b].head
    ensures forall l :: 0 <= l < |src| && header(src[l]).Some? && want(header(src[l]).value) ==> Inside(found, l)
  {
    found := [];
    var i := 0;
    while i < |src|
      invariant 0 <= i
      invariant forall s :: s in found ==> SpanOk(src, header, want, s)
      invariant Increasing(found, i) && Covered(src, header, want, found, i)
    {
      if Wanted(header, want, src[i]) {
        var s, next := ScanItem(src, header, want, i);
        Append(src, header, want, found, s, i, next);
        found := found + [s];
        i := next;
      } else {
        i := i + 1;
      }
    }
  }

  method ScanItem(src: Source, header: string -> Option<string>, want: string -> bool, i: nat) returns (s: Span, next: nat)
    requires i < |src| && Wanted(header, want, src[i])
    ensures SpanOk(src, header, want, s) && s.head == i && s.last < next
    ensures next == s.last + 1 || (next == |src| + 1 && s.last == |src| - 1)
  {
    var j := BodyEnd(src, i);
    var k := LeadStart(src, i);
    s := Span(k, i, if j < |src| then j else |src| - 1, header(src[i]).value);
    next := j + 1;
  }

  /** Line `l` belongs to the body of a reported item. */
  ghost predicate Inside(found: seq<Span>, l: int) {
    exists s :: s in found && s.head <= l <= s.last
  }

  /** Bodies are disjoint, in increasing order and end before line `i`. */
  ghost predicate Increasing(found: seq<Span>, i: int) {
    && (forall s :: s in found ==> s.last < i)
    && forall a, b :: 0 <= a < b < |found| ==> found[a].last < found[b].head
  }

  ghost predicate Covered(src: Source, header: string -> Option<string>, want: string -> bool, found: seq<Span>, i: int) {
    forall l :: 0 <= l < i && l < |src| && Wanted(header, want, src[l]) ==> Inside(found, l)
  }

  lemma Append(src: Source, header: string -> Option<string>, want: string -> bool, found: seq<Span>, s: Span, i: nat, next: nat)
    requires Increasing(found, i) && Covered(src, header, want, found, i)
    requires s.head == i && i <= s.last < next && (next == s.last + 1 || s.last + 1 == |src|)
    ensures Increasing(found + [s], next) && Covered(src, header, want, found + [s], next)
  {
    var more := found + [s];
    assert more[|found|] == s && forall t :: t in found ==> t in more;
    forall l | 0 <= l < next && l < |src| && Wanted(header, want, src[l]) ensures Inside(more, l) {
      if l < i {
        var t :| t in found && t.head <= l <= t.last;
        assert t in more;
      }
    }
  }

  /** Two spans, leading lines included, overlap exactly when every line from the earlier item's last
      line to the later header looks like a comment or an attribute. */
  lemma OverlapExactly(src: Source, header: string -> Option<string>, want: string -> bool, a: Span, b: Span)
    requires SpanOk(src, header, want, a) && SpanOk(src, header, want, b) && a.last < b.head
    ensures b.lead <= a.last <==> forall l :: a.last <= l < b.head ==> LeadingLine(src[l])
  {
    if b.lead > a.last {
      assert !LeadingLine(src[b.lead - 1]);
    }
  }
}
