/** Printing character by character, and a reader that undoes it. */
module Text {
  import opened Wrappers

  /** Every character replaced by what `f` gives for it. */
  function Subst(s: string, f: char -> string): string {
    if s == [] then [] else f(s[0]) + Subst(s[1..], f)
  }

  function ReplaceWith(c: char, text: string): char -> string {
    (x: char) => if x == c then text else [x]
  }

  /** `str::replace` of one character. */
  function Replace(s: string, c: char, text: string): string {
    Subst(s, ReplaceWith(c, text))
  }

  lemma {:induction false} SubstConcat(a: string, b: string, f: char -> string)
    ensures Subst(a + b, f) == Subst(a, f) + Subst(b, f)
  {
    if a == [] {
      assert a + b == b;
    } else {
      assert (a + b)[1..] == a[1..] + b;
      SubstConcat(a[1..], b, f);
    }
  }

  /** Replacing in two passes is replacing once by the composed table. */
  lemma {:induction false} SubstTwice(s: string, f: char -> string, g: char -> string, h: char -> string)
    requires forall c :: c in s ==> h(c) == Subst(f(c), g)
    ensures Subst(Subst(s, f), g) == Subst(s, h)
  {
    if s != [] {
      SubstConcat(f(s[0]), Subst(s[1..], f), g);
      SubstTwice(s[1..], f, g, h);
    }
  }

  // ---------------------------------------------------------------- reading

  /** Reads one character from the front of a text: the character and how much of the text it took. */
  type Next = string -> Option<(char, nat)>

  /** Reads characters until `next` gives up; the result and what is left. */
  function ReadChars(next: Next, text: string): (string, string)
    decreases |text|
  {
    match next(text)
    case None => ([], text)
    case Some((c, k)) =>
      if 1 <= k <= |text| then
        var (s, rest) := ReadChars(next, text[k..]);
        ([c] + s, rest)
      else ([], text)
  }

  ghost predicate Reads(next: Next, f: char -> string, c: char) {
    f(c) != [] && forall rest :: next(f(c) + rest) == Some((c, |f(c)|))
  }

  /** What was printed with `f` reads back with `next`, up to the first thing `next` refuses. */
  lemma {:induction false} ReadBack(next: Next, f: char -> string, s: string, rest: string)
    requires forall c :: c in s ==> Reads(next, f, c)
    requires next(rest) == None
    ensures ReadChars(next, Subst(s, f) + rest) == (s, rest)
  {
    if s == [] {
      assert Subst(s, f) + rest == rest;
    } else {
      var tail, used: nat := Subst(s[1..], f) + rest, |f(s[0])|;
      assert Subst(s, f) + rest == f(s[0]) + tail;
      assert Reads(next, f, s[0]);
      assert next(f(s[0]) + tail) == Some((s[0], used));
      assert (f(s[0]) + tail)[used..] == tail;
      ReadBack(next, f, s[1..], rest);
      assert [s[0]] + s[1..] == s;
    }
  }

  /** Removes a fixed text from the front. */
  function Strip(lit: string, text: string): Option<string> {
    if lit <= text then Some(text[|lit|..]) else None
  }

  lemma StripBack(lit: string, rest: string)
    ensures Strip(lit, lit + rest) == Some(rest)
  {
    assert (lit + rest)[|lit|..] == rest;
  }

  // ---------------------------------------------------------------- regrouping concatenations

  lemma Regroup(a: string, b: string, c: string, d: string)
    ensures a + (b + c) + d == a + (b + (c + d))
    ensures a + b + c == a + (b + c)
  {
  }

  lemma Regroup5(a: string, b: string, c: string, d: string, e: string, x: string, y: string)
    ensures a + (b + (c + (d + e))) + x + y == a + (b + (c + (d + (e + (x + y)))))
  {
    Regroup(d, e, x + y, []);
    Regroup(c, d + e, x + y, []);
    Regroup(b, c + (d + e), x + y, []);
    Regroup(a, b + (c + (d + e)), x + y, []);
    Regroup(a + (b + (c + (d + e))), x, y, []);
  }
}
