/** One sandbox policy, rendered to a Seatbelt rule list and to Docker mounts, with a small meaning for
    each target: in Seatbelt the last matching rule decides, in Docker the most specific mount. */
module Sandbox {
  import opened Wrappers
  import opened Text

  /** A canonical absolute path, as its components. */
  type Path = seq<string>

  datatype Policy = Policy(writable: seq<Path>, readOnly: seq<Path>, secretDeny: seq<Path>)

  /** `root` is the path itself or one of its ancestors. */
  predicate Covers(root: Path, p: Path) { root <= p }

  predicate CoveredBy(roots: seq<Path>, p: Path) {
    exists r :: r in roots && Covers(r, p)
  }

  // ---------------------------------------------------------------- Seatbelt

  datatype Filter = Subpath(root: Path) | Device(path: Path) | TtyNode

  datatype Op = Read | Write

  datatype Rule =
    | DenyDefault
    | AllowAll(op: Op)
    | Allow(op: Op, filters: seq<Filter>)
    | Deny(op: Op, root: Path)

  const DEVICES: seq<Path> := [["dev", "null"], ["dev", "zero"], ["dev", "random"], ["dev", "urandom"], ["dev", "dtracehelper"], ["dev", "tty"]]

  predicate IsDigits(s: string) { s != [] && forall i :: 0 <= i < |s| ==> '0' <= s[i] <= '9' }

  /** `/dev/ttysNNN`. */
  predicate IsTty(p: Path) {
    |p| == 2 && p[0] == "dev" && "ttys" <= p[1] && IsDigits(p[1][4..])
  }

  predicate IsDevice(p: Path) { p in DEVICES || IsTty(p) }

  /** The device nodes are the six by name and every `/dev/ttys` with a number behind it. */
  lemma DevicesExactly(p: Path)
    ensures IsDevice(p) <==>
              |p| == 2 && p[0] == "dev" &&
              (p[1] in ["null", "zero", "random", "urandom", "dtracehelper", "tty"] || Numbered(p[1]))
  {
    if |p| == 2 {
      assert p == [p[0], p[1]];
      TtysExactly(p[1]);
    }
  }

  ghost predicate Numbered(s: string) {
    exists n :: n != [] && (forall c :: c in n ==> c in "0123456789") && s == "ttys" + n
  }

  lemma TtysExactly(s: string)
    ensures Numbered(s) <==> "ttys" <= s && IsDigits(s[4..])
  {
    if "ttys" <= s && IsDigits(s[4..]) {
      forall c | c in s[4..] ensures c in "0123456789" {
        DigitsByName(c);
      }
      assert s == "ttys" + s[4..];
    }
    if Numbered(s) {
      var n :| n != [] && (forall c :: c in n ==> c in "0123456789") && s == "ttys" + n;
      assert s[4..] == n;
      forall i | 0 <= i < |n| ensures '0' <= n[i] <= '9' {
        DigitsByName(n[i]);
      }
    }
  }

  lemma DigitsByName(c: char)
    ensures c in "0123456789" <==> '0' <= c <= '9'
  {
    if '0' <= c <= '9' {
      assert "0123456789"[c as int - '0' as int] == c;
    }
  }

  predicate MatchesFilter(f: Filter, p: Path) {
    match f
    case Subpath(r) => Covers(r, p)
    case Device(d) => p == d
    case TtyNode => IsTty(p)
  }

  predicate Matches(r: Rule, op: Op, p: Path) {
    match r
    case DenyDefault => true
    case AllowAll(o) => o == op
    case Allow(o, fs) => o == op && exists f :: f in fs && MatchesFilter(f, p)
    case Deny(o, root) => o == op && Covers(root, p)
  }

  /** Last match wins; a path nothing matches is denied. */
  function SeatbeltAllows(rules: seq<Rule>, op: Op, p: Path): bool {
    if rules == [] then false
    else if Matches(rules[|rules| - 1], op, p) then
      rules[|rules| - 1].Allow? || rules[|rules| - 1].AllowAll?
    else SeatbeltAllows(rules[..|rules| - 1], op, p)
  }

  /** The file rules of the profile, in the order they are written. */
  method ToSeatbeltRules(policy: Policy) returns (rules: seq<Rule>)
    ensures forall p :: SeatbeltAllows(rules, Write, p) <==>
              (CoveredBy(policy.writable, p) || IsDevice(p)) && !CoveredBy(policy.secretDeny, p)
    ensures forall p :: SeatbeltAllows(rules, Read, p) <==> !CoveredBy(policy.secretDeny, p)
  {
    rules := [DenyDefault, AllowAll(Read)];
    var filters: seq<Filter> := [];
    for i := 0 to |policy.writable|
      invariant forall f :: f in filters <==> f.Subpath? && f.root in policy.writable[..i]
    {
      filters := filters + [Subpath(policy.writable[i])];
      assert policy.writable[..i + 1] == policy.writable[..i] + [policy.writable[i]];
    }
    assert policy.writable[..|policy.writable|] == policy.writable;
    ghost var subpaths := filters;
    for i := 0 to |DEVICES|
      invariant forall f :: f in filters <==> f in subpaths || (f.Device? && f.path in DEVICES[..i])
    {
      filters := filters + [Device(DEVICES[i])];
      assert DEVICES[..i + 1] == DEVICES[..i] + [DEVICES[i]];
    }
    assert DEVICES[..|DEVICES|] == DEVICES;
    filters := filters + [TtyNode];
    WriteFilters(policy.writable, filters);
    rules := rules + [Allow(Write, filters)];
    BaseRules(rules, filters);
    for i := 0 to |policy.secretDeny|
      invariant forall p :: SeatbeltAllows(rules, Write, p) <==>
                  (CoveredBy(policy.writable, p) || IsDevice(p)) && !CoveredBy(policy.secretDeny[..i], p)
      invariant forall p :: SeatbeltAllows(rules, Read, p) <==> !CoveredBy(policy.secretDeny[..i], p)
    {
      var s := policy.secretDeny[i];
      assert policy.secretDeny[..i + 1] == policy.secretDeny[..i] + [s];
      DenyAdds(rules, s);
      rules := rules + [Deny(Read, s), Deny(Write, s)];
    }
    assert policy.secretDeny[..|policy.secretDeny|] == policy.secretDeny;
  }

  lemma WriteFilters(writable: seq<Path>, filters: seq<Filter>)
    requires forall f :: f in filters <==> (f.Subpath? && f.root in writable) || (f.Device? && f.path in DEVICES) || f.TtyNode?
    ensures forall p :: (exists f :: f in filters && MatchesFilter(f, p)) <==> CoveredBy(writable, p) || IsDevice(p)
  {
    forall p ensures (exists f :: f in filters && MatchesFilter(f, p)) <==> CoveredBy(writable, p) || IsDevice(p) {
      if CoveredBy(writable, p) {
        var r :| r in writable && Covers(r, p);
        assert Subpath(r) in filters && MatchesFilter(Subpath(r), p);
      } else if IsDevice(p) {
        var f := if IsTty(p) then TtyNode else Device(p);
        assert f in filters && MatchesFilter(f, p);
      }
    }
  }

  lemma BaseRules(rules: seq<Rule>, filters: seq<Filter>)
    requires rules == [DenyDefault, AllowAll(Read), Allow(Write, filters)]
    ensures forall p :: SeatbeltAllows(rules, Read, p)
    ensures forall p :: SeatbeltAllows(rules, Write, p) <==> exists f :: f in filters && MatchesFilter(f, p)
  {
    var two, one := [DenyDefault, AllowAll(Read)], [DenyDefault];
    assert rules[..2] == two && two[..1] == one && one[..0] == [];
    forall p ensures !SeatbeltAllows(two, Write, p) {
      assert !Matches(two[1], Write, p);
    }
  }

  lemma DenyAdds(rules: seq<Rule>, s: Path)
    ensures var longer := rules + [Deny(Read, s), Deny(Write, s)];
            forall op, p :: SeatbeltAllows(longer, op, p) <==> SeatbeltAllows(rules, op, p) && !Covers(s, p)
  {
    var one := rules + [Deny(Read, s)];
    var longer := rules + [Deny(Read, s), Deny(Write, s)];
    assert longer[..|longer| - 1] == one && one[..|one| - 1] == rules;
  }

  // ---------------------------------------------------------------- Docker

  datatype Mount = Rw(at: Path) | Ro(at: Path) | Tmpfs(at: Path)

  /** `m` decides for `p`: it covers `p` and no other mount covering `p` is more specific. */
  ghost predicate Decides(mounts: seq<Mount>, m: Mount, p: Path) {
    && m in mounts && Covers(m.at, p)
    && forall o :: o in mounts && Covers(o.at, p) ==> |o.at| <= |m.at|
  }

  /** Writing at `p` in the container changes the host file at `p`. */
  ghost predicate DockerWrites(mounts: seq<Mount>, p: Path) {
    exists m: Mount :: m.Rw? && Decides(mounts, m, p)
  }

  /** Reading at `p` in the container reads the host file at `p`. */
  ghost predicate DockerReads(mounts: seq<Mount>, p: Path) {
    exists m: Mount :: !m.Tmpfs? && Decides(mounts, m, p)
  }

  ghost predicate IsRo(policy: Policy, r: Path) {
    r in policy.readOnly && !CoveredBy(policy.writable, r)
  }

  ghost predicate IsMasked(policy: Policy, s: Path) {
    s in policy.secretDeny && exists w :: w in policy.writable && w != s && Covers(w, s)
  }

  ghost predicate DockerRendering(policy: Policy, mounts: seq<Mount>) {
    forall m :: m in mounts <==>
      match m
      case Rw(w) => w in policy.writable
      case Ro(r) => IsRo(policy, r)
      case Tmpfs(s) => IsMasked(policy, s)
  }

  /** The volume and tmpfs arguments, in the order they are written. */
  method ToDockerMounts(policy: Policy) returns (mounts: seq<Mount>)
    ensures DockerRendering(policy, mounts)
  {
    mounts := [];
    for i := 0 to |policy.writable|
      invariant forall m :: m in mounts <==> m.Rw? && m.at in policy.writable[..i]
    {
      mounts := mounts + [Rw(policy.writable[i])];
      assert policy.writable[..i + 1] == policy.writable[..i] + [policy.writable[i]];
    }
    assert policy.writable[..|policy.writable|] == policy.writable;
    for i := 0 to |policy.readOnly|
      invariant forall m :: m in mounts <==>
                  (m.Rw? && m.at in policy.writable) || (m.Ro? && m.at in policy.readOnly[..i] && IsRo(policy, m.at))
    {
      var r := policy.readOnly[i];
      assert policy.readOnly[..i + 1] == policy.readOnly[..i] + [r];
      if !CoveredBy(policy.writable, r) {
        mounts := mounts + [Ro(r)];
      }
    }
    assert policy.readOnly[..|policy.readOnly|] == policy.readOnly;
    for i := 0 to |policy.secretDeny|
      invariant forall m :: m in mounts <==>
                  (m.Rw? && m.at in policy.writable) || (m.Ro? && IsRo(policy, m.at)) ||
                  (m.Tmpfs? && m.at in policy.secretDeny[..i] && IsMasked(policy, m.at))
    {
      var s := policy.secretDeny[i];
      assert policy.secretDeny[..i + 1] == policy.secretDeny[..i] + [s];
      if exists w :: w in policy.writable && w != s && Covers(w, s) {
        mounts := mounts + [Tmpfs(s)];
      }
    }
    assert policy.secretDeny[..|policy.secretDeny|] == policy.secretDeny;
  }

  // ---------------------------------------------------------------- agreement

  /** What both renderings are meant to say. */
  ghost predicate MayWrite(policy: Policy, p: Path) {
    CoveredBy(policy.writable, p) && !CoveredBy(policy.secretDeny, p)
  }

  /** No secret root equals or contains a writable root. */
  ghost predicate SecretsInside(policy: Policy) {
    forall s, w :: s in policy.secretDeny && w in policy.writable ==> !Covers(s, w)
  }

  lemma MostSpecific(mounts: seq<Mount>, p: Path, m0: Mount) returns (m: Mount)
    requires m0 in mounts && Covers(m0.at, p)
    ensures Decides(mounts, m, p)
    decreases |p| - |m0.at|
  {
    if Decides(mounts, m0, p) {
      m := m0;
    } else {
      var deeper :| deeper in mounts && Covers(deeper.at, p) && |deeper.at| > |m0.at|;
      m := MostSpecific(mounts, p, deeper);
    }
  }

  /** A read-only mount is never more specific than a writable one that covers the same path. */
  lemma RoNeverShadows(policy: Policy, mounts: seq<Mount>, r: Path, w: Path, p: Path)
    requires DockerRendering(policy, mounts) && Ro(r) in mounts && Rw(w) in mounts && Covers(r, p) && Covers(w, p)
    ensures |r| < |w|
  {
    assert IsRo(policy, r) && w in policy.writable;
    assert !Covers(w, r);
    assert |w| <= |r| ==> Covers(w, r);
  }

  lemma MaskDecides(policy: Policy, mounts: seq<Mount>, s: Path, w: Path, p: Path)
    requires DockerRendering(policy, mounts) && s in policy.secretDeny && w in policy.writable
    requires Covers(s, p) && Covers(w, p) && !Covers(s, w)
    ensures Tmpfs(s) in mounts && |w| < |s|
  {
    assert |w| < |s| && Covers(w, s);
    assert IsMasked(policy, s);
  }

  /** Where no secret root equals or contains a writable one, the container writes through exactly
      where the policy says. */
  lemma Agreement(policy: Policy, mounts: seq<Mount>, p: Path)
    requires DockerRendering(policy, mounts) && SecretsInside(policy)
    ensures DockerWrites(mounts, p) <==> MayWrite(policy, p)
  {
    if MayWrite(policy, p) {
      var w :| w in policy.writable && Covers(w, p);
      assert Rw(w) in mounts;
      var m := MostSpecific(mounts, p, Rw(w));
      assert m.Tmpfs? ==> IsMasked(policy, m.at);
      if m.Ro? {
        RoNeverShadows(policy, mounts, m.at, w, p);
      }
    }
    if DockerWrites(mounts, p) {
      var m: Mount :| m.Rw? && Decides(mounts, m, p);
      if CoveredBy(policy.secretDeny, p) {
        var s :| s in policy.secretDeny && Covers(s, p);
        MaskDecides(policy, mounts, s, m.at, p);
      }
    }
  }

  /** That condition is exact. */
  lemma AgreementExactly(policy: Policy, mounts: seq<Mount>)
    requires DockerRendering(policy, mounts)
    ensures (forall p :: DockerWrites(mounts, p) <==> MayWrite(policy, p)) <==> SecretsInside(policy)
  {
    if SecretsInside(policy) {
      forall p ensures DockerWrites(mounts, p) <==> MayWrite(policy, p) {
        Agreement(policy, mounts, p);
      }
    } else {
      var s, w :| s in policy.secretDeny && w in policy.writable && Covers(s, w);
      assert Decides(mounts, Rw(w), w);
      assert DockerWrites(mounts, w) && !MayWrite(policy, w);
    }
  }

  /** A secret root meets a read-only mount that no writable mount's mask takes care of. */
  ghost predicate SecretInReadOnly(policy: Policy, s: Path, r: Path) {
    s in policy.secretDeny && IsRo(policy, r) && (Covers(s, r) || (Covers(r, s) && !CoveredBy(policy.writable, s)))
  }

  lemma MaskMeansWritable(policy: Policy, mounts: seq<Mount>, at: Path, p: Path)
    requires DockerRendering(policy, mounts) && Tmpfs(at) in mounts && Covers(at, p)
    ensures exists w :: w in policy.writable && Covers(w, at) && Covers(w, p)
  {
    assert IsMasked(policy, at);
    var w :| w in policy.writable && w != at && Covers(w, at);
  }

  lemma ReadOnlyShows(policy: Policy, mounts: seq<Mount>, s: Path, r: Path)
    requires DockerRendering(policy, mounts) && SecretInReadOnly(policy, s, r)
    ensures var p := if Covers(s, r) then r else s; CoveredBy(policy.secretDeny, p) && DockerReads(mounts, p)
  {
    var p := if Covers(s, r) then r else s;
    assert Ro(r) in mounts;
    var m := MostSpecific(mounts, p, Ro(r));
    if m.Tmpfs? {
      MaskMeansWritable(policy, mounts, m.at, p);
      assert false;
    }
  }

  lemma MaskedWhere(policy: Policy, mounts: seq<Mount>, s: Path, m: Mount, p: Path)
    requires DockerRendering(policy, mounts) && SecretsInside(policy) && s in policy.secretDeny && Covers(s, p)
    requires Decides(mounts, m, p) && !SecretInReadOnly(policy, s, m.at)
    ensures m.Tmpfs?
  {
    if m.Rw? {
      MaskDecides(policy, mounts, s, m.at, p);
    } else if m.Ro? {
      assert Covers(s, m.at) || Covers(m.at, s);
      var w :| w in policy.writable && Covers(w, s);
      assert Rw(w) in mounts;
      RoNeverShadows(policy, mounts, m.at, w, p);
    }
  }

  /** The container hides every secret from reading, as the Seatbelt profile does, exactly when no secret
      root equals or contains a writable one and none meets a read-only mount outside them. */
  lemma SecretsHiddenExactly(policy: Policy, mounts: seq<Mount>)
    requires DockerRendering(policy, mounts)
    ensures (forall p :: CoveredBy(policy.secretDeny, p) ==> !DockerReads(mounts, p)) <==>
            SecretsInside(policy) && !exists s, r :: SecretInReadOnly(policy, s, r)
  {
    if !SecretsInside(policy) {
      WritableShows(policy, mounts);
    } else if s, r :| SecretInReadOnly(policy, s, r) {
      ReadOnlyShows(policy, mounts, s, r);
    } else {
      forall p, m: Mount | CoveredBy(policy.secretDeny, p) && Decides(mounts, m, p) ensures m.Tmpfs? {
        var s :| s in policy.secretDeny && Covers(s, p);
        MaskedWhere(policy, mounts, s, m, p);
      }
    }
  }

  /** A writable root at or under a secret one is read through its own mount. */
  lemma WritableShows(policy: Policy, mounts: seq<Mount>)
    requires DockerRendering(policy, mounts) && !SecretsInside(policy)
    ensures exists p :: CoveredBy(policy.secretDeny, p) && DockerReads(mounts, p)
  {
    var s, w :| s in policy.secretDeny && w in policy.writable && Covers(s, w);
    assert Decides(mounts, Rw(w), w);
    assert CoveredBy(policy.secretDeny, w) && DockerReads(mounts, w);
  }

  function Longest(mounts: seq<Mount>): (n: nat)
    ensures forall m :: m in mounts && m.at != [] ==> |m.at[|m.at| - 1]| <= n
  {
    if mounts == [] then 0
    else
      var k, m := Longest(mounts[1..]), mounts[0];
      assert mounts == [m] + mounts[1..];
      if m.at != [] && |m.at[|m.at| - 1]| > k then |m.at[|m.at| - 1]| else k
  }

  /** A name longer than the last component of any mount, and of no device. */
  function Unused(mounts: seq<Mount>): string { seq(Longest(mounts) + 1, _ => 'x') }

  lemma UnusedIsNoDevice(mounts: seq<Mount>, w: Path)
    ensures !IsDevice(w + [Unused(mounts)])
  {
    var p := w + [Unused(mounts)];
    assert p[|p| - 1] == Unused(mounts) && Unused(mounts)[0] == 'x';
    assert "ttys"[0] == 't';
  }

  lemma UnderUnused(mounts: seq<Mount>, w: Path)
    requires Rw(w) in mounts
    ensures Decides(mounts, Rw(w), w + [Unused(mounts)])
  {
    var p := w + [Unused(mounts)];
    forall o | o in mounts && Covers(o.at, p) ensures |o.at| <= |w| {
      assert |o.at| > |w| ==> o.at == p;
    }
  }

  /** Just under a writable root at or under a secret one the two renderings disagree, off every device. */
  lemma Disagree(policy: Policy, mounts: seq<Mount>) returns (p: Path)
    requires DockerRendering(policy, mounts) && !SecretsInside(policy)
    ensures !IsDevice(p) && DockerWrites(mounts, p) && !MayWrite(policy, p)
  {
    var s, w :| s in policy.secretDeny && w in policy.writable && Covers(s, w);
    assert Rw(w) in mounts;
    p := w + [Unused(mounts)];
    UnusedIsNoDevice(mounts, w);
    UnderUnused(mounts, w);
    assert Covers(s, p);
  }

  /** Two renderings say the same about every path that is no device node. */
  ghost predicate SayTheSame(rules: seq<Rule>, mounts: seq<Mount>) {
    forall p :: !IsDevice(p) ==> (SeatbeltAllows(rules, Write, p) <==> DockerWrites(mounts, p))
  }

  /** The two renderings of one policy, side by side. */
  method RenderBoth(policy: Policy) returns (rules: seq<Rule>, mounts: seq<Mount>)
    ensures SayTheSame(rules, mounts) <==> SecretsInside(policy)
  {
    rules := ToSeatbeltRules(policy);
    mounts := ToDockerMounts(policy);
    if SecretsInside(policy) {
      forall p ensures DockerWrites(mounts, p) <==> MayWrite(policy, p) {
        Agreement(policy, mounts, p);
      }
    } else {
      ghost var p := Disagree(policy, mounts);
    }
  }

  // ---------------------------------------------------------------- quoting

  /** A path as an SBPL string literal: backslashes doubled first, then quotes escaped. */
  function SbplQuote(s: string): string {
    "\"" + Replace(Replace(s, '\\', "\\\\"), '"', "\\\"") + "\""
  }

  function SbplEscape(c: char): string {
    if c == '\\' then "\\\\" else if c == '"' then "\\\"" else [c]
  }

  /** One character of a string literal: a backslash takes the next character as it is. */
  function SbplNext(text: string): Option<(char, nat)> {
    if text == [] || text[0] == '"' then None
    else if text[0] != '\\' then Some((text[0], 1))
    else if |text| >= 2 then Some((text[1], 2))
    else None
  }

  function SbplUnquote(text: string): Option<(string, string)> {
    match Strip("\"", text)
    case None => None
    case Some(inner) =>
      var (s, rest) := ReadChars(SbplNext, inner);
      match Strip("\"", rest)
      case None => None
      case Some(after) => Some((s, after))
  }

  /** A quoted path reads back exactly and ends where its quote ends, whatever follows. */
  lemma SbplRoundTrip(s: string, rest: string)
    ensures SbplUnquote(SbplQuote(s) + rest) == Some((s, rest))
  {
    var f, g := ReplaceWith('\\', "\\\\"), ReplaceWith('"', "\\\"");
    forall c | c in s ensures SbplEscape(c) == Subst(f(c), g) {
      assert f(c) == (if c == '\\' then ['\\', '\\'] else [c]);
      assert f(c)[1..] == (if c == '\\' then ['\\'] else []);
      assert Subst(['\\'], g) == ['\\'];
    }
    SubstTwice(s, f, g, SbplEscape);
    var body := Subst(s, SbplEscape);
    assert SbplQuote(s) + rest == "\"" + (body + ("\"" + rest));
    StripBack("\"", body + ("\"" + rest));
    forall c | c in s ensures Reads(SbplNext, SbplEscape, c) {
    }
    ReadBack(SbplNext, SbplEscape, s, "\"" + rest);
    StripBack("\"", rest);
  }
}
