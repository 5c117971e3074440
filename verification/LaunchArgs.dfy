/** Pulling rozum's own flags out of the child program's trailing arguments. */
module LaunchArgs {
  import opened SeqFacts

  const VALUE_FLAGS: seq<string> := ["--model", "--port", "--n-ctx", "--channel-mcp-name", "--backend-url"]
  const BOOL_FLAGS: seq<string> := ["--no-model", "--dedicated", "--no-channel-wakeup", "--no-piggyback", "--no-room-bridge", "--lean", "--no-sandbox"]

  datatype Kind = Separator | Bool | Value | Assigned | Other

  /** How one argument is read, in the order the program asks. */
  function KindOf(a: string): Kind {
    if a == "--" then Separator
    else if a in BOOL_FLAGS then Bool
    else if a in VALUE_FLAGS then Value
    else if exists f :: f in VALUE_FLAGS && f + "=" <= a then Assigned
    else Other
  }

  /** The arguments pulled to the front, and those left behind. */
  datatype Parts = Parts(pulled: seq<string>, rest: seq<string>)

  function Pull(xs: seq<string>, p: Parts): Parts { Parts(xs + p.pulled, p.rest) }

  function Leave(x: string, p: Parts): Parts { Parts(p.pulled, [x] + p.rest) }

  /** What the scan does with the tail after `launch`. */
  function Scan(kind: string -> Kind, t: seq<string>): Parts {
    if t == [] then Parts([], [])
    else match kind(t[0])
      case Separator => Parts([], t)
      case Bool => Pull([t[0]], Scan(kind, t[1..]))
      case Assigned => Pull([t[0]], Scan(kind, t[1..]))
      case Value => if |t| == 1 then Parts(t, []) else Pull(t[..2], Scan(kind, t[2..]))
      case Other => Leave(t[0], Scan(kind, t[1..]))
  }

  function FirstLaunch(args: seq<string>): nat { IndexOf(args, "launch") }

  /** The reordered line, for any reading of the arguments. */
  function ReorderBy(kind: string -> Kind, args: seq<string>): seq<string> {
    var i := FirstLaunch(args);
    if i == |args| then args
    else Rejoin(args[..i + 1], Scan(kind, args[i + 1..]))
  }

  function Rejoin(head: seq<string>, p: Parts): seq<string> { head + p.pulled + p.rest }

  function Reorder(args: seq<string>): seq<string> { ReorderBy(KindOf, args) }

  /** How many arguments one turn of the scan takes. */
  function Bite(kind: string -> Kind, t: seq<string>): (n: nat)
    requires t != []
    ensures 1 <= n <= |t|
  {
    match kind(t[0])
    case Separator => |t|
    case Value => if |t| == 1 then 1 else 2
    case _ => 1
  }

  predicate Leaves(k: Kind) { k.Separator? || k.Other? }

  /** One turn: what is taken is pulled or left, and the scan goes on. */
  lemma ScanStep(kind: string -> Kind, t: seq<string>)
    requires t != []
    ensures var n := Bite(kind, t);
            var p := Scan(kind, t[n..]);
            Scan(kind, t) == if Leaves(kind(t[0])) then Parts(p.pulled, t[..n] + p.rest) else Parts(t[..n] + p.pulled, p.rest)
  {
    assert t[|t|..] == [] && t[..|t|] == t && t[..1] == [t[0]];
  }

  lemma ScanFrom(kind: string -> Kind, tail: seq<string>, k: nat)
    requires k < |tail|
    ensures var next := k + Bite(kind, tail[k..]);
            var p := Scan(kind, tail[next..]);
            Scan(kind, tail[k..]) ==
              if Leaves(kind(tail[k])) then Parts(p.pulled, tail[k..next] + p.rest) else Parts(tail[k..next] + p.pulled, p.rest)
  {
    ScanStep(kind, tail[k..]);
    DropDrop(tail, k, Bite(kind, tail[k..]));
  }

  /** One turn of the loop: what it pushes on either list, and where it goes on. */
  method Turn(kind: string -> Kind, tail: seq<string>, k: nat) returns (pull: seq<string>, leave: seq<string>, next: nat)
    requires k < |tail|
    ensures next == k + Bite(kind, tail[k..]) <= |tail|
    ensures if Leaves(kind(tail[k])) then pull == [] && leave == tail[k..next] else leave == [] && pull == tail[k..next]
  {
    var arg := tail[k];
    pull, leave, next := [], [], k + 1;
    match kind(arg) {
      case Separator =>
        // everything from here on is passed through verbatim
        leave, next := tail[k..], |tail|;
      case Value =>
        pull := [arg];
        if next < |tail| {
          pull, next := pull + [tail[next]], next + 1;
        }
      case Other =>
        leave := [arg];
      case _ =>
        pull := [arg];
    }
  }

  method ScanTail(kind: string -> Kind, tail: seq<string>) returns (pulled: seq<string>, remaining: seq<string>)
    ensures Parts(pulled, remaining) == Scan(kind, tail)
  {
    pulled, remaining := [], [];
    var k := 0;
    while k < |tail|
      invariant 0 <= k <= |tail|
      invariant Append(Parts(pulled, remaining), Scan(kind, tail[k..])) == Scan(kind, tail)
    {
      var pull, leave, next := Turn(kind, tail, k);
      ScanFrom(kind, tail, k);
      AppendStep(Parts(pulled, remaining), Parts(pull, leave), Scan(kind, tail[next..]));
      pulled, remaining, k := pulled + pull, remaining + leave, next;
    }
    assert tail[|tail|..] == [];
  }

  function Append(a: Parts, b: Parts): Parts { Parts(a.pulled + b.pulled, a.rest + b.rest) }

  lemma AppendStep(a: Parts, b: Parts, c: Parts)
    ensures Append(Append(a, b), c) == Append(a, Append(b, c))
    ensures b.pulled == [] ==> Append(b, c) == Parts(c.pulled, b.rest + c.rest)
    ensures b.rest == [] ==> Append(b, c) == Parts(b.pulled + c.pulled, c.rest)
  {
    Assoc(a.pulled, b.pulled, c.pulled);
    Assoc(a.rest, b.rest, c.rest);
  }

  // ---------------------------------------------------------------- the program's own flags

  /** The five flags that take a value. */
  ghost predicate TakesValue(a: string) {
    a == "--model" || a == "--port" || a == "--n-ctx" || a == "--channel-mcp-name" || a == "--backend-url"
  }

  /** The seven that take none. */
  ghost predicate TakesNone(a: string) {
    || a == "--no-model" || a == "--dedicated" || a == "--no-channel-wakeup" || a == "--no-piggyback"
    || a == "--no-room-bridge" || a == "--lean" || a == "--no-sandbox"
  }

  /** A flag with its value behind an equals sign. */
  ghost predicate HasValue(a: string) {
    exists f, v :: TakesValue(f) && a == f + "=" + v
  }

  ghost predicate Own(a: string) { TakesValue(a) || TakesNone(a) || HasValue(a) }

  lemma ValueFlags(a: string)
    ensures a in VALUE_FLAGS <==> TakesValue(a)
  {
  }

  lemma BoolFlags(a: string)
    ensures a in BOOL_FLAGS <==> TakesNone(a)
  {
  }

  lemma NoFlagTwice(a: string)
    requires TakesValue(a)
    ensures !TakesNone(a) && a != "--" && |a| >= 6
  {
  }

  lemma AssignedFlags(a: string)
    ensures (exists f :: f in VALUE_FLAGS && f + "=" <= a) <==> HasValue(a)
  {
    if exists f :: f in VALUE_FLAGS && f + "=" <= a {
      var f :| f in VALUE_FLAGS && f + "=" <= a;
      ValueFlags(f);
      assert a == f + "=" + a[|f| + 1..];
    }
    if HasValue(a) {
      var f, v :| TakesValue(f) && a == f + "=" + v;
      ValueFlags(f);
    }
  }

  /** How the program reads an argument, in those terms. */
  lemma KindReads(a: string)
    ensures KindOf(a) == if a == "--" then Separator else if TakesNone(a) then Bool else if TakesValue(a) then Value
                         else if HasValue(a) then Assigned else Other
    ensures TakesValue(a) || HasValue(a) ==> a != "--" && !TakesNone(a)
    ensures HasValue(a) ==> !TakesValue(a)
  {
    ValueFlags(a);
    BoolFlags(a);
    AssignedFlags(a);
    if HasValue(a) {
      var f, v :| TakesValue(f) && a == f + "=" + v;
      EqualsSign(a, f, v);
    }
  }

  lemma EqualsSign(a: string, f: string, v: string)
    requires a == f + "=" + v
    ensures !TakesValue(a) && !TakesNone(a) && a != "--"
  {
    assert a[|f|] == '=';
  }

  // ---------------------------------------------------------------- a stable partition

  /** `t` is `a` and `b` merged, each kept in its own order. */
  ghost predicate Shuffle(t: seq<string>, a: seq<string>, b: seq<string>)
    decreases |t|
  {
    if t == [] then a == [] && b == []
    else (a != [] && a[0] == t[0] && Shuffle(t[1..], a[1..], b)) ||
         (b != [] && b[0] == t[0] && Shuffle(t[1..], a, b[1..]))
  }

  lemma {:induction false} ShuffleAll(t: seq<string>)
    ensures Shuffle(t, t, []) && Shuffle(t, [], t)
  {
    if t != [] {
      ShuffleAll(t[1..]);
    }
  }

  lemma ShufflePull(x: string, t: seq<string>, a: seq<string>, b: seq<string>)
    requires Shuffle(t, a, b)
    ensures Shuffle([x] + t, [x] + a, b) && Shuffle([x] + t, a, [x] + b)
  {
    assert ([x] + t)[1..] == t && ([x] + a)[1..] == a && ([x] + b)[1..] == b;
  }

  lemma {:induction false} ShuffleIsPermutation(t: seq<string>, a: seq<string>, b: seq<string>)
    requires Shuffle(t, a, b)
    ensures multiset(t) == multiset(a) + multiset(b)
    decreases |t|
  {
    if t != [] {
      assert t == [t[0]] + t[1..];
      if a != [] && a[0] == t[0] && Shuffle(t[1..], a[1..], b) {
        ShuffleIsPermutation(t[1..], a[1..], b);
        assert a == [a[0]] + a[1..];
      } else {
        ShuffleIsPermutation(t[1..], a, b[1..]);
        assert b == [b[0]] + b[1..];
      }
    }
  }

  /** What is pulled and what is left are the tail, split without disturbing either order. */
  lemma {:induction false} StablePartition(kind: string -> Kind, t: seq<string>)
    ensures Shuffle(t, Scan(kind, t).pulled, Scan(kind, t).rest)
    decreases |t|
  {
    if t != [] {
      if kind(t[0]).Separator? || (kind(t[0]).Value? && |t| == 1) {
        ShuffleAll(t);
      } else if kind(t[0]).Value? {
        var s := Scan(kind, t[2..]);
        StablePartition(kind, t[2..]);
        ShufflePull(t[1], t[2..], s.pulled, s.rest);
        ShufflePull(t[0], [t[1]] + t[2..], [t[1]] + s.pulled, s.rest);
        assert [t[0]] + ([t[1]] + t[2..]) == t && [t[0]] + ([t[1]] + s.pulled) == t[..2] + s.pulled;
      } else {
        var s := Scan(kind, t[1..]);
        StablePartition(kind, t[1..]);
        ShufflePull(t[0], t[1..], s.pulled, s.rest);
        assert [t[0]] + t[1..] == t;
      }
    }
  }

  /** The result is a permutation of the arguments. */
  lemma Permutation(kind: string -> Kind, args: seq<string>)
    ensures multiset(ReorderBy(kind, args)) == multiset(args)
  {
    var i := FirstLaunch(args);
    if i < |args| {
      var head, tail := args[..i + 1], args[i + 1..];
      var p := Scan(kind, tail);
      StablePartition(kind, tail);
      ShuffleIsPermutation(tail, p.pulled, p.rest);
      assert args == head + tail;
    }
  }

  // ---------------------------------------------------------------- the separator

  /** Where the scan meets a `--` that no value flag has consumed, or the length. */
  function StopAt(kind: string -> Kind, t: seq<string>): (k: nat)
    ensures k <= |t| && (k < |t| ==> kind(t[k]).Separator?)
  {
    if t == [] then 0
    else match kind(t[0])
      case Separator => 0
      case Value => if |t| == 1 then 1 else StopAt(kind, t[2..]) + 2
      case _ => StopAt(kind, t[1..]) + 1
  }

  /** Everything from that separator on. */
  function FromStop(kind: string -> Kind, t: seq<string>): seq<string> { t[StopAt(kind, t)..] }

  /** It is kept verbatim, at the very end. */
  lemma {:induction false} SeparatorSuffix(kind: string -> Kind, t: seq<string>)
    ensures Suffix(FromStop(kind, t), Scan(kind, t).rest)
    decreases |t|
  {
    if t != [] && !kind(t[0]).Separator? {
      var n := Bite(kind, t);
      SeparatorSuffix(kind, t[n..]);
      ScanStep(kind, t);
      DropDrop(t, n, StopAt(kind, t[n..]));
      SuffixLonger(FromStop(kind, t), Scan(kind, t[n..]).rest, if Leaves(kind(t[0])) then t[..n] else []);
    }
  }

  lemma SuffixRejoined(kind: string -> Kind, head: seq<string>, tail: seq<string>)
    ensures Suffix(FromStop(kind, tail), Rejoin(head, Scan(kind, tail)))
  {
    var p := Scan(kind, tail);
    SeparatorSuffix(kind, tail);
    SuffixLonger(FromStop(kind, tail), p.rest, head + p.pulled);
  }

  /** The same for the whole command line. */
  lemma VerbatimSuffix(kind: string -> Kind, args: seq<string>)
    requires FirstLaunch(args) < |args|
    ensures Suffix(FromStop(kind, args[FirstLaunch(args) + 1..]), ReorderBy(kind, args))
  {
    var i := FirstLaunch(args);
    var tail := args[i + 1..];
    var out := Rejoin(args[..i + 1], Scan(kind, tail));
    assert ReorderBy(kind, args) == out;
    SuffixRejoined(kind, args[..i + 1], tail);
  }

  // ---------------------------------------------------------------- what moves

  /** None of the program's own flags, and no separator. */
  ghost predicate Foreign(mid: seq<string>) {
    forall i :: 0 <= i < |mid| ==> !Own(mid[i]) && mid[i] != "--"
  }

  lemma ForeignReads(mid: seq<string>)
    requires Foreign(mid)
    ensures forall i :: 0 <= i < |mid| ==> KindOf(mid[i]).Other?
  {
    forall i | 0 <= i < |mid| ensures KindOf(mid[i]).Other? {
      KindReads(mid[i]);
    }
  }

  lemma {:induction false} ScanOthers(kind: string -> Kind, mid: seq<string>, rest: seq<string>)
    requires forall i :: 0 <= i < |mid| ==> kind(mid[i]).Other?
    ensures Scan(kind, mid + rest) == Parts(Scan(kind, rest).pulled, mid + Scan(kind, rest).rest)
  {
    var p := Scan(kind, rest);
    if mid == [] {
      assert mid + rest == rest && mid + p.rest == p.rest;
    } else {
      ScanOthers(kind, mid[1..], rest);
      DropConcat(mid, rest, 1);
      TakeDrop(mid, 1);
      Assoc(mid[..1], mid[1..], p.rest);
      assert mid[..1] == [mid[0]];
    }
  }

  /** Behind the first `launch`, where `head` ends with it. */
  ghost predicate EndsInLaunch(head: seq<string>) {
    head != [] && head[|head| - 1] == "launch" && "launch" !in head[..|head| - 1]
  }

  lemma ReorderBehind(kind: string -> Kind, head: seq<string>, tail: seq<string>)
    requires EndsInLaunch(head)
    ensures ReorderBy(kind, head + tail) == head + Line(Scan(kind, tail))
  {
    var i, p := |head| - 1, Scan(kind, tail);
    IndexOfIs(head + tail, "launch", i);
    DropConcat(head, tail, |head|);
    assert head[|head|..] + tail == tail && (head + tail)[..i + 1] == head;
    Assoc(head, p.pulled, p.rest);
  }

  /** Without flags of the program nothing moves, and nothing moves behind a separator. */
  lemma NothingMoves(head: seq<string>, mid: seq<string>, rest: seq<string>)
    requires EndsInLaunch(head) && Foreign(mid) && (rest == [] || rest[0] == "--")
    ensures Reorder(head + (mid + rest)) == head + (mid + rest)
  {
    ForeignReads(mid);
    ScanOthers(KindOf, mid, rest);
    if rest != [] {
      KindReads(rest[0]);
    }
    ScanSettled(KindOf, rest);
    ReorderBehind(KindOf, head, mid + rest);
    assert [] + (mid + rest) == mid + rest;
  }

  /** The first of the program's own flags moves up behind `launch`, one with a value together with the
      argument behind it, whatever that is; everything else is as if they had not been there. */
  lemma FlagMoves(head: seq<string>, mid: seq<string>, flag: seq<string>, rest: seq<string>)
    requires EndsInLaunch(head) && Foreign(mid)
    requires if |flag| == 2 then TakesValue(flag[0])
             else |flag| == 1 && (TakesNone(flag[0]) || HasValue(flag[0]) || (TakesValue(flag[0]) && rest == []))
    ensures Reorder(head + (mid + (flag + rest))) == head + flag + Reorder(head + (mid + rest))[|head|..]
  {
    KindReads(flag[0]);
    ForeignReads(mid);
    PulledFirst(KindOf, mid, flag, rest);
    ReorderBehind(KindOf, head, mid + (flag + rest));
    ReorderBehind(KindOf, head, mid + rest);
    var line := Line(Scan(KindOf, mid + rest));
    Assoc(head, flag, line);
    DropConcat(head, line, |head|);
    assert head[|head|..] + line == line;
  }

  lemma PulledFirst(kind: string -> Kind, mid: seq<string>, flag: seq<string>, rest: seq<string>)
    requires forall i :: 0 <= i < |mid| ==> kind(mid[i]).Other?
    requires if |flag| == 2 then kind(flag[0]).Value?
             else |flag| == 1 && (Single(kind, flag[0]) || (kind(flag[0]).Value? && rest == []))
    ensures Line(Scan(kind, mid + (flag + rest))) == flag + Line(Scan(kind, mid + rest))
  {
    FlagPulled(kind, flag, rest);
    ScanOthers(kind, mid, flag + rest);
    ScanOthers(kind, mid, rest);
    var p := Scan(kind, rest);
    Assoc(flag, p.pulled, mid + p.rest);
  }

  lemma FlagPulled(kind: string -> Kind, flag: seq<string>, rest: seq<string>)
    requires if |flag| == 2 then kind(flag[0]).Value?
             else |flag| == 1 && (Single(kind, flag[0]) || (kind(flag[0]).Value? && rest == []))
    ensures Scan(kind, flag + rest) == Pull(flag, Scan(kind, rest))
  {
    var line := flag + rest;
    DropConcat(flag, rest, |flag|);
    assert flag[|flag|..] + rest == rest && flag[..|flag|] == flag && line[0] == flag[0];
    if |flag| == 1 {
      assert flag == [flag[0]];
      if rest == [] {
        assert flag + [] == flag && line == flag;
      }
    }
  }

  /** The program's own flags, each that takes a value with the argument behind it, if there is one. */
  ghost predicate OwnFlags(p: seq<string>) {
    p == [] || ((TakesNone(p[0]) || HasValue(p[0])) && OwnFlags(p[1..])) || (TakesValue(p[0]) && (|p| == 1 || OwnFlags(p[2..])))
  }

  /** None of them, unless behind a separator. */
  ghost predicate Strangers(r: seq<string>) {
    r == [] || r[0] == "--" || (!Own(r[0]) && Strangers(r[1..]))
  }

  lemma {:induction false} PulledAreOwn(p: seq<string>)
    requires Whole(KindOf, p) || Dangles(KindOf, p)
    ensures OwnFlags(p)
    decreases |p|
  {
    if p != [] {
      KindReads(p[0]);
      if Single(KindOf, p[0]) {
        PulledAreOwn(p[1..]);
      } else if |p| > 1 {
        PulledAreOwn(p[2..]);
      }
    }
  }

  lemma {:induction false} LeftAreStrangers(r: seq<string>)
    requires Settled(KindOf, r)
    ensures Strangers(r)
  {
    if r != [] {
      KindReads(r[0]);
      if KindOf(r[0]).Other? {
        LeftAreStrangers(r[1..]);
      }
    }
  }

  lemma OnlyOwnPulled(t: seq<string>)
    ensures OwnFlags(Scan(KindOf, t).pulled) && Strangers(Scan(KindOf, t).rest)
  {
    var p := Scan(KindOf, t);
    ScanShape(KindOf, t);
    PulledAreOwn(p.pulled);
    if Plain(KindOf, p.rest) {
      PlainSettles(KindOf, p.rest);
    }
    LeftAreStrangers(p.rest);
  }

  /** Argument `i` is the first of the program's own flags behind `launch`, and no separator precedes it. */
  ghost predicate FirstOwn(args: seq<string>, i: nat) {
    var n := FirstLaunch(args) + 1;
    n <= i < |args| && Own(args[i]) && Foreign(args[n..i])
  }

  /** The flag and its value, if it takes one and there is one. */
  ghost function FlagAt(args: seq<string>, i: nat): seq<string>
    requires i < |args|
  {
    if TakesValue(args[i]) && i + 1 < |args| then args[i..i + 2] else [args[i]]
  }

  lemma FirstOwnMoves(args: seq<string>, i: nat)
    requires FirstOwn(args, i)
    ensures args[..FirstLaunch(args) + 1] + FlagAt(args, i) <= Reorder(args)
  {
    var n, flag := FirstLaunch(args) + 1, FlagAt(args, i);
    var head, mid, rest := args[..n], args[n..i], args[i + |flag|..];
    KindReads(args[i]);
    assert args == head + (mid + (flag + rest));
    FlagMoves(head, mid, flag, rest);
  }

  /** The arguments behind `launch` are split into `p`, flags of the program, and `r`, both in their own order. */
  ghost predicate Fronted(args: seq<string>, out: seq<string>, p: seq<string>, r: seq<string>) {
    var n := FirstLaunch(args) + 1;
    n <= |args| && out == args[..n] + p + r && Shuffle(args[n..], p, r) && OwnFlags(p) && Strangers(r)
  }

  method ReorderLaunchArgs(args: seq<string>) returns (out: seq<string>)
    ensures out == Reorder(args)
    ensures if "launch" in args then exists p, r :: Fronted(args, out, p, r) else out == args
    // the first flag is right behind `launch`, with its value at its side
    ensures forall i: nat :: FirstOwn(args, i) ==> args[..FirstLaunch(args) + 1] + FlagAt(args, i) <= out
  {
    var launch := FirstLaunch(args);
    if launch == |args| { return args; }
    var pulled, remaining := ScanTail(KindOf, args[launch + 1..]);
    out := args[..launch + 1] + pulled + remaining;
    StablePartition(KindOf, args[launch + 1..]);
    OnlyOwnPulled(args[launch + 1..]);
    assert Fronted(args, out, pulled, remaining);
    forall i: nat | FirstOwn(args, i) ensures args[..launch + 1] + FlagAt(args, i) <= out {
      FirstOwnMoves(args, i);
    }
  }

  // ---------------------------------------------------------------- idempotence

  /** Left alone by the scan: plain arguments, then nothing or the separator. */
  ghost predicate Settled(kind: string -> Kind, rest: seq<string>) {
    rest == [] || kind(rest[0]).Separator? || (kind(rest[0]).Other? && Settled(kind, rest[1..]))
  }

  ghost predicate Plain(kind: string -> Kind, rest: seq<string>) {
    rest == [] || (kind(rest[0]).Other? && Plain(kind, rest[1..]))
  }

  ghost predicate Single(kind: string -> Kind, a: string) { kind(a).Bool? || kind(a).Assigned? }

  /** Pulled flags, every value flag with its value. */
  ghost predicate Whole(kind: string -> Kind, p: seq<string>) {
    p == [] || (Single(kind, p[0]) && Whole(kind, p[1..])) || (kind(p[0]).Value? && |p| >= 2 && Whole(kind, p[2..]))
  }

  /** Pulled flags, the last of which is a value flag without a value. */
  ghost predicate Dangles(kind: string -> Kind, p: seq<string>) {
    p != [] && ((Single(kind, p[0]) && Dangles(kind, p[1..])) || (kind(p[0]).Value? && (|p| == 1 || Dangles(kind, p[2..]))))
  }

  lemma {:induction false} ScanShape(kind: string -> Kind, t: seq<string>)
    ensures var p := Scan(kind, t); (Whole(kind, p.pulled) && Settled(kind, p.rest)) || (Dangles(kind, p.pulled) && Plain(kind, p.rest))
    decreases |t|
  {
    if t != [] {
      match kind(t[0]) {
        case Separator =>
        case Value =>
          if |t| > 1 {
            ScanShape(kind, t[2..]);
            assert Scan(kind, t).pulled[2..] == Scan(kind, t[2..]).pulled;
          }
        case Other =>
          ScanShape(kind, t[1..]);
          assert Scan(kind, t).rest[1..] == Scan(kind, t[1..]).rest;
        case _ =>
          ScanShape(kind, t[1..]);
          assert Scan(kind, t).pulled[1..] == Scan(kind, t[1..]).pulled;
      }
    }
  }

  lemma {:induction false} ScanSettled(kind: string -> Kind, rest: seq<string>)
    requires Settled(kind, rest)
    ensures Scan(kind, rest) == Parts([], rest)
  {
    if rest != [] && kind(rest[0]).Other? {
      ScanSettled(kind, rest[1..]);
      assert [rest[0]] + rest[1..] == rest;
    }
  }

  lemma {:induction false} PlainSettles(kind: string -> Kind, rest: seq<string>)
    requires Plain(kind, rest)
    ensures Settled(kind, rest)
  {
    if rest != [] {
      PlainSettles(kind, rest[1..]);
    }
  }

  /** The scan takes a whole flag from the front of a line and goes on. */
  lemma ScanFlag(kind: string -> Kind, p: seq<string>, rest: seq<string>, n: nat)
    requires p != [] && n <= |p|
    requires (Single(kind, p[0]) && n == 1) || (kind(p[0]).Value? && n == 2)
    ensures Scan(kind, p + rest) == Pull(p[..n], Scan(kind, p[n..] + rest))
    ensures p[..n] + p[n..] == p && p[..n] + (p[n..] + rest) == p + rest
  {
    var line := p + rest;
    DropConcat(p, rest, n);
    TakeDrop(p, n);
    Assoc(p[..n], p[n..], rest);
    assert line[0] == p[0] && p[..1] == [p[0]];
  }

  lemma {:induction false} ScanWhole(kind: string -> Kind, p: seq<string>, rest: seq<string>)
    requires Whole(kind, p) && Settled(kind, rest)
    ensures Scan(kind, p + rest) == Parts(p, rest)
    decreases |p|
  {
    if p == [] {
      assert p + rest == rest;
      ScanSettled(kind, rest);
    } else {
      var n := if Single(kind, p[0]) then 1 else 2;
      ScanFlag(kind, p, rest, n);
      ScanWhole(kind, p[n..], rest);
    }
  }

  lemma {:induction false} ScanDangling(kind: string -> Kind, p: seq<string>, rest: seq<string>)
    requires Dangles(kind, p) && Plain(kind, rest)
    ensures Line(Scan(kind, p + rest)) == p + rest
    decreases |p|
  {
    if kind(p[0]).Value? && |p| == 1 {
      DanglingLast(kind, p[0], rest);
      assert p == [p[0]];
    } else {
      var n := if Single(kind, p[0]) then 1 else 2;
      ScanFlag(kind, p, rest, n);
      ScanDangling(kind, p[n..], rest);
      var q := Scan(kind, p[n..] + rest);
      Assoc(p[..n], q.pulled, q.rest);
    }
  }

  /** A dangling value flag takes the first left-over argument for its value. */
  lemma DanglingLast(kind: string -> Kind, flag: string, rest: seq<string>)
    requires kind(flag).Value? && Plain(kind, rest)
    ensures Line(Scan(kind, [flag] + rest)) == [flag] + rest
  {
    var line := [flag] + rest;
    if rest != [] {
      PlainSettles(kind, rest[1..]);
      ScanSettled(kind, rest[1..]);
      assert line[2..] == rest[1..];
      TakeDrop(line, 2);
      assert line[..2] + [] == line[..2];
    }
  }

  function Line(p: Parts): seq<string> { p.pulled + p.rest }

  lemma ScanTwice(kind: string -> Kind, t: seq<string>)
    ensures Line(Scan(kind, Line(Scan(kind, t)))) == Line(Scan(kind, t))
  {
    var p := Scan(kind, t);
    ScanShape(kind, t);
    if Whole(kind, p.pulled) && Settled(kind, p.rest) {
      ScanWhole(kind, p.pulled, p.rest);
    } else {
      ScanDangling(kind, p.pulled, p.rest);
    }
  }

  /** Reordering twice is reordering once, also when a value flag dangles at the end: it then takes the
      first left-over argument for its value, and the line stays the same. */
  lemma ReorderIdempotent(kind: string -> Kind, args: seq<string>)
    ensures ReorderBy(kind, ReorderBy(kind, args)) == ReorderBy(kind, args)
  {
    var i := FirstLaunch(args);
    if i < |args| {
      var head, p := args[..i + 1], Scan(kind, args[i + 1..]);
      var out := head + Line(p);
      Assoc(head, p.pulled, p.rest);
      IndexOfIs(out, "launch", i);
      DropConcat(head, Line(p), i + 1);
      assert head[..i + 1] == head && head[i + 1..] + Line(p) == Line(p);
      ScanTwice(kind, args[i + 1..]);
      var q := Scan(kind, Line(p));
      Assoc(head, q.pulled, q.rest);
    }
  }
}
