/** The runtime-adjustable admission gate: a total limit, one slot kept for small requests, and a
    queue ordered fast lane first, then shortest job, then arrival. */
module Admission {

  datatype Waiter = Waiter(isFast: bool, cost: nat, seqNo: nat)

  datatype Guard = Guard(token: nat, isFast: bool)

  datatype Admitted = Granted(guard: Guard) | Parked(waiter: Waiter) | Overloaded

  /** `a` is to be admitted before `b`. */
  predicate Prefer(a: Waiter, b: Waiter) {
    if a.isFast != b.isFast then a.isFast
    else if a.cost != b.cost then a.cost < b.cost
    else a.seqNo < b.seqNo
  }

  function SaturatingPred(n: nat): nat { if n == 0 then 0 else n - 1 }

  ghost function Served(granted: seq<(Waiter, Guard)>): set<Waiter> {
    set p | p in granted :: p.0
  }

  lemma ServedAppend(a: seq<(Waiter, Guard)>, b: seq<(Waiter, Guard)>)
    ensures Served(a + b) == Served(a) + Served(b)
  {
    assert forall p :: p in a + b <==> p in a || p in b;
  }

  ghost function Nth(ws: seq<Waiter>, i: int): int { if 0 <= i < |ws| then ws[i].seqNo else -1 }

  /** Numbered in the order they came. */
  ghost predicate InArrivalOrder(ws: seq<Waiter>, next: nat) {
    && (forall i, j {:trigger Nth(ws, i), Nth(ws, j)} :: 0 <= i < j < |ws| ==> Nth(ws, i) < Nth(ws, j))
    && forall i {:trigger Nth(ws, i)} :: 0 <= i < |ws| ==> Nth(ws, i) < next
  }

  lemma OrderBelow(ws: seq<Waiter>, next: nat, w: Waiter)
    requires InArrivalOrder(ws, next) && w in ws
    ensures w.seqNo < next
  {
    var i :| 0 <= i < |ws| && ws[i] == w;
    assert Nth(ws, i) < next;
  }

  lemma OrderLoosen(ws: seq<Waiter>, next: nat, later: nat)
    requires InArrivalOrder(ws, next) && next <= later
    ensures InArrivalOrder(ws, later)
  {
  }

  lemma OrderFront(ws: seq<Waiter>, next: nat)
    requires InArrivalOrder(ws, next) && ws != []
    ensures ws[|ws| - 1].seqNo < next && InArrivalOrder(ws[..|ws| - 1], ws[|ws| - 1].seqNo)
  {
    var n := |ws| - 1;
    assert Nth(ws, n) < next;
    assert forall i {:trigger Nth(ws[..n], i)} :: 0 <= i < n ==> Nth(ws[..n], i) == Nth(ws, i) && Nth(ws, i) < Nth(ws, n);
  }

  lemma OrderAppend(ws: seq<Waiter>, w: Waiter, next: nat)
    requires InArrivalOrder(ws, w.seqNo) && w.seqNo < next
    ensures InArrivalOrder(ws + [w], next)
  {
    var all := ws + [w];
    assert forall i {:trigger Nth(all, i)} :: 0 <= i < |ws| ==> Nth(all, i) == Nth(ws, i) && Nth(ws, i) < w.seqNo;
    assert Nth(all, |ws|) == w.seqNo;
  }

  /** Of the waiters `from`, some were granted a slot and `left` remain; nobody left behind should have
      gone first, and nobody is both served and left. */
  ghost predicate InOrder(granted: seq<(Waiter, Guard)>, from: seq<Waiter>, left: seq<Waiter>) {
    && (forall w :: w in left ==> w in from)
    && (forall p :: p in granted ==> p.0 in from && p.0 !in left && p.1.isFast == p.0.isFast)
    && forall p, w :: p in granted && w in left ==> !Prefer(w, p.0)
  }

  lemma InOrderStep(granted: seq<(Waiter, Guard)>, served: seq<(Waiter, Guard)>, from: seq<Waiter>, mid: seq<Waiter>, left: seq<Waiter>)
    requires InOrder(granted, from, mid) && InOrder(served, mid, left)
    ensures InOrder(granted + served, from, left)
  {
  }

  /** The client of `w` had disconnected by one of the first `turns` turns. */
  ghost predicate GoneBy(gone: nat -> set<nat>, turns: nat, w: Waiter) {
    exists n: nat :: n < turns && w.seqNo in gone(n)
  }

  /** Everybody is accounted for: still waiting, served, disconnected, or the one waiter a turn chose and
      found gone at the hand-over (`refused`). */
  ghost predicate Kept(from: seq<Waiter>, left: seq<Waiter>, served: set<Waiter>, gone: nat -> set<nat>, turns: nat,
                       refused: map<nat, Waiter>) {
    forall w :: w in from ==> w in left || w in served || GoneBy(gone, turns, w) || w in refused.Values
  }

  /** At most one waiter per turn is refused, only when the hand-over failed, and nobody left behind
      should have gone first. */
  ghost predicate RefusedOk(refused: map<nat, Waiter>, lost: nat -> bool, turns: nat, left: seq<Waiter>) {
    forall n :: n in refused ==> n < turns && lost(n) && forall w :: w in left ==> !Prefer(w, refused[n])
  }

  lemma KeptStep(from: seq<Waiter>, mid: seq<Waiter>, left: seq<Waiter>, a: set<Waiter>, b: set<Waiter>,
                 gone: nat -> set<nat>, turn: nat, refused: map<nat, Waiter>, refused': map<nat, Waiter>)
    requires Kept(from, mid, a, gone, turn, refused)
    requires refused.Values <= refused'.Values
    requires forall w :: w in mid ==> w in left || w in b || w.seqNo in gone(turn) || w in refused'.Values
    ensures Kept(from, left, a + b, gone, turn + 1, refused')
  {
    forall w | w in from ensures w in left || w in a + b || GoneBy(gone, turn + 1, w) || w in refused'.Values {
      if GoneBy(gone, turn, w) {
        var n: nat :| n < turn && w.seqNo in gone(n);
        assert n < turn + 1;
      }
    }
  }

  function Open(ws: seq<Waiter>, gone: set<nat>): (r: seq<Waiter>)
    ensures forall w :: w in r <==> w in ws && w.seqNo !in gone
    ensures |r| <= |ws|
  {
    if ws == [] then []
    else
      var n := |ws| - 1;
      assert ws == ws[..n] + [ws[n]];
      if ws[n].seqNo in gone then Open(ws[..n], gone) else Open(ws[..n], gone) + [ws[n]]
  }

  lemma {:induction false} OpenInOrder(ws: seq<Waiter>, gone: set<nat>, next: nat)
    requires InArrivalOrder(ws, next)
    ensures InArrivalOrder(Open(ws, gone), next)
  {
    if ws != [] {
      var n := |ws| - 1;
      OrderFront(ws, next);
      OpenInOrder(ws[..n], gone, ws[n].seqNo);
      if ws[n].seqNo in gone {
        OrderLoosen(Open(ws[..n], gone), ws[n].seqNo, next);
      } else {
        OrderAppend(Open(ws[..n], gone), ws[n], next);
      }
    }
  }

  function Without(ws: seq<Waiter>, i: nat): seq<Waiter>
    requires i < |ws|
  {
    ws[..i] + ws[i + 1..]
  }

  lemma {:induction false} WithoutInOrder(ws: seq<Waiter>, i: nat, next: nat)
    requires i < |ws| && InArrivalOrder(ws, next)
    ensures InArrivalOrder(Without(ws, i), next) && ws[i] !in Without(ws, i)
  {
    var n := |ws| - 1;
    OrderFront(ws, next);
    if i == n {
      assert Without(ws, i) == ws[..n];
      OrderLoosen(ws[..n], ws[n].seqNo, next);
      if ws[i] in ws[..n] {
        OrderBelow(ws[..n], ws[n].seqNo, ws[i]);
      }
    } else {
      WithoutInOrder(ws[..n], i, ws[n].seqNo);
      assert Without(ws, i) == Without(ws[..n], i) + [ws[n]];
      OrderAppend(Without(ws[..n], i), ws[n], next);
      OrderBelow(ws[..n], ws[n].seqNo, ws[i]);
    }
  }

  lemma WithoutOnly(ws: seq<Waiter>, i: nat)
    requires i < |ws|
    ensures forall w :: w in ws <==> w in Without(ws, i) || w == ws[i]
  {
    assert ws == ws[..i] + ([ws[i]] + ws[i + 1..]);
  }

  lemma RefusedNext(refused: map<nat, Waiter>, out: set<Waiter>, lost: nat -> bool, turn: nat, mid: seq<Waiter>, left: seq<Waiter>)
    returns (refused': map<nat, Waiter>)
    requires RefusedOk(refused, lost, turn, mid) && forall w :: w in left ==> w in mid
    requires |out| <= 1 && (out != {} ==> lost(turn)) && forall r, w :: r in out && w in left ==> !Prefer(w, r)
    ensures RefusedOk(refused', lost, turn + 1, left) && refused'.Values == refused.Values + out
  {
    if r :| r in out {
      refused' := refused[turn := r];
      assert out == {r} by {
        assert |out - {r}| == 0;
      }
      assert turn !in refused;
      assert forall n :: n in refused ==> refused'[n] == refused[n];
      assert refused'[turn] == r;
    } else {
      refused' := refused;
    }
  }

  /** One turn of the queue `from`: everybody is left, served, gone, or the one whose hand-over failed. */
  ghost predicate Turned(from: seq<Waiter>, left: seq<Waiter>, served: seq<(Waiter, Guard)>, gone: set<nat>, lost: bool, out: set<Waiter>) {
    && InOrder(served, from, left)
    && (forall w :: w in from ==> w in left || w in Served(served) || w.seqNo in gone || w in out)
    && (forall w :: w in left || w in Served(served) ==> w.seqNo !in gone)
    && |out| <= 1 && (out != {} ==> lost && served == [])
    && forall r, w :: r in out && w in left ==> !Prefer(w, r)
  }

  /** `w` was taken out of the queue `from`, the best that fits; the others left are not to be preferred. */
  ghost predicate TakenOut(from: seq<Waiter>, left: seq<Waiter>, gone: set<nat>, found: bool, w: Waiter) {
    && (forall v :: v in left ==> v in from && v.seqNo !in gone && (found ==> !Prefer(v, w)))
    && (forall v :: v in from ==> v in left || v.seqNo in gone || (found && v == w))
    && (found ==> w in from && w !in left && w.seqNo !in gone)
  }

  lemma TurnedBy(from: seq<Waiter>, left: seq<Waiter>, gone: set<nat>, found: bool, w: Waiter, g: Guard, lost: bool)
    requires TakenOut(from, left, gone, found, w) && g.isFast == w.isFast
    ensures !found ==> Turned(from, left, [], gone, lost, {})
    ensures found && lost ==> Turned(from, left, [], gone, lost, {w})
    ensures found && !lost ==> Turned(from, left, [(w, g)], gone, lost, {})
  {
    assert [(w, g)][0] in [(w, g)] && (w, g).0 in Served([(w, g)]);
  }

  /** The client of `w` was still there at one of the first `turns` turns. */
  ghost predicate SeenBy(gone: nat -> set<nat>, turns: nat, w: Waiter) {
    exists n: nat :: n < turns && w.seqNo !in gone(n)
  }

  /** Nobody is left whose client was gone at the last turn, and nobody served whose client was gone at all. */
  ghost predicate GoneLeave(left: seq<Waiter>, served: set<Waiter>, gone: nat -> set<nat>, turns: nat) {
    && (turns > 0 ==> forall w :: w in left ==> w.seqNo !in gone(turns - 1))
    && forall w :: w in served ==> SeenBy(gone, turns, w)
  }

  lemma GoneLeaveStep(mid: seq<Waiter>, left: seq<Waiter>, a: set<Waiter>, b: set<Waiter>, gone: nat -> set<nat>, turn: nat)
    requires GoneLeave(mid, a, gone, turn) && forall w :: w in left || w in b ==> w.seqNo !in gone(turn)
    ensures GoneLeave(left, a + b, gone, turn + 1)
  {
    forall w | w in a + b ensures SeenBy(gone, turn + 1, w) {
      if w in a {
        var n: nat :| n < turn && w.seqNo !in gone(n);
        assert n < turn + 1;
      } else {
        assert turn < turn + 1 && w.seqNo !in gone(turn);
      }
    }
  }

  /** Nobody is served before somebody who should have gone first. */
  ghost predicate BestFirst(granted: seq<(Waiter, Guard)>) {
    granted == [] ||
    (BestFirst(granted[..|granted| - 1]) &&
     forall p :: p in granted[..|granted| - 1] ==> !Prefer(granted[|granted| - 1].0, p.0))
  }

  lemma BestFirstStep(granted: seq<(Waiter, Guard)>, served: seq<(Waiter, Guard)>, from: seq<Waiter>, mid: seq<Waiter>)
    requires BestFirst(granted) && InOrder(granted, from, mid) && |served| <= 1
    requires forall p :: p in served ==> p.0 in mid
    ensures BestFirst(granted + served)
  {
    if served == [] {
      assert granted + served == granted;
    } else {
      assert (granted + served)[..|granted|] == granted && served[0] in served;
    }
  }

  lemma {:induction false} BestFirstAt(granted: seq<(Waiter, Guard)>, i: nat, j: nat)
    requires BestFirst(granted) && i < j < |granted|
    ensures !Prefer(granted[j].0, granted[i].0)
  {
    var front := granted[..|granted| - 1];
    if j < |front| {
      BestFirstAt(front, i, j);
    } else {
      assert front[i] in front;
    }
  }

  /** No waiter is served twice. */
  ghost predicate ServedOnce(granted: seq<(Waiter, Guard)>) {
    granted == [] ||
    (ServedOnce(granted[..|granted| - 1]) && granted[|granted| - 1].0 !in Served(granted[..|granted| - 1]))
  }

  lemma ServedOnceStep(granted: seq<(Waiter, Guard)>, served: seq<(Waiter, Guard)>, mid: seq<Waiter>)
    requires ServedOnce(granted) && |served| <= 1
    requires forall p :: p in granted ==> p.0 !in mid
    requires forall p :: p in served ==> p.0 in mid
    ensures ServedOnce(granted + served)
  {
    if served == [] {
      assert granted + served == granted;
    } else {
      assert (granted + served)[..|granted|] == granted && served[0] in served;
    }
  }

  /** Some turns of the queue. */
  ghost predicate Handed(from: seq<Waiter>, left: seq<Waiter>, granted: seq<(Waiter, Guard)>,
                         gone: nat -> set<nat>, lost: nat -> bool, turns: nat, refused: map<nat, Waiter>) {
    && InOrder(granted, from, left)
    && Kept(from, left, Served(granted), gone, turns, refused)
    && RefusedOk(refused, lost, turns, left)
    && GoneLeave(left, Served(granted), gone, turns)
    && ServedOnce(granted) && BestFirst(granted)
  }

  ghost function Tokens(granted: seq<(Waiter, Guard)>, isFast: bool): set<nat> {
    set p | p in granted && p.1.isFast == isFast :: p.1.token
  }

  /** The guards handed out are new, held and armed, and all others are as before. */
  ghost predicate Issued(granted: seq<(Waiter, Guard)>, general: set<nat>, fast: set<nat>, general': set<nat>, fast': set<nat>, first: nat) {
    && general' == general + Tokens(granted, false) && fast' == fast + Tokens(granted, true)
    && forall p :: p in granted ==> first <= p.1.token
  }

  lemma TokensAppend(a: seq<(Waiter, Guard)>, b: seq<(Waiter, Guard)>, isFast: bool)
    ensures Tokens(a + b, isFast) == Tokens(a, isFast) + Tokens(b, isFast)
  {
    assert forall p :: p in a + b <==> p in a || p in b;
  }

  lemma IssuedStep(granted: seq<(Waiter, Guard)>, served: seq<(Waiter, Guard)>, g0: set<nat>, f0: set<nat>, g1: set<nat>, f1: set<nat>,
                   g2: set<nat>, f2: set<nat>, first: nat, next: nat)
    requires Issued(granted, g0, f0, g1, f1, first) && Issued(served, g1, f1, g2, f2, next) && first <= next
    ensures Issued(granted + served, g0, f0, g2, f2, first)
  {
    TokensAppend(granted, served, false);
    TokensAppend(granted, served, true);
  }

  lemma IssuedOne(w: Waiter, g: Guard)
    ensures Tokens([(w, g)], g.isFast) == {g.token} && Tokens([(w, g)], !g.isFast) == {}
    ensures Tokens([], true) == {} && Tokens([], false) == {}
  {
    assert (w, g) in [(w, g)];
  }

  /** How many of the grants are for big requests. */
  ghost function Bigs(granted: seq<(Waiter, Guard)>): nat {
    if granted == [] then 0
    else Bigs(granted[..|granted| - 1]) + if granted[|granted| - 1].1.isFast then 0 else 1
  }

  lemma BigsAppend(granted: seq<(Waiter, Guard)>, served: seq<(Waiter, Guard)>)
    requires |served| <= 1
    ensures Bigs(granted + served) == Bigs(granted) + Bigs(served)
  {
    if served == [] {
      assert granted + served == granted;
    } else {
      assert (granted + served)[..|granted|] == granted && served[..0] == [];
    }
  }

  // ---------------------------------------------------------------- the whole state as a value

  /** Everything a scheduler holds: its limits, its queue, and the tokens of the guards that are armed. */
  datatype View = View(limit: nat, capacity: nat, waiters: seq<Waiter>, nextSeq: nat, nextToken: nat, general: set<nat>, fast: set<nat>)

  ghost predicate ViewOk(v: View) {
    && v.limit >= 1 && v.capacity >= 1 && InArrivalOrder(v.waiters, v.nextSeq)
    && forall t :: t in v.general || t in v.fast ==> t < v.nextToken
  }

  ghost function Used(v: View): nat { |v.general| + |v.fast| }

  /** The view once guard `g` is armed. */
  ghost function Armed(v: View, g: Guard): View {
    if g.isFast then v.(fast := v.fast + {g.token}) else v.(general := v.general + {g.token})
  }

  /** The view once guard `g` is dropped. */
  ghost function Retired(v: View, g: Guard): View {
    if g.isFast then v.(fast := v.fast - {g.token}) else v.(general := v.general - {g.token})
  }

  ghost predicate Holds(v: View, g: Guard) { g.token in if g.isFast then v.fast else v.general }

  /** From `a` to `b` only the queue got shorter and guards were issued, one for each grant. */
  ghost predicate Grew(a: View, b: View, granted: seq<(Waiter, Guard)>) {
    && b == a.(waiters := b.waiters, nextToken := b.nextToken, general := b.general, fast := b.fast)
    && Issued(granted, a.general, a.fast, b.general, b.fast, a.nextToken) && a.nextToken <= b.nextToken
    && |b.general| == |a.general| + Bigs(granted) && Used(b) == Used(a) + |granted|
  }

  /** One turn of the loop, and all its turns. */
  ghost predicate Turn(a: View, b: View, served: seq<(Waiter, Guard)>, gone: set<nat>, lost: bool, out: set<Waiter>) {
    Grew(a, b, served) && Turned(a.waiters, b.waiters, served, gone, lost, out) && |served| <= 1
  }

  ghost predicate Pumped(a: View, b: View, granted: seq<(Waiter, Guard)>, gone: nat -> set<nat>, lost: nat -> bool,
                         turns: nat, refused: map<nat, Waiter>) {
    Grew(a, b, granted) && Handed(a.waiters, b.waiters, granted, gone, lost, turns, refused)
  }

  lemma GrewStep(a: View, m: View, b: View, granted: seq<(Waiter, Guard)>, served: seq<(Waiter, Guard)>)
    requires Grew(a, m, granted) && Grew(m, b, served) && |served| <= 1
    ensures Grew(a, b, granted + served)
  {
    IssuedStep(granted, served, a.general, a.fast, m.general, m.fast, b.general, b.fast, a.nextToken, m.nextToken);
    BigsAppend(granted, served);
  }

  lemma PumpedStep(a: View, m: View, b: View, granted: seq<(Waiter, Guard)>, served: seq<(Waiter, Guard)>,
                   gone: nat -> set<nat>, lost: nat -> bool, turn: nat, refused: map<nat, Waiter>, out: set<Waiter>)
    returns (refused': map<nat, Waiter>)
    requires Pumped(a, m, granted, gone, lost, turn, refused) && Turn(m, b, served, gone(turn), lost(turn), out)
    ensures Pumped(a, b, granted + served, gone, lost, turn + 1, refused')
  {
    GrewStep(a, m, b, granted, served);
    ServedAppend(granted, served);
    ServedOnceStep(granted, served, m.waiters);
    BestFirstStep(granted, served, a.waiters, m.waiters);
    InOrderStep(granted, served, a.waiters, m.waiters, b.waiters);
    refused' := RefusedNext(refused, out, lost, turn, m.waiters, b.waiters);
    KeptStep(a.waiters, m.waiters, b.waiters, Served(granted), Served(served), gone, turn, refused, refused');
    GoneLeaveStep(m.waiters, b.waiters, Served(granted), Served(served), gone, turn);
  }

  lemma PumpedNone(a: View, gone: nat -> set<nat>, lost: nat -> bool)
    ensures Pumped(a, a, [], gone, lost, 0, map[])
  {
    assert Tokens([], true) == {} && Tokens([], false) == {} && Served([]) == {};
  }

  /** The three ways a turn can go. */
  lemma TurnNone(a: View, b: View, gone: set<nat>, w: Waiter, lost: bool)
    requires b == a.(waiters := b.waiters) && TakenOut(a.waiters, b.waiters, gone, false, w)
    ensures Turn(a, b, [], gone, lost, {})
  {
    TurnedBy(a.waiters, b.waiters, gone, false, w, Guard(0, w.isFast), lost);
    assert Tokens([], true) == {} && Tokens([], false) == {};
  }

  lemma TurnRefused(a: View, b: View, gone: set<nat>, w: Waiter)
    requires b == a.(waiters := b.waiters, nextToken := b.nextToken) && a.nextToken <= b.nextToken
    requires TakenOut(a.waiters, b.waiters, gone, true, w)
    ensures Turn(a, b, [], gone, true, {w})
  {
    TurnedBy(a.waiters, b.waiters, gone, true, w, Guard(0, w.isFast), true);
    assert Tokens([], true) == {} && Tokens([], false) == {};
  }

  lemma TurnServed(a: View, b: View, gone: set<nat>, w: Waiter, g: Guard)
    requires ViewOk(a) && g == Guard(a.nextToken, w.isFast)
    requires b == Armed(a.(waiters := b.waiters, nextToken := a.nextToken + 1), g) && TakenOut(a.waiters, b.waiters, gone, true, w)
    ensures Turn(a, b, [(w, g)], gone, false, {})
  {
    TurnedBy(a.waiters, b.waiters, gone, true, w, g, false);
    IssuedOne(w, g);
    assert [(w, g)][..0] == [];
    assert a.nextToken !in a.general && a.nextToken !in a.fast;
  }

  /** A record of one turn. */
  datatype Lap = Lap(a: View, b: View, served: seq<(Waiter, Guard)>, out: set<Waiter>)

  ghost predicate LapOk(l: Lap, gone: set<nat>, lost: bool) { Turn(l.a, l.b, l.served, gone, lost, l.out) }

  /** The turns lead from `start` to `end`, each from where the one before it ended. */
  ghost predicate Laps(laps: seq<Lap>, start: View, end: View, gone: nat -> set<nat>, lost: nat -> bool) {
    if laps == [] then start == end
    else
      var n := |laps| - 1;
      laps[n].b == end && LapOk(laps[n], gone(n), lost(n)) && Laps(laps[..n], start, laps[n].a, gone, lost)
  }

  ghost function AllServed(laps: seq<Lap>): seq<(Waiter, Guard)> {
    if laps == [] then [] else AllServed(laps[..|laps| - 1]) + laps[|laps| - 1].served
  }

  lemma LapsStep(laps: seq<Lap>, start: View, mid: View, end: View, l: Lap, gone: nat -> set<nat>, lost: nat -> bool)
    requires Laps(laps, start, mid, gone, lost) && l.a == mid && l.b == end && LapOk(l, gone(|laps|), lost(|laps|))
    ensures Laps(laps + [l], start, end, gone, lost) && AllServed(laps + [l]) == AllServed(laps) + l.served
  {
    assert (laps + [l])[..|laps|] == laps;
  }

  lemma {:induction false} LapsPumped(laps: seq<Lap>, start: View, end: View, gone: nat -> set<nat>, lost: nat -> bool)
    returns (refused: map<nat, Waiter>)
    requires Laps(laps, start, end, gone, lost)
    ensures Pumped(start, end, AllServed(laps), gone, lost, |laps|, refused)
  {
    if laps == [] {
      PumpedNone(start, gone, lost);
      refused := map[];
    } else {
      var n := |laps| - 1;
      var front, l := laps[..n], laps[n];
      refused := LapsPumped(front, start, l.a, gone, lost);
      refused := PumpedStep(start, l.a, end, AllServed(front), l.served, gone, lost, n, refused, l.out);
    }
  }

  /** Retiring a guard and issuing new ones leaves every other guard as it was. */
  lemma OnlyThatGuard(a: View, b: View, g: Guard, granted: seq<(Waiter, Guard)>)
    requires ViewOk(a) && Holds(a, g) && Grew(Retired(a, g), b, granted)
    ensures !Holds(b, g) && forall h :: h != g && Holds(a, h) ==> Holds(b, h)
  {
    assert g.token < a.nextToken;
    assert g.token !in Tokens(granted, g.isFast);
  }

  /** The view after a turn that left `waiters` in the queue. */
  ghost function Handled(a: View, waiters: seq<Waiter>, found: bool, g: Guard, lost: bool): View {
    var v := a.(waiters := waiters);
    if !found then v else if lost then v.(nextToken := a.nextToken + 1) else Armed(v.(nextToken := a.nextToken + 1), g)
  }

  lemma TurnBy(a: View, b: View, gone: set<nat>, found: bool, w: Waiter, g: Guard, lost: bool)
    requires ViewOk(a) && g == Guard(a.nextToken, w.isFast) && TakenOut(a.waiters, b.waiters, gone, found, w)
    requires b == Handled(a, b.waiters, found, g, lost)
    ensures Turn(a, b, if found && !lost then [(w, g)] else [], gone, lost, if found && lost then {w} else {})
  {
    if !found {
      TurnNone(a, b, gone, w, lost);
    } else if lost {
      TurnRefused(a, b, gone, w);
    } else {
      TurnServed(a, b, gone, w, g);
    }
  }

  /** A slot is free for it: any slot for a small request, one that is not reserved for a big one. */
  predicate HasRoom(isFast: bool, any: bool, big: bool) { any && (isFast || big) }

  function Max(a: nat, b: nat): nat { if a < b then b else a }

  function Cap(limit: nat, fastlane: nat): nat { if fastlane > 0 && limit >= 2 then limit - 1 else limit }

  class AdmissionScheduler {
    var limit: nat
    var capacity: nat
    const fastlaneTokens: nat
    const queueMax: nat
    var generalInUse: nat
    var fastInUse: nat
    var waiters: seq<Waiter>
    var nextSeq: nat
    var nextToken: nat
    ghost var liveGeneral: set<nat>   // tokens of the guards that are held and armed
    ghost var liveFast: set<nat>

    ghost function Seen(): View
      reads this
    {
      View(limit, capacity, waiters, nextSeq, nextToken, liveGeneral, liveFast)
    }

    function InUse(): nat
      reads this
    {
      generalInUse + fastInUse
    }

    function GeneralCap(): nat
      reads this
    {
      Cap(limit, fastlaneTokens)
    }

    predicate CanAdmit(isFast: bool)
      reads this
    {
      HasRoom(isFast, InUse() < limit, generalInUse < GeneralCap())
    }

    ghost predicate Live(g: Guard)
      reads this
    {
      Holds(Seen(), g)
    }

    /** The counters are the live guards, one for one, and the queue is in order of arrival. */
    ghost predicate Accounted()
      reads this
    {
      generalInUse == |liveGeneral| && fastInUse == |liveFast| && ViewOk(Seen())
    }

    /** No waiter that could run is left parked. */
    ghost predicate NoLostWakeup()
      reads this
    {
      forall w :: w in waiters ==> !CanAdmit(w.isFast)
    }

    ghost predicate Valid()
      reads this
    {
      Accounted() && NoLostWakeup()
    }

    /** Within the limit, with the reserved slot free of big requests; a lowered limit may be exceeded
        until enough guards are dropped. */
    ghost predicate Fits()
      reads this
    {
      InUse() <= limit && generalInUse <= GeneralCap()
    }

    /** Nobody is admitted past the limit or into the reserved slot: a counter is within its bound, or no
        larger than it was. */
    ghost predicate NeverPast(inUse: nat, big: nat)
      reads this
    {
      InUse() <= Max(inUse, limit) && generalInUse <= Max(big, GeneralCap())
    }

    constructor (limit: nat, fastlaneTokens: nat, queueMax: nat)
      ensures Valid() && Fits() && InUse() == 0 && waiters == [] && this.limit == if limit == 0 then 1 else limit
      ensures this.fastlaneTokens == fastlaneTokens && this.queueMax == queueMax
    {
      this.limit := if limit == 0 then 1 else limit;
      capacity := if limit == 0 then 1 else limit;
      this.fastlaneTokens, this.queueMax := fastlaneTokens, queueMax;
      generalInUse, fastInUse, waiters, nextSeq, nextToken := 0, 0, [], 0, 0;
      liveGeneral, liveFast := {}, {};
    }

    method Take(isFast: bool) returns (g: Guard)
      requires Accounted() && CanAdmit(isFast)
      modifies this
      ensures Accounted() && g == Guard(old(nextToken), isFast) && !old(Live(g))
      ensures Seen() == Armed(old(Seen()).(nextToken := old(nextToken) + 1), g)
      ensures InUse() <= limit && NeverPast(old(InUse()), old(generalInUse))
    {
      g := Guard(nextToken, isFast);
      nextToken := nextToken + 1;
      if isFast {
        fastInUse, liveFast := fastInUse + 1, liveFast + {g.token};
      } else {
        generalInUse, liveGeneral := generalInUse + 1, liveGeneral + {g.token};
      }
    }

    method PutBack(g: Guard)
      requires Accounted() && Live(g)
      modifies this
      ensures Accounted() && Seen() == Retired(old(Seen()), g)
      ensures InUse() == old(InUse()) - 1 && generalInUse == old(generalInUse) - (if g.isFast then 0 else 1)
    {
      if g.isFast {
        fastInUse, liveFast := SaturatingPred(fastInUse), liveFast - {g.token};
      } else {
        generalInUse, liveGeneral := SaturatingPred(generalInUse), liveGeneral - {g.token};
      }
    }

    /** The admittable waiter no other admittable waiter is preferred to, or -1 when there is none. */
    method BestAdmittable() returns (best: int)
      ensures -1 <= best < |waiters|
      ensures best == -1 <==> forall w :: w in waiters ==> !CanAdmit(w.isFast)
      ensures best >= 0 ==> CanAdmit(waiters[best].isFast)
      ensures best >= 0 ==> forall w :: w in waiters && CanAdmit(w.isFast) ==> !Prefer(w, waiters[best])
      // fast lane, then shortest job, then arrival
      ensures best >= 0 ==> forall w :: w in waiters && CanAdmit(w.isFast) ==>
        var b := waiters[best];
        && (w.isFast ==> b.isFast)
        && (w.isFast == b.isFast ==> b.cost <= w.cost && (b.cost == w.cost ==> b.seqNo <= w.seqNo))
    {
      best := -1;
      for i := 0 to |waiters|
        invariant -1 <= best < i
        invariant best == -1 ==> forall j :: 0 <= j < i ==> !CanAdmit(waiters[j].isFast)
        invariant best >= 0 ==> CanAdmit(waiters[best].isFast)
        invariant best >= 0 ==> forall j :: 0 <= j < i && CanAdmit(waiters[j].isFast) ==> !Prefer(waiters[j], waiters[best])
      {
        if CanAdmit(waiters[i].isFast) && (best == -1 || Prefer(waiters[i], waiters[best])) {
          best := i;
        }
      }
    }

    /** Forgets the waiters whose client is gone and takes the best that fits out of the queue. */
    method TakeOut(gone: set<nat>) returns (found: bool, w: Waiter)
      requires InArrivalOrder(waiters, nextSeq)
      modifies this`waiters
      ensures InArrivalOrder(waiters, nextSeq)
      ensures |waiters| + (if found then 1 else 0) <= |old(waiters)| && (found || NoLostWakeup())
      ensures found ==> CanAdmit(w.isFast)
      ensures TakenOut(old(waiters), waiters, gone, found, w)
    {
      OpenInOrder(waiters, gone, nextSeq);
      waiters := Open(waiters, gone);
      var best := BestAdmittable();
      w := Waiter(false, 0, 0);
      found := best >= 0;
      if found {
        w := waiters[best];
        WithoutInOrder(waiters, best, nextSeq);
        WithoutOnly(waiters, best);
        waiters := Without(waiters, best);
      }
    }

    /** Arms a guard for a waiter; if the hand-over fails its slot is reclaimed. */
    method HandSlot(isFast: bool, lost: bool) returns (g: Guard)
      requires Accounted() && CanAdmit(isFast)
      modifies this
      ensures Accounted() && g == Guard(old(nextToken), isFast) && NeverPast(old(InUse()), old(generalInUse))
      ensures var v := old(Seen()).(nextToken := old(nextToken) + 1); Seen() == if lost then v else Armed(v, g)
    {
      g := Take(isFast);
      if lost {
        PutBack(g);
      }
    }

    /** Takes the best waiter that fits out of the queue and hands it a slot. */
    method ServeBest(gone: set<nat>, lost: bool) returns (found: bool, w: Waiter, g: Guard)
      requires Accounted()
      modifies this
      ensures Accounted() && TakenOut(old(waiters), waiters, gone, found, w) && g == Guard(old(nextToken), w.isFast)
      ensures Seen() == Handled(old(Seen()), waiters, found, g, lost)
      ensures |waiters| + (if found then 1 else 0) <= |old(waiters)| && (found || NoLostWakeup())
      ensures NeverPast(old(InUse()), old(generalInUse))
    {
      found, w := TakeOut(gone);
      g := Guard(nextToken, w.isFast);
      if found {
        g := HandSlot(w.isFast, lost);
      }
    }

    /** One turn: the best waiter that fits is handed a slot.  `refused` is that waiter when the hand-over
        found its client gone. */
    method PumpOnce(gone: set<nat>, lost: bool) returns (more: bool, served: seq<(Waiter, Guard)>, ghost refused: set<Waiter>)
      requires Accounted()
      modifies this
      ensures Accounted() && LapOk(Lap(old(Seen()), Seen(), served, refused), gone, lost) && limit == old(limit)
      ensures |waiters| + (if more then 1 else 0) <= |old(waiters)| && (more || NoLostWakeup())
      ensures NeverPast(old(InUse()), old(generalInUse))
    {
      ghost var before := Seen();
      var w, g;
      more, w, g := ServeBest(gone, lost);
      served := if more && !lost then [(w, g)] else [];
      refused := if more && lost then {w} else {};
      TurnBy(before, Seen(), gone, more, w, g, lost);
    }

    /** Hands slots to waiters until none can be admitted.  `gone(n)` are the waiters whose client has
        disconnected by the n-th turn of the loop, `lost(n)` that the hand-over itself found nobody. */
    method Pump(gone: nat -> set<nat>, lost: nat -> bool)
      returns (granted: seq<(Waiter, Guard)>, ghost turns: nat, ghost refused: map<nat, Waiter>)
      requires Accounted()
      modifies this
      ensures Valid() && Pumped(old(Seen()), Seen(), granted, gone, lost, turns, refused)
      ensures 0 < turns <= |old(waiters)| + 1 && NeverPast(old(InUse()), old(generalInUse))
    {
      ghost var start, laps := Seen(), [];
      granted, laps := PumpLoop(gone, lost);
      turns := |laps|;
      refused := LapsPumped(laps, start, Seen(), gone, lost);
    }

    /** The loop, with a record of its turns. */
    method PumpLoop(gone: nat -> set<nat>, lost: nat -> bool) returns (granted: seq<(Waiter, Guard)>, ghost laps: seq<Lap>)
      requires Accounted()
      modifies this
      ensures Valid() && Laps(laps, old(Seen()), Seen(), gone, lost) && granted == AllServed(laps)
      ensures 0 < |laps| <= |old(waiters)| + 1 && NeverPast(old(InUse()), old(generalInUse))
    {
      granted, laps := [], [];
      var turn, more := 0, true;
      ghost var start, now, inUse, big, room := Seen(), Seen(), InUse(), generalInUse, limit;
      while more
        invariant Accounted() && (!more ==> NoLostWakeup()) && turn == |laps| && (turn == 0 ==> more)
        invariant now == Seen() && Laps(laps, start, now, gone, lost) && granted == AllServed(laps)
        invariant turn + |waiters| + (if more then 1 else 0) <= |start.waiters| + 1
        invariant limit == room && NeverPast(inUse, big)
        decreases more, |waiters|
      {
        var served;
        ghost var mid, out := now, {};
        more, served, out := PumpOnce(gone(turn), lost(turn));
        now := Seen();
        LapsStep(laps, start, mid, now, Lap(mid, now, served, out), gone, lost);
        laps := laps + [Lap(mid, now, served, out)];
        granted := granted + served;
        turn := turn + 1;
      }
    }

    /** Take a slot, join the queue, or be shed; shedding needs a bounded queue. */
    method Admit(weight: nat) returns (r: Admitted)
      requires Valid()
      modifies this
      ensures Valid() && NeverPast(old(InUse()), old(generalInUse))
      ensures var isFast := fastlaneTokens > 0 && weight < fastlaneTokens;
              && (r.Granted? <==> old(CanAdmit(isFast)))
              && (r.Overloaded? <==> !old(CanAdmit(isFast)) && queueMax > 0 && old(|waiters|) >= queueMax)
              && match r
                 // a new guard, and every other as before
                 case Granted(g) => g == Guard(old(nextToken), isFast) && !old(Live(g)) && Live(g) &&
                                    Seen() == Armed(old(Seen()).(nextToken := old(nextToken) + 1), g)
                 // at the end of the queue, with a number larger than any before it
                 case Parked(w) => w == Waiter(isFast, weight, old(nextSeq)) &&
                                   Seen() == old(Seen()).(waiters := old(waiters) + [w], nextSeq := old(nextSeq) + 1)
                 case Overloaded => Seen() == old(Seen())
      ensures queueMax == 0 ==> !r.Overloaded?
    {
      var isFast := fastlaneTokens > 0 && weight < fastlaneTokens;
      if CanAdmit(isFast) {
        var g := Take(isFast);
        return Granted(g);
      }
      if queueMax > 0 && |waiters| >= queueMax { return Overloaded; }
      var w := Park(isFast, weight);
      r := Parked(w);
    }

    /** Joins the queue at its end. */
    method Park(isFast: bool, weight: nat) returns (w: Waiter)
      requires Accounted()
      modifies this`waiters, this`nextSeq
      ensures Accounted() && w == Waiter(isFast, weight, old(nextSeq))
      ensures waiters == old(waiters) + [w] && nextSeq == old(nextSeq) + 1
    {
      w := Waiter(isFast, weight, nextSeq);
      OrderAppend(waiters, w, nextSeq + 1);
      nextSeq := nextSeq + 1;
      waiters := waiters + [w];
    }

    /** Dropping a guard frees its slot and wakes whoever fits. */
    method Release(g: Guard, gone: nat -> set<nat>, lost: nat -> bool)
      returns (granted: seq<(Waiter, Guard)>, ghost turns: nat, ghost refused: map<nat, Waiter>)
      requires Valid() && Live(g)
      modifies this
      ensures Valid() && Pumped(Retired(old(Seen()), g), Seen(), granted, gone, lost, turns, refused)
      ensures 0 < turns <= |old(waiters)| + 1
      // those woken fit, or the slots in use are fewer than before
      ensures NeverPast(old(InUse()) - 1, old(generalInUse) - if g.isFast then 0 else 1)
      // exactly this guard is retired
      ensures !Live(g) && forall h :: h != g && old(Live(h)) ==> Live(h)
      ensures InUse() == old(InUse()) - 1 + |granted| && generalInUse == old(generalInUse) - (if g.isFast then 0 else 1) + Bigs(granted)
    {
      ghost var before := Seen();
      PutBack(g);
      granted, turns, refused := Pump(gone, lost);
      OnlyThatGuard(before, Seen(), g, granted);
    }

    /** The breaker lowers the limit by one, never below one; nobody is woken and nobody has to be. */
    method Trip() returns (now: nat)
      requires Valid()
      modifies this`limit
      ensures Valid() && now == limit == if old(limit) <= 1 then 1 else old(limit) - 1
    {
      limit := if limit <= 1 then 1 else limit - 1;
      now := limit;
    }

    /** The limit moves back towards the capacity by one, and waiters that now fit are woken. */
    method RecoverStep(gone: nat -> set<nat>, lost: nat -> bool)
      returns (now: nat, granted: seq<(Waiter, Guard)>, ghost turns: nat, ghost refused: map<nat, Waiter>)
      requires Valid()
      modifies this
      ensures Valid() && now == limit == if old(limit) + 1 < capacity then old(limit) + 1 else capacity
      ensures Pumped(old(Seen()).(limit := now), Seen(), granted, gone, lost, turns, refused) && 0 < turns <= |old(waiters)| + 1
      ensures NeverPast(old(InUse()), old(generalInUse))
    {
      limit := if limit + 1 < capacity then limit + 1 else capacity;
      granted, turns, refused := Pump(gone, lost);
      now := limit;
    }

    /** Moves the limit, never below one; waiters that now fit are woken. */
    method SetLimit(newLimit: nat, gone: nat -> set<nat>, lost: nat -> bool)
      returns (granted: seq<(Waiter, Guard)>, ghost turns: nat, ghost refused: map<nat, Waiter>)
      requires Valid()
      modifies this
      ensures Valid() && limit == if newLimit == 0 then 1 else newLimit
      ensures Pumped(old(Seen()).(limit := limit), Seen(), granted, gone, lost, turns, refused) && 0 < turns <= |old(waiters)| + 1
      ensures NeverPast(old(InUse()), old(generalInUse))
    {
      limit := if newLimit == 0 then 1 else newLimit;
      granted, turns, refused := Pump(gone, lost);
    }

    /** Moves the limit and the capacity it recovers to. */
    method SetCeiling(ceiling: nat, gone: nat -> set<nat>, lost: nat -> bool)
      returns (granted: seq<(Waiter, Guard)>, ghost turns: nat, ghost refused: map<nat, Waiter>)
      requires Valid()
      modifies this
      ensures Valid() && limit == capacity == if ceiling == 0 then 1 else ceiling
      ensures Pumped(old(Seen()).(limit := limit, capacity := capacity), Seen(), granted, gone, lost, turns, refused)
      ensures 0 < turns <= |old(waiters)| + 1 && NeverPast(old(InUse()), old(generalInUse))
    {
      capacity := if ceiling == 0 then 1 else ceiling;
      limit := capacity;
      granted, turns, refused := Pump(gone, lost);
    }

    /** A parked request is never waiting for nothing: somebody holds a slot whose release wakes the queue. */
    lemma ParkedMeansBusy()
      requires Valid() && waiters != []
      ensures InUse() > 0 && exists g :: Live(g)
    {
      assert waiters[0] in waiters;
      if liveFast != {} {
        var t :| t in liveFast;
        assert Live(Guard(t, true));
      } else {
        var t :| t in liveGeneral;
        assert Live(Guard(t, false));
      }
    }
  }
}
