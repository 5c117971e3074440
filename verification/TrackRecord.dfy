/** The persisted pass statistics that decide whether a redundant middle link is dropped, and the
    load-modify-write races of concurrent launches on that file. */
module TrackRecord {
  import opened Wrappers

  const U64_MAX: nat := 0xFFFF_FFFF_FFFF_FFFF

  datatype Stat = Stat(attempts: nat, passes: nat, unknown: nat)

  const NO_STAT := Stat(0, 0, 0)

  function SaturatingMul(a: nat, b: nat): nat {
    if a * b > U64_MAX then U64_MAX else a * b
  }

  /** Enough samples and a pass rate below the floor. */
  predicate Skip(minSamples: nat, minPassPct: nat, s: Stat) {
    s.attempts >= minSamples && SaturatingMul(s.passes, 100) < SaturatingMul(minPassPct, s.attempts)
  }

  /** `Some` is verified evidence, `None` an unknown outcome. */
  function Updated(s: Stat, passed: Option<bool>): Stat {
    Stat(s.attempts + (if passed.Some? then 1 else 0),
         s.passes + (if passed == Some(true) then 1 else 0),
         s.unknown + (if passed.None? then 1 else 0))
  }

  // ---------------------------------------------------------------- evidence

  lemma MulMonotone(a: nat, b: nat, c: nat)
    requires b <= c
    ensures SaturatingMul(a, b) <= SaturatingMul(a, c)
  {
    MulMono(a, b, c);
  }

  lemma UnknownChangesNothing(minSamples: nat, minPassPct: nat, s: Stat)
    ensures Skip(minSamples, minPassPct, Updated(s, None)) <==> Skip(minSamples, minPassPct, s)
  {
  }

  lemma FailureNeverUnskips(minSamples: nat, minPassPct: nat, s: Stat)
    requires Skip(minSamples, minPassPct, s)
    ensures Skip(minSamples, minPassPct, Updated(s, Some(false)))
  {
    MulMonotone(minPassPct, s.attempts, s.attempts + 1);
  }

  /** A pass never gets a model dropped that was kept. */
  ghost predicate PassNeverSkips(minSamples: nat, minPassPct: nat) {
    forall s: Stat :: s.passes <= s.attempts && !Skip(minSamples, minPassPct, s)
      ==> !Skip(minSamples, minPassPct, Updated(s, Some(true)))
  }

  lemma MulMono(m: nat, a: nat, b: nat)
    requires a <= b
    ensures m * a <= m * b
  {
  }

  /** The pass rate of `p + 1` in `a + 1` meets the floor, if `p` in `a` did or the sample is the smallest. */
  lemma RateKeeps(minSamples: nat, m: nat, p: nat, a: nat)
    requires minSamples >= 1 && m * minSamples <= 100
    requires a + 1 == minSamples || m * a <= p * 100
    ensures m * (a + 1) <= (p + 1) * 100
  {
    MulMono(m, 1, minSamples);
    assert m * (a + 1) == m * a + m;
  }

  lemma PassKeeps(minSamples: nat, minPassPct: nat, s: Stat)
    requires minSamples >= 1 && minPassPct * minSamples <= 100
    requires !Skip(minSamples, minPassPct, s)
    ensures !Skip(minSamples, minPassPct, Updated(s, Some(true)))
  {
    var a, p, m := s.attempts, s.passes, minPassPct;
    MulMono(m, a, a + 1);
    if a + 1 == minSamples || m * a <= p * 100 {
      RateKeeps(minSamples, m, p, a);
    }
  }

  /** The size of the smallest sample that can have a pass in it and be judged. */
  function Smallest(minSamples: nat): nat { if minSamples == 0 then 1 else minSamples }

  lemma SmallestDecides(minSamples: nat, minPassPct: nat, s: Stat)
    requires s.attempts >= 1
    ensures Skip(minSamples, minPassPct, s) <==> Skip(Smallest(minSamples), minPassPct, s)
  {
  }

  /** It holds exactly when one pass in the smallest sample already meets the floor. */
  lemma PassNeverSkipsExactly(minSamples: nat, minPassPct: nat)
    ensures PassNeverSkips(minSamples, minPassPct) <==> minPassPct * Smallest(minSamples) <= 100
  {
    var least := Smallest(minSamples);
    if minPassPct * least <= 100 {
      forall s: Stat | s.passes <= s.attempts && !Skip(minSamples, minPassPct, s)
        ensures !Skip(minSamples, minPassPct, Updated(s, Some(true)))
      {
        assert !Skip(least, minPassPct, s);
        PassKeeps(least, minPassPct, s);
        SmallestDecides(minSamples, minPassPct, Updated(s, Some(true)));
      }
    } else {
      var s := Stat(least - 1, 0, 0);
      assert !Skip(minSamples, minPassPct, s);
      assert Updated(s, Some(true)) == Stat(least, 1, 0);
      assert Skip(minSamples, minPassPct, Updated(s, Some(true)));
    }
  }

  /** The defaults, five samples and twenty per cent, meet the bound with nothing to spare. */
  lemma DefaultsAreTight()
    ensures PassNeverSkips(5, 20) && !PassNeverSkips(5, 21) && !PassNeverSkips(6, 20)
  {
    PassNeverSkipsExactly(5, 20);
    PassNeverSkipsExactly(5, 21);
    PassNeverSkipsExactly(6, 20);
  }

  // ---------------------------------------------------------------- histories

  type History = seq<Option<bool>>

  /** The statistics after a history of outcomes. */
  function Folded(h: History): Stat {
    if h == [] then NO_STAT else Updated(Folded(h[..|h| - 1]), h[|h| - 1])
  }

  /** How many outcomes of a history are verified, and how many of them are passes. */
  function Verified(h: History): nat {
    if h == [] then 0 else (if h[0] == None then 0 else 1) + Verified(h[1..])
  }

  function Passes(h: History): nat {
    if h == [] then 0 else (if h[0] == Some(true) then 1 else 0) + Passes(h[1..])
  }

  lemma {:induction false} CountsConcat(a: History, b: History)
    ensures Verified(a + b) == Verified(a) + Verified(b) && Passes(a + b) == Passes(a) + Passes(b)
  {
    if a == [] {
      assert a + b == b;
    } else {
      CountsConcat(a[1..], b);
      assert (a + b)[1..] == a[1..] + b;
    }
  }

  lemma {:induction false} FoldedCounts(h: History)
    ensures Passes(h) <= Verified(h) <= |h|
    ensures Folded(h) == Stat(Verified(h), Passes(h), |h| - Verified(h))
  {
    if h != [] {
      FoldedCounts(h[..|h| - 1]);
      CountsConcat(h[..|h| - 1], [h[|h| - 1]]);
      assert h == h[..|h| - 1] + [h[|h| - 1]];
    }
  }

  ghost predicate Dropped(minSamples: nat, minPassPct: nat, h: History) { Skip(minSamples, minPassPct, Folded(h)) }

  /** The rule: a model is dropped if and only if enough outcomes are verified and the passes among them are
      less than the floor.  The one thing saturation changes is that a hundred times the passes must fit. */
  lemma DroppedExactly(minSamples: nat, minPassPct: nat, h: History)
    ensures Dropped(minSamples, minPassPct, h) <==>
              Verified(h) >= minSamples && 100 * Passes(h) < minPassPct * Verified(h) && 100 * Passes(h) < U64_MAX
  {
    FoldedCounts(h);
  }

  /** How many verified outcomes make `passes` passes too few. */
  function Enough(minSamples: nat, minPassPct: nat, passes: nat): nat
    requires minPassPct >= 1
  {
    var least := 100 * passes / minPassPct + 1;
    if least < minSamples then minSamples else least
  }

  lemma {:induction false} AllFailures(k: nat)
    ensures Verified(seq(k, _ => Some(false))) == k && Passes(seq(k, _ => Some(false))) == 0
  {
    if k > 0 {
      AllFailures(k - 1);
      assert seq(k, _ => Some(false))[1..] == seq(k - 1, _ => Some(false));
    }
  }

  lemma LessExactly(m: nat, x: nat, v: nat)
    requires m >= 1
    ensures x < m * v <==> x / m + 1 <= v
  {
    var q := x / m;
    assert m * q <= x < m * q + m;
    if q + 1 <= v {
      MulMono(m, q + 1, v);
    } else {
      MulMono(m, v, q);
    }
  }

  /** With a floor above zero enough failures in a row drop any model, and this is how many it takes. */
  lemma FailuresDrop(minSamples: nat, minPassPct: nat, h: History, k: nat)
    requires minPassPct >= 1 && 100 * Passes(h) < U64_MAX
    ensures Dropped(minSamples, minPassPct, h + seq(k, _ => Some(false))) <==> Verified(h) + k >= Enough(minSamples, minPassPct, Passes(h))
  {
    AllFailures(k);
    CountsConcat(h, seq(k, _ => Some(false)));
    DroppedExactly(minSamples, minPassPct, h + seq(k, _ => Some(false)));
    LessExactly(minPassPct, 100 * Passes(h), Verified(h) + k);
  }

  function Copies(h: History, k: nat): History {
    if k == 0 then [] else h + Copies(h, k - 1)
  }

  lemma {:induction false} CopiesCount(h: History, k: nat)
    ensures Verified(Copies(h, k)) == k * Verified(h) && Passes(Copies(h, k)) == k * Passes(h)
  {
    if k > 0 {
      CopiesCount(h, k - 1);
      CountsConcat(h, Copies(h, k - 1));
    }
  }

  lemma Scaled(k: nat, x: nat, m: nat, v: nat)
    requires k >= 1
    ensures 100 * (k * x) < m * (k * v) <==> 100 * x < m * v
  {
    assert m * (k * v) == k * (m * v) && 100 * (k * x) == k * (100 * x);
    if 100 * x < m * v {
      MulMono(k, 100 * x + 1, m * v);
    } else {
      MulMono(k, m * v, 100 * x);
    }
  }

  /** Only the rate counts: once there are samples enough, the same evidence `k` times over decides the same. */
  lemma OnlyTheRate(minSamples: nat, minPassPct: nat, h: History, k: nat)
    requires k >= 1 && Verified(h) >= minSamples && 100 * (k * Passes(h)) < U64_MAX
    ensures Dropped(minSamples, minPassPct, Copies(h, k)) <==> Dropped(minSamples, minPassPct, h)
  {
    CopiesCount(h, k);
    DroppedExactly(minSamples, minPassPct, h);
    DroppedExactly(minSamples, minPassPct, Copies(h, k));
    Scaled(k, Passes(h), minPassPct, Verified(h));
    MulMono(Verified(h), 1, k);
    MulMono(Passes(h), 1, k);
  }

  // ---------------------------------------------------------------- races on the file

  type Key = string

  type Stats = map<Key, Stat>

  /** The file, and what each launch read before it writes. */
  datatype Disk = Disk(file: Stats, loaded: map<nat, Stats>)

  datatype Action =
    | Load(launch: nat)
    | Write(launch: nat, key: Key, passed: Option<bool>)
    | Lose   // two writers shared the temporary file and the result no longer parses

  function Act(d: Disk, a: Action): Disk {
    match a
    case Load(l) => d.(loaded := d.loaded[l := d.file])
    case Write(l, k, passed) =>
      if l !in d.loaded then d
      else
        var seen := d.loaded[l];
        Disk(seen[k := Updated(if k in seen then seen[k] else NO_STAT, passed)], d.loaded - {l})
    case Lose => d.(file := map[])
  }

  function Play(d: Disk, actions: seq<Action>): Disk
    decreases |actions|
  {
    if actions == [] then d else Play(Act(d, actions[0]), actions[1..])
  }

  predicate Honest(s: Stats) {
    forall k :: k in s ==> s[k].passes <= s[k].attempts
  }

  predicate HonestDisk(d: Disk) {
    Honest(d.file) && forall l :: l in d.loaded ==> Honest(d.loaded[l])
  }

  /** However launches interleave, no key ever shows more passes than attempts. */
  lemma {:induction false} RacesStayHonest(d: Disk, actions: seq<Action>)
    requires HonestDisk(d)
    ensures HonestDisk(Play(d, actions))
    decreases |actions|
  {
    if actions != [] {
      RacesStayHonest(Act(d, actions[0]), actions[1..]);
    }
  }

  /** How many outcomes for `key` a schedule tries to record. */
  function Attempted(actions: seq<Action>, key: Key): nat {
    if actions == [] then 0
    else (if actions[0].Write? && actions[0].key == key then 1 else 0) + Attempted(actions[1..], key)
  }

  function Seen(s: Stats, key: Key): nat {
    if key in s then s[key].attempts + s[key].unknown else 0
  }

  ghost predicate SeenAtMost(d: Disk, key: Key, n: nat) {
    Seen(d.file, key) <= n && forall l :: l in d.loaded ==> Seen(d.loaded[l], key) <= n
  }

  /** Races may lose evidence but never invent it. */
  lemma {:induction false} RacesNeverInvent(d: Disk, actions: seq<Action>, key: Key, n: nat)
    requires SeenAtMost(d, key, n)
    ensures SeenAtMost(Play(d, actions), key, n + Attempted(actions, key))
    decreases |actions|
  {
    if actions != [] {
      var more := if actions[0].Write? && actions[0].key == key then 1 else 0;
      assert SeenAtMost(Act(d, actions[0]), key, n + more);
      RacesNeverInvent(Act(d, actions[0]), actions[1..], key, n + more);
    }
  }

  // ---------------------------------------------------------------- undisturbed launches

  predicate Quiet(actions: seq<Action>, launch: nat) {
    forall i :: 0 <= i < |actions| ==> actions[i].Load? && actions[i].launch != launch
  }

  lemma {:induction false} PlayConcat(d: Disk, a: seq<Action>, b: seq<Action>)
    ensures Play(d, a + b) == Play(Play(d, a), b)
    decreases |a|
  {
    if a == [] {
      assert a + b == b;
    } else {
      PlayConcat(Act(d, a[0]), a[1..], b);
      assert (a + b)[1..] == a[1..] + b;
    }
  }

  lemma {:induction false} QuietKeeps(d: Disk, actions: seq<Action>, launch: nat)
    requires Quiet(actions, launch) && launch in d.loaded
    ensures var t := Play(d, actions); t.file == d.file && launch in t.loaded && t.loaded[launch] == d.loaded[launch]
    decreases |actions|
  {
    if actions != [] {
      QuietKeeps(Act(d, actions[0]), actions[1..], launch);
    }
  }

  lemma PlayOne(d: Disk, a: Action)
    ensures Play(d, [a]) == Act(d, a)
  {
    assert Play(Act(d, a), [a][1..]) == Act(d, a);
  }

  function StatOf(file: Stats, key: Key): Stat { if key in file then file[key] else NO_STAT }

  /** If nobody else writes in between, recording one outcome changes the statistics of its key alone: one
      more verified outcome, a pass if it was one, or one more unknown. */
  lemma RecordsOne(d: Disk, launch: nat, between: seq<Action>, key: Key, passed: Option<bool>)
    requires Quiet(between, launch)
    ensures var file := Play(d, [Load(launch)] + between + [Write(launch, key, passed)]).file;
            var before, after := StatOf(d.file, key), StatOf(file, key);
            && file.Keys == d.file.Keys + {key}
            && (forall k :: k in d.file && k != key ==> file[k] == d.file[k])
            && after.attempts == before.attempts + (if passed == None then 0 else 1)
            && after.passes == before.passes + (if passed == Some(true) then 1 else 0)
            && after.unknown == before.unknown + (if passed == None then 1 else 0)
  {
    var mid := Act(d, Load(launch));
    PlayOne(d, Load(launch));
    PlayConcat(d, [Load(launch)], between);
    QuietKeeps(mid, between, launch);
    PlayConcat(d, [Load(launch)] + between, [Write(launch, key, passed)]);
    PlayOne(Play(mid, between), Write(launch, key, passed));
  }

  /** Launches one after another, each recording one outcome. */
  function Serial(outcomes: seq<(Key, Option<bool>)>): seq<Action> {
    if outcomes == [] then []
    else
      var (key, passed) := outcomes[|outcomes| - 1];
      Serial(outcomes[..|outcomes| - 1]) + [Load(0), Write(0, key, passed)]
  }

  function HistoryOf(outcomes: seq<(Key, Option<bool>)>, key: Key): History {
    if outcomes == [] then []
    else
      var (k, passed) := outcomes[|outcomes| - 1];
      HistoryOf(outcomes[..|outcomes| - 1], key) + if k == key then [passed] else []
  }

  /** Then the file holds the whole history of every key. */
  lemma {:induction false} SerialKeepsAll(d: Disk, outcomes: seq<(Key, Option<bool>)>, key: Key)
    requires d.file == map[]
    ensures StatOf(Play(d, Serial(outcomes)).file, key) == Folded(HistoryOf(outcomes, key))
  {
    if outcomes != [] {
      var front, last := outcomes[..|outcomes| - 1], outcomes[|outcomes| - 1];
      var past, mid := HistoryOf(front, key), Play(d, Serial(front));
      SerialKeepsAll(d, front, key);
      PlayConcat(d, Serial(front), [Load(0), Write(0, last.0, last.1)]);
      assert [Load(0)] + [] + [Write(0, last.0, last.1)] == [Load(0), Write(0, last.0, last.1)];
      RecordsOne(mid, 0, [], last.0, last.1);
      if last.0 == key {
        assert (past + [last.1])[..|past|] == past;
      } else {
        assert past + [] == past;
      }
    }
  }

  lemma {:induction false} AttemptedConcat(a: seq<Action>, b: seq<Action>, key: Key)
    ensures Attempted(a + b, key) == Attempted(a, key) + Attempted(b, key)
  {
    if a == [] {
      assert a + b == b;
    } else {
      AttemptedConcat(a[1..], b, key);
      assert (a + b)[1..] == a[1..] + b;
    }
  }

  lemma {:induction false} SerialAttempts(outcomes: seq<(Key, Option<bool>)>, key: Key)
    ensures Attempted(Serial(outcomes), key) == |HistoryOf(outcomes, key)|
  {
    if outcomes != [] {
      var front, last := outcomes[..|outcomes| - 1], outcomes[|outcomes| - 1];
      SerialAttempts(front, key);
      AttemptedConcat(Serial(front), [Load(0), Write(0, last.0, last.1)], key);
      assert [Load(0), Write(0, last.0, last.1)][1..] == [Write(0, last.0, last.1)];
      assert Attempted([Write(0, last.0, last.1)], key) == if last.0 == key then 1 else 0;
    }
  }

  /** Without races nothing is lost: the bound of `RacesNeverInvent` is attained. */
  lemma SerialLosesNothing(d: Disk, outcomes: seq<(Key, Option<bool>)>, key: Key)
    requires d.file == map[]
    ensures Seen(Play(d, Serial(outcomes)).file, key) == Attempted(Serial(outcomes), key)
  {
    SerialKeepsAll(d, outcomes, key);
    SerialAttempts(outcomes, key);
    FoldedCounts(HistoryOf(outcomes, key));
  }

  /** So a model is dropped by what its own launches showed, whatever was recorded of others. */
  lemma DroppedByItsHistory(minSamples: nat, minPassPct: nat, d: Disk, outcomes: seq<(Key, Option<bool>)>, key: Key)
    requires d.file == map[]
    ensures var h := HistoryOf(outcomes, key);
            Skip(minSamples, minPassPct, StatOf(Play(d, Serial(outcomes)).file, key)) <==>
              Verified(h) >= minSamples && 100 * Passes(h) < minPassPct * Verified(h) && 100 * Passes(h) < U64_MAX
  {
    SerialKeepsAll(d, outcomes, key);
    DroppedExactly(minSamples, minPassPct, HistoryOf(outcomes, key));
  }
}
