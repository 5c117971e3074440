/** The machine-wide poison set.  It is a file that every writer reads, changes and renames into place, so
    a writer that read it early can undo what was written since. */
module ProxyShared {
  import opened Proxy
  import opened ProxyRuns
  import opened ProxyScenarios

  // ---------------------------------------------------------------- an entry lasts its time to live

  /** Somebody sets out to rewrite the entry of `fp`, another process changes it, or the clock goes back. */
  ghost predicate Disturbs(s: State, l: Label, fp: Fp) {
    match l
    case Record(id) => id in s.reqs && s.reqs[id].fp == fp
    case ClearShared(id) => id in s.reqs && s.reqs[id].fp == fp
    case World(shared, now, _, _) =>
      now < s.now || (fp in shared) != (fp in s.shared) || (fp in shared && fp in s.shared && shared[fp] != s.shared[fp])
    case _ => false
  }

  ghost predicate RunUndisturbed(c: Config, s: State, ls: seq<Label>, t: State, fp: Fp)
    decreases |ls|
  {
    if ls == [] then s == t
    else Enabled(c, s, ls[0]) && !Disturbs(s, ls[0], fp) && RunUndisturbed(c, Apply(c, s, ls[0]), ls[1..], t, fp)
  }

  /** The set holds the entry made at `added`, unless that has expired. */
  ghost predicate Keeps(c: Config, shared: map<Fp, nat>, now: nat, fp: Fp, added: nat) {
    (fp in shared ==> shared[fp] == added) && (now < added + c.ttl ==> fp in shared)
  }

  /** So does everything that is about to be written over it. */
  ghost predicate Entered(c: Config, s: State, fp: Fp, added: nat) {
    && added <= s.now && Keeps(c, s.shared, s.now, fp, added)
    && forall j :: Writes(s, j) ==> Keeps(c, s.reqs[j].phase.kept, s.now, fp, added)
  }

  lemma EnteredActor(c: Config, s: State, l: Label, fp: Fp, added: nat)
    requires Enabled(c, s, l) && !Disturbs(s, l, fp) && Entered(c, s, fp, added) && !l.World?
    ensures var t := Apply(c, s, l);
            && t.now == s.now && Keeps(c, t.shared, t.now, fp, added)
            && (Writes(t, l.id) ==> Keeps(c, t.reqs[l.id].phase.kept, t.now, fp, added))
  {
  }

  lemma EnteredStep(c: Config, s: State, l: Label, fp: Fp, added: nat)
    requires Enabled(c, s, l) && !Disturbs(s, l, fp) && Entered(c, s, fp, added)
    ensures Entered(c, Apply(c, s, l), fp, added)
  {
    if !l.World? {
      FrameStep(c, s, l);
      EnteredActor(c, s, l, fp, added);
      var t := Apply(c, s, l);
      assert forall j :: Writes(t, j) && j != l.id ==> Writes(s, j) && t.reqs[j] == s.reqs[j];
    }
  }

  lemma {:induction false} EnteredRun(c: Config, s: State, ls: seq<Label>, t: State, fp: Fp, added: nat)
    requires RunUndisturbed(c, s, ls, t, fp) && Entered(c, s, fp, added)
    ensures Entered(c, t, fp, added)
    decreases |ls|
  {
    if ls != [] {
      EnteredStep(c, s, ls[0], fp, added);
      EnteredRun(c, Apply(c, s, ls[0]), ls[1..], t, fp, added);
    }
  }

  ghost predicate OnlyWriter(s: State, id: Id) {
    Records(s, id) && forall j :: Writes(s, j) ==> j == id
  }

  lemma EntryMade(c: Config, s: State, id: Id)
    requires Inv(c, s) && OnlyWriter(s, id) && s.reqs[id].phase.kept[s.reqs[id].fp] <= s.now
    ensures var fp := s.reqs[id].fp; Entered(c, Apply(c, s, WriteShared(id)), fp, s.reqs[id].phase.kept[fp])
  {
    assert ReqOk(c, s.reqs[id]);
    FrameStep(c, s, WriteShared(id));
    var t := Apply(c, s, WriteShared(id));
    assert !Writes(t, id);
    assert forall j :: Writes(t, j) ==> j != id && Writes(s, j);
  }

  /** If nobody holds an older copy of the set when the entry is written, the entry is in force for exactly
      the time to live: neither other records nor other successes end it sooner, under any schedule, and
      nothing is needed for it to expire. */
  lemma EntryLastsExactly(c: Config, s: State, id: Id, ls: seq<Label>, t: State)
    requires Inv(c, s) && OnlyWriter(s, id) && s.reqs[id].phase.kept[s.reqs[id].fp] <= s.now
    requires RunUndisturbed(c, Apply(c, s, WriteShared(id)), ls, t, s.reqs[id].fp)
    ensures var fp := s.reqs[id].fp; IsPoisoned(c, t, fp) <==> t.now < s.reqs[id].phase.kept[fp] + c.ttl
  {
    var fp := s.reqs[id].fp;
    EntryMade(c, s, id);
    EnteredRun(c, Apply(c, s, WriteShared(id)), ls, t, fp, s.reqs[id].phase.kept[fp]);
  }

  /** So a confirmed crasher is turned away at the gate, whoever brings it, for exactly that time. */
  lemma ConfirmedForExactlyTtl(c: Config, s: State, id: Id, ls: seq<Label>, t: State, other: Id)
    requires Inv(c, s) && OnlyWriter(s, id) && s.reqs[id].phase.kept[s.reqs[id].fp] <= s.now
    requires RunUndisturbed(c, Apply(c, s, WriteShared(id)), ls, t, s.reqs[id].fp)
    requires Enabled(c, t, CheckShared(other)) && t.reqs[other].fp == s.reqs[id].fp
    ensures var r, added := Apply(c, t, CheckShared(other)).reqs[other], s.reqs[id].phase.kept[s.reqs[id].fp];
            if t.now < added + c.ttl then r.phase.Done? && r.replies == t.reqs[other].replies + [Refused]
            else r.phase.LocalGate? && r.replies == t.reqs[other].replies
  {
    EntryLastsExactly(c, s, id, ls, t);
  }

  // ---------------------------------------------------------------- stale copies

  lemma Onto(c: Config, s: State, t: State, l: Label) returns (t': State)
    requires (s == t || Reaches(c, s, t)) && Enabled(c, t, l)
    ensures t' == Apply(c, t, l) && Reaches(c, s, t')
  {
    t' := Apply(c, t, l);
    ReachesOne(c, t, l);
    if s != t {
      ReachesOn(c, s, t, t');
    }
  }

  /** `b` has succeeded and is about to read the machine-wide set; nobody else has moved. */
  ghost predicate Succeeded(s: State, t: State, b: Id) {
    && b in s.reqs && b in t.reqs && t.reqs == s.reqs[b := t.reqs[b]] && t.now == s.now && t.shared == s.shared
    && t.reqs[b].phase == ClearingShared(200) && t.reqs[b].fp == s.reqs[b].fp
  }

  lemma Answered(c: Config, s: State, b: Id)
    requires InPhase(s, b, Ready) && s.reqs[b].crashes == 0 && s.lane == Free
    ensures exists t :: Reaches(c, s, t) && Succeeded(s, t, b)
  {
    var t := Onto(c, s, s, StartSend(b));
    t := Onto(c, s, t, SendEnds(b, Headers(200)));
    t := Onto(c, s, t, ClearLocal(b));
    assert Succeeded(s, t, b);
  }

  /** `a` is confirmed, `b` has succeeded, and the set holds the entry of `b`'s fingerprint and no other. */
  ghost predicate Racing(s: State, a: Id, b: Id) {
    && a != b && InPhase(s, a, Confirmed) && b in s.reqs && s.reqs[b].phase == ClearingShared(200)
    && s.shared == map[s.reqs[b].fp := s.now]
  }

  /** `b` succeeds and finds an entry of its own, put there by another launch since it passed the gate. */
  lemma Succeeds(c: Config, s: State, a: Id, b: Id)
    requires a != b && InPhase(s, a, Confirmed) && InPhase(s, b, Ready) && s.reqs[b].crashes == 0 && s.lane == Free && !c.alone
    ensures exists t :: Reaches(c, s, t) && Racing(t, a, b) && t.reqs[a].fp == s.reqs[a].fp && t.reqs[b].fp == s.reqs[b].fp
  {
    Answered(c, s, b);
    var t :| Reaches(c, s, t) && Succeeded(s, t, b);
    t := Onto(c, s, t, World(map[s.reqs[b].fp := s.now], s.now, 0, t.abandoned));
  }

  /** Both read the set; `a` writes its entry, and `b` writes back what it read before. */
  lemma BothWrite(c: Config, s: State, a: Id, b: Id)
    requires Racing(s, a, b)
    ensures exists u :: Reaches(c, s, u) && Forgets(c, u, a, b) && u.reqs[a].fp == s.reqs[a].fp && u.reqs[b].fp == s.reqs[b].fp
  {
    var u := Onto(c, s, s, ClearShared(b));
    assert u.reqs[b].phase.kept == map[];
    u := Onto(c, s, u, Record(a));
  }

  /** In this state `a` may write its entry and `b` may then write the set without it, at once. */
  ghost predicate Forgets(c: Config, s: State, a: Id, b: Id) {
    && Records(s, a) && Writes(s, b) && a != b
    && s.reqs[a].fp in s.reqs[a].phase.kept && s.reqs[a].phase.kept[s.reqs[a].fp] == s.now
    && s.reqs[a].fp !in s.reqs[b].phase.kept
  }

  /** Then the confirmed entry is gone long before its time. */
  lemma Forgotten(c: Config, s: State, a: Id, b: Id)
    requires Forgets(c, s, a, b)
    ensures var s1 := Apply(c, s, WriteShared(a));
            && Writes(s1, b) && s1.reqs[a].fp in s1.shared
            && var t := Apply(c, s1, WriteShared(b)); t.now == s.now && !IsPoisoned(c, t, s.reqs[a].fp)
  {
  }

  /** One request is confirmed, with the fingerprint of `body`, and one with that of `body'` may send. */
  ghost predicate Neighbours(c: Config, s: State, a: Id, body: Body, b: Id, body': Body) {
    && s.lane == Free && InPhase(s, a, Confirmed) && InPhase(s, b, Ready)
    && s.reqs[a].fp == Mark(c, body) && s.reqs[b].fp == Mark(c, body') && s.reqs[b].crashes == 0
  }

  lemma NewcomerConfirmed(c: Config, body: Body, body': Body)
    requires c.poisonMax >= 1 && c.limit >= 2 && Small(c, body) && Small(c, body')
    ensures exists t :: Reachable(c, t) && Neighbours(c, t, c.poisonMax - 1, body, c.poisonMax, body')
  {
    var a, b := c.poisonMax - 1, c.poisonMax;
    Verge(c, 1, body);
    var v :| Reachable(c, v) && OnVerge(c, v, 1, body);
    var s := NewcomerEnters(c, v, body, body');
    ReachOn(c, v, s);
    ConfirmThenAdmit(c, s, a, b, body);
    var t :| Reaches(c, s, t) && Admitted(s, t, a, b);
    ReachOn(c, s, t);
    assert Neighbours(c, t, a, body, b, body');
  }

  lemma NewcomerEnters(c: Config, v: State, body: Body, body': Body) returns (s: State)
    requires c.poisonMax >= 1 && OnVerge(c, v, 1, body)
    ensures Reaches(c, v, s) && s == v.(reqs := v.reqs[c.poisonMax := Req(Mark(c, body'), body', Queued, 0, 0, [], [])])
  {
    assert c.poisonMax !in v.reqs && CrashCount(v, Mark(c, body')) < c.poisonMax;
    s := Enter(c, v, c.poisonMax, body');
    LeadsReaches(c, v, s, Mark(c, body'));
  }

  /** With two slots a schedule reaches such a state, for any two small bodies: if their fingerprints
      differ, nothing that happened to the one was about the other. */
  lemma StaleWriteForgets(c: Config, body: Body, body': Body)
    requires c.poisonMax >= 1 && c.limit >= 2 && Small(c, body) && Small(c, body') && !c.alone
    ensures exists s, a: Id, b: Id :: Reachable(c, s) && Forgets(c, s, a, b) &&
              s.reqs[a].fp == Mark(c, body) && s.reqs[b].fp == Mark(c, body')
  {
    var a, b := c.poisonMax - 1, c.poisonMax;
    NewcomerConfirmed(c, body, body');
    var s0 :| Reachable(c, s0) && Neighbours(c, s0, a, body, b, body');
    Succeeds(c, s0, a, b);
    var s1 :| Reaches(c, s0, s1) && Racing(s1, a, b) && s1.reqs[a].fp == s0.reqs[a].fp && s1.reqs[b].fp == s0.reqs[b].fp;
    ReachOn(c, s0, s1);
    BothWrite(c, s1, a, b);
    var s :| Reaches(c, s1, s) && Forgets(c, s, a, b) && s.reqs[a].fp == s1.reqs[a].fp && s.reqs[b].fp == s1.reqs[b].fp;
    ReachOn(c, s1, s);
  }

  /** Three requests with the same body are past the gate; the first has crashed its way into the set and
      left, and the second has broken the daemon again. */
  ghost predicate Twice(c: Config, s: State, a: Id, b: Id, body: Body) {
    && s.lane == Free && OneHolder(c, s, body) && CrashCount(s, Mark(c, body)) == c.poisonMax
    && a in s.reqs && s.reqs[a] == Req(Mark(c, body), body, Broke, 1, 1, [body], [])
    && b in s.reqs && Fresh(c, body, s.reqs[b]) && Mark(c, body) in s.shared
  }

  lemma TwoCrashes(c: Config, body: Body)
    requires c.poisonMax >= 1 && c.limit >= 1
    ensures exists t :: Reachable(c, t) && Twice(c, t, c.poisonMax, c.poisonMax + 1, body)
  {
    var x, a, b := c.poisonMax - 1, c.poisonMax, c.poisonMax + 1;
    Verge(c, 3, body);
    var v :| Reachable(c, v) && OnVerge(c, v, 3, body);
    assert Fresh(c, body, v.reqs[a]) && Fresh(c, body, v.reqs[b]);
    CrashTwice(c, v, x, a, b, body);
    var t :| Reaches(c, v, t) && Twice(c, t, a, b, body);
    ReachOn(c, v, t);
  }

  lemma CrashTwice(c: Config, v: State, x: Id, a: Id, b: Id, body: Body)
    requires c.limit >= 1 && v.lane == Free && OneHolder(c, v, body) && CrashCount(v, Mark(c, body)) + 1 == c.poisonMax
    requires x in v.reqs && v.reqs[x] == Req(Mark(c, body), body, Broke, 1, 1, [body], []) && x != a && x != b && a != b
    requires a in v.reqs && b in v.reqs && Fresh(c, body, v.reqs[a]) && Fresh(c, body, v.reqs[b])
    ensures exists t :: Reaches(c, v, t) && Twice(c, t, a, b, body)
  {
    Leave(c, v, x, body);
    var s :| Leads(c, Apply(c, v, Bump(x)), s, Mark(c, body)) && Leads(c, v, s, Mark(c, body)) && Gone(c, v, s, x, body);
    var t := BreakOnce(c, s, a, body);
    LeadsOn(c, v, s, t, Mark(c, body));
    LeadsReaches(c, v, t, Mark(c, body));
    assert Twice(c, t, a, b, body);
  }

  /** The second is confirmed and the third, admitted after that, succeeds. */
  ghost predicate HasCleared(s: State, b: Id) {
    b in s.reqs && s.reqs[b].phase == ClearingShared(200) && s.reqs[b].fp in s.shared
  }

  lemma ThreeAlike(c: Config, body: Body)
    requires c.poisonMax >= 1 && c.limit >= 2 && Small(c, body)
    ensures exists t :: Reachable(c, t) && InPhase(t, c.poisonMax, Confirmed) && HasCleared(t, c.poisonMax + 1)
  {
    var a, b := c.poisonMax, c.poisonMax + 1;
    TwoCrashes(c, body);
    var s :| Reachable(c, s) && Twice(c, s, a, b, body);
    AdmittedAndAnswered(c, s, a, b, body);
    var t :| Reaches(c, s, t) && InPhase(t, a, Confirmed) && HasCleared(t, b);
    ReachOn(c, s, t);
  }

  lemma AdmittedAndAnswered(c: Config, s: State, a: Id, b: Id, body: Body)
    requires c.limit >= 2 && Small(c, body) && a != b && Twice(c, s, a, b, body)
    ensures exists t :: Reaches(c, s, t) && InPhase(t, a, Confirmed) && HasCleared(t, b)
  {
    ConfirmThenAdmit(c, s, a, b, body);
    var s1 :| Reaches(c, s, s1) && Admitted(s, s1, a, b);
    Answered(c, s1, b);
    var t :| Reaches(c, s1, t) && Succeeded(s1, t, b);
    assert t.reqs[a] == s1.reqs[a];
    ReachesOn(c, s, s1, t);
  }

  /** With two slots a proxy has older copies of its own, without any other launch on the machine. */
  lemma OwnStaleCopy(c: Config, body: Body)
    requires c.poisonMax >= 1 && c.limit >= 2 && Small(c, body)
    ensures exists s, a: Id, b: Id :: Reachable(c, s) && Records(s, a) && Writes(s, b) && a != b
  {
    var a, b := c.poisonMax, c.poisonMax + 1;
    ThreeAlike(c, body);
    var s0 :| Reachable(c, s0) && InPhase(s0, a, Confirmed) && HasCleared(s0, b);
    var s := Onto(c, s0, s0, ClearShared(b));
    s := Onto(c, s0, s, Record(a));
    ReachOn(c, s0, s);
    assert Reachable(c, s) && Records(s, a) && Writes(s, b);
  }

  /** No request of this proxy ever holds an older copy of the set while another is writing an entry. */
  ghost predicate NoStaleCopies(c: Config) {
    forall s, id: Id :: Reachable(c, s) && Records(s, id) ==> OnlyWriter(s, id)
  }

  /** That is so exactly when the proxy admits at most one request at a time, with or without other
      launches on the machine.  Copies held by those are another matter; see `ForeignWriteForgets`. */
  lemma NoStaleCopiesExactly(c: Config)
    requires c.poisonMax >= 1
    ensures NoStaleCopies(c) <==> c.limit <= 1
  {
    if c.limit <= 1 {
      forall s, id: Id | Reachable(c, s) && Records(s, id) ensures OnlyWriter(s, id) {
        OnlyHolder(c, s, id);
        assert forall j :: Writes(s, j) ==> j in Holders(s);
      }
    } else {
      OwnStaleCopy(c, "");
      var s, a: Id, b: Id :| Reachable(c, s) && Records(s, a) && Writes(s, b) && a != b;
    }
  }

  /** Nothing in one proxy protects an entry from the other launches on the machine: whatever the limit,
      one write of theirs ends it at once.  It is what their `clear_poison` does after a success with the
      same fingerprint, and what any write back of an older copy of theirs does. */
  lemma ForeignWriteForgets(c: Config, s: State, fp: Fp)
    requires IsPoisoned(c, s, fp) && !c.alone
    ensures exists l :: Enabled(c, s, l) && l.World? && Apply(c, s, l) == s.(shared := s.shared - {fp}) && !IsPoisoned(c, Apply(c, s, l), fp)
  {
    var l := World(s.shared - {fp}, s.now, s.outside, s.abandoned);
    assert Enabled(c, s, l) && Apply(c, s, l) == s.(shared := s.shared - {fp});
  }
}
