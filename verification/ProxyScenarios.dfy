/** Schedules that show how tight the proxy's guarantees are: the containment bound is reached for
    every number of requests past the gate, and crash attribution is unambiguous exactly when the
    proxy admits one request at a time and has to itself a daemon that drops abandoned work. */
module ProxyScenarios {
  import opened Proxy
  import opened ProxyRuns
  import opened ProxyDecay

  /** Nothing is in a send and no slot is taken. */
  ghost predicate Idle(s: State) {
    s.lane == Free && s.inUse == 0 && s.general == 0
  }

  function Mark(c: Config, body: Body): Fp { c.fingerprint(body) }

  /** Two such requests fit into any two slots: they are small, or there is no fast lane. */
  predicate Small(c: Config, body: Body) { IsFast(c, body) || c.fastlane == 0 }

  /** What a body takes of the slots for big requests. */
  function Share(c: Config, body: Body): nat { if IsFast(c, body) then 0 else 1 }

  /** One request with this body holds a slot. */
  ghost predicate OneHolder(c: Config, s: State, body: Body) { s.inUse == 1 && s.general == Share(c, body) }

  ghost predicate Fresh(c: Config, body: Body, r: Req) {
    r == Req(Mark(c, body), body, Queued, 0, 0, [], [])
  }

  /** Some schedule without a clear of `fp` leads from `s` to `t`. */
  ghost predicate Leads(c: Config, s: State, t: State, fp: Fp) {
    exists ls :: RunNoClear(c, s, ls, t, fp)
  }

  lemma {:induction false} NoClearConcat(c: Config, s: State, a: seq<Label>, t: State, b: seq<Label>, u: State, fp: Fp)
    requires RunNoClear(c, s, a, t, fp) && RunNoClear(c, t, b, u, fp)
    ensures RunNoClear(c, s, a + b, u, fp)
    decreases |a|
  {
    if a == [] {
      assert a + b == b;
    } else {
      NoClearConcat(c, Apply(c, s, a[0]), a[1..], t, b, u, fp);
      assert (a + b)[1..] == a[1..] + b;
    }
  }

  lemma LeadsOn(c: Config, s: State, t: State, u: State, fp: Fp)
    requires Leads(c, s, t, fp) && Leads(c, t, u, fp)
    ensures Leads(c, s, u, fp)
  {
    var a :| RunNoClear(c, s, a, t, fp);
    var b :| RunNoClear(c, t, b, u, fp);
    NoClearConcat(c, s, a, t, b, u, fp);
  }

  lemma LeadsOne(c: Config, s: State, l: Label, fp: Fp)
    requires Enabled(c, s, l) && !l.ClearLocal?
    ensures Leads(c, s, Apply(c, s, l), fp)
  {
    assert RunNoClear(c, s, [l], Apply(c, s, l), fp);
  }

  lemma LeadsSelf(c: Config, s: State, fp: Fp)
    ensures Leads(c, s, s, fp)
  {
    assert RunNoClear(c, s, [], s, fp);
  }

  /** One more step of a schedule. */
  lemma Extend(c: Config, s: State, t: State, l: Label, fp: Fp) returns (t': State)
    requires (s == t || Leads(c, s, t, fp)) && Enabled(c, t, l) && !l.ClearLocal?
    ensures t' == Apply(c, t, l) && Leads(c, s, t', fp)
  {
    t' := Apply(c, t, l);
    LeadsOne(c, t, l, fp);
    if s != t {
      LeadsOn(c, s, t, t', fp);
    }
  }

  lemma {:induction false} RunNoClearIsRun(c: Config, s: State, ls: seq<Label>, t: State, fp: Fp)
    requires RunNoClear(c, s, ls, t, fp)
    ensures Run(c, s, ls, t)
    decreases |ls|
  {
    if ls != [] {
      RunNoClearIsRun(c, Apply(c, s, ls[0]), ls[1..], t, fp);
    }
  }

  lemma LeadsReaches(c: Config, s: State, t: State, fp: Fp)
    requires Leads(c, s, t, fp)
    ensures Reaches(c, s, t)
  {
    var ls :| RunNoClear(c, s, ls, t, fp);
    RunNoClearIsRun(c, s, ls, t, fp);
  }

  /** A new request walks through the gate into the admission queue. */
  lemma Enter(c: Config, s: State, id: Id, body: Body) returns (t: State)
    requires id !in s.reqs && !IsPoisoned(c, s, Mark(c, body)) && CrashCount(s, Mark(c, body)) < c.poisonMax
    ensures Leads(c, s, t, Mark(c, body))
    ensures t == s.(reqs := s.reqs[id := Req(Mark(c, body), body, Queued, 0, 0, [], [])])
    ensures InFlight(t, Mark(c, body)) == InFlight(s, Mark(c, body)) + 1
  {
    t := Extend(c, s, s, Arrive(id, body), Mark(c, body));
    t := Extend(c, s, t, CheckShared(id), Mark(c, body));
    t := Extend(c, s, t, CheckLocal(id), Mark(c, body));
    assert t.reqs == s.reqs[id := Req(Mark(c, body), body, Queued, 0, 0, [], [])];
    CountPut(s.reqs, id, t.reqs[id], InFlightOf(Mark(c, body)));
  }

  /** A queued request is admitted and breaks the daemon; the crash is not counted yet. */
  lemma BreakOnce(c: Config, s: State, id: Id, body: Body) returns (t: State)
    requires Idle(s) && c.limit >= 1 && id in s.reqs && Fresh(c, body, s.reqs[id])
    ensures Leads(c, s, t, Mark(c, body))
    ensures t == s.(reqs := s.reqs[id := Req(Mark(c, body), body, Broke, 1, 1, [body], [])], inUse := 1, general := Share(c, body))
    ensures InFlight(t, Mark(c, body)) == InFlight(s, Mark(c, body))
  {
    t := Extend(c, s, s, Grant(id), Mark(c, body));
    t := Extend(c, s, t, StartSend(id), Mark(c, body));
    assert t.reqs[id].sent == [body];
    t := Extend(c, s, t, SendEnds(id, Broken), Mark(c, body));
    assert t.reqs == s.reqs[id := Req(Mark(c, body), body, Broke, 1, 1, [body], [])];
    CountPut(s.reqs, id, t.reqs[id], InFlightOf(Mark(c, body)));
  }

  /** The only holder of a slot leaves. */
  lemma GoAway(c: Config, s: State, id: Id, l: Label) returns (t: State)
    requires id in s.reqs && OneHolder(c, s, s.reqs[id].body)
    requires (s.reqs[id].phase.Leaving? && l == Drop(id)) || (s.reqs[id].phase.Ready? && l == Cancel(id))
    ensures Enabled(c, s, l) && t == Apply(c, s, l)
    ensures t == s.(reqs := s.reqs[id := t.reqs[id]], inUse := 0, general := 0) && InPhase(t, id, Done)
  {
    t := Apply(c, s, l);
  }

  /** `id` has left and nobody else has changed; only the machine-wide set may be different. */
  ghost predicate HasLeft(s: State, t: State, id: Id) {
    && id in t.reqs && t.reqs[id].phase.Done?
    && t == s.(reqs := s.reqs[id := t.reqs[id]], inUse := 0, general := 0, shared := t.shared)
  }

  lemma SuspectLeaves(c: Config, s: State, id: Id, fp: Fp)
    requires InPhase(s, id, Suspect) && OneHolder(c, s, s.reqs[id].body)
    ensures exists t :: Leads(c, s, t, fp) && HasLeft(s, t, id) && s.reqs[id].fp in t.shared
  {
    var s1 := Confirm(c, s, id, fp);
    var t := GoAway(c, s1, id, Drop(id));
    t := Extend(c, s, s1, Drop(id), fp);
  }

  lemma ErredLeaves(c: Config, s: State, id: Id, fp: Fp)
    requires InPhase(s, id, Erred) && OneHolder(c, s, s.reqs[id].body)
    ensures exists t :: Leads(c, s, t, fp) && HasLeft(s, t, id) && t.shared == s.shared
  {
    var s1 := Extend(c, s, s, Retry(id), fp);
    var l := if s1.reqs[id].phase.Leaving? then Drop(id) else Cancel(id);
    var t := GoAway(c, s1, id, l);
    t := Extend(c, s, s1, l, fp);
  }

  /** A request whose crash has just been counted leaves, one way or another. */
  lemma Depart(c: Config, s: State, id: Id, fp: Fp)
    requires id in s.reqs && OneHolder(c, s, s.reqs[id].body)
    requires s.reqs[id].phase in {Suspect, Erred}
    ensures exists t :: Leads(c, s, t, fp) && HasLeft(s, t, id) &&
              if s.reqs[id].phase == Suspect then s.reqs[id].fp in t.shared else t.shared == s.shared
  {
    if InPhase(s, id, Suspect) {
      SuspectLeaves(c, s, id, fp);
    } else {
      ErredLeaves(c, s, id, fp);
    }
  }

  /** A sole suspect is written into the machine-wide set. */
  lemma Confirm(c: Config, s: State, id: Id, fp: Fp) returns (t: State)
    requires id in s.reqs && s.inUse == 1 && InPhase(s, id, Suspect)
    ensures Leads(c, s, t, fp) && InPhase(t, id, Leaving) && t.reqs[id].body == s.reqs[id].body
    ensures t == s.(reqs := s.reqs[id := t.reqs[id]], shared := t.shared) && s.reqs[id].fp in t.shared
  {
    t := Extend(c, s, s, CheckSole(id), fp);
    assert InPhase(t, id, Confirmed);
    t := Extend(c, s, t, Record(id), fp);
    assert t.reqs[id].phase.Recording?;
    t := Extend(c, s, t, WriteShared(id), fp);
    assert t.reqs == s.reqs[id := t.reqs[id]];
  }

  lemma CountCrash(c: Config, s: State, id: Id, body: Body) returns (t: State)
    requires s.lane == Free && OneHolder(c, s, body) && id in s.reqs && s.reqs[id] == Req(Mark(c, body), body, Broke, 1, 1, [body], [])
    ensures Enabled(c, s, Bump(id)) && t == Apply(c, s, Bump(id))
    ensures t.lane == Free && t.shared == s.shared && CrashCount(t, Mark(c, body)) == CrashCount(s, Mark(c, body)) + 1
    ensures t.poison.Keys == s.poison.Keys + {Mark(c, body)}
    ensures id in t.reqs && t.reqs == s.reqs[id := t.reqs[id]]
    ensures t.reqs[id].phase in {Suspect, Erred} && t.reqs[id].body == body && OneHolder(c, t, body)
    ensures t.reqs[id].phase == Suspect <==> CrashCount(t, Mark(c, body)) >= c.poisonMax
    ensures t.reqs[id].fp == Mark(c, body)
  {
    t := Apply(c, s, Bump(id));
  }

  /** `id` has crashed the daemon once more and is over; nobody else has moved. */
  ghost predicate Gone(c: Config, s: State, t: State, id: Id, body: Body) {
    && Idle(t) && CrashCount(t, Mark(c, body)) == CrashCount(s, Mark(c, body)) + 1
    && InPhase(t, id, Done) && t.reqs == s.reqs[id := t.reqs[id]]
    && (if CrashCount(t, Mark(c, body)) < c.poisonMax then t.shared == s.shared else Mark(c, body) in t.shared)
    && InFlight(t, Mark(c, body)) == InFlight(s, Mark(c, body)) - 1 && t.poison.Keys == s.poison.Keys + {Mark(c, body)}
  }

  lemma Leave(c: Config, s: State, id: Id, body: Body)
    requires s.lane == Free && OneHolder(c, s, body) && id in s.reqs && s.reqs[id] == Req(Mark(c, body), body, Broke, 1, 1, [body], [])
    ensures exists t :: Leads(c, Apply(c, s, Bump(id)), t, Mark(c, body)) && Leads(c, s, t, Mark(c, body)) && Gone(c, s, t, id, body)
  {
    var s1 := CountCrash(c, s, id, body);
    Depart(c, s1, id, Mark(c, body));
    var s2 :| Leads(c, s1, s2, Mark(c, body)) && HasLeft(s1, s2, id) &&
              if s1.reqs[id].phase == Suspect then s1.reqs[id].fp in s2.shared else s2.shared == s1.shared;
    LeadsOne(c, s, Bump(id), Mark(c, body));
    LeadsOn(c, s, s1, s2, Mark(c, body));
    GoneAfterBump(c, s, s1, s2, id, body);
  }

  lemma GoneAfterBump(c: Config, s: State, s1: State, t: State, id: Id, body: Body)
    requires id in s.reqs && s.reqs[id] == Req(Mark(c, body), body, Broke, 1, 1, [body], []) && s1.lane == Free && HasLeft(s1, t, id)
    requires id in s1.reqs && s1.reqs == s.reqs[id := s1.reqs[id]] && s1.poison.Keys == s.poison.Keys + {Mark(c, body)}
    requires s1.shared == s.shared && CrashCount(s1, Mark(c, body)) == CrashCount(s, Mark(c, body)) + 1
    requires if CrashCount(s1, Mark(c, body)) >= c.poisonMax then Mark(c, body) in t.shared else t.shared == s1.shared
    ensures Gone(c, s, t, id, body)
  {
    OneFewer(s, t, id, Mark(c, body));
  }

  lemma OneFewer(s: State, t: State, id: Id, fp: Fp)
    requires id in s.reqs && s.reqs[id].fp == fp && s.reqs[id].phase.Broke?
    requires id in t.reqs && t.reqs[id].phase.Done? && t.reqs == s.reqs[id := t.reqs[id]]
    ensures InFlight(t, fp) == InFlight(s, fp) - 1
  {
    CountPut(s.reqs, id, t.reqs[id], InFlightOf(fp));
  }

  /** Requests `0` to `k - 1` have crashed the daemon and are over; nothing else has happened. */
  ghost predicate Crashed(s: State, k: nat, fp: Fp) {
    && Idle(s) && s.shared == map[] && CrashCount(s, fp) == k && InFlight(s, fp) == 0
    && (forall id :: id in s.reqs ==> id < k && s.reqs[id].phase.Done?)
    && (forall f :: f in s.poison ==> f == fp)
  }

  /** `k` requests crash one after another, below the threshold. */
  lemma {:induction false} CrashTimes(c: Config, k: nat, body: Body)
    requires k < c.poisonMax && c.limit >= 1
    ensures exists t :: Leads(c, INIT, t, Mark(c, body)) && Crashed(t, k, Mark(c, body))
  {
    if k == 0 {
      LeadsSelf(c, INIT, Mark(c, body));
      assert Ids(INIT.reqs, InFlightOf(Mark(c, body))) == {};
    } else {
      CrashTimes(c, k - 1, body);
      var s :| Leads(c, INIT, s, Mark(c, body)) && Crashed(s, k - 1, Mark(c, body));
      CrashOnce(c, s, k - 1, body);
      var s1 :| Leads(c, s, s1, Mark(c, body)) && Crashed(s1, k, Mark(c, body));
      LeadsOn(c, INIT, s, s1, Mark(c, body));
    }
  }

  /** One more request passes the gate, crashes the daemon once below the threshold and leaves. */
  lemma CrashOnce(c: Config, s: State, k: nat, body: Body)
    requires Crashed(s, k, Mark(c, body)) && k + 1 < c.poisonMax && c.limit >= 1
    ensures exists t :: Leads(c, s, t, Mark(c, body)) && Crashed(t, k + 1, Mark(c, body))
  {
    var s1 := Enter(c, s, k, body);
    CrashQueued(c, s1, k, body);
    var t :| Leads(c, s1, t, Mark(c, body)) && Gone(c, s1, t, k, body);
    LeadsOn(c, s, s1, t, Mark(c, body));
    CrashedNext(c, s, s1, t, k, body);
  }

  lemma CrashedNext(c: Config, s: State, s1: State, t: State, k: nat, body: Body)
    requires Crashed(s, k, Mark(c, body)) && k + 1 < c.poisonMax && Gone(c, s1, t, k, body)
    requires s1 == s.(reqs := s.reqs[k := Req(Mark(c, body), body, Queued, 0, 0, [], [])]) && InFlight(s1, Mark(c, body)) == 1
    ensures Crashed(t, k + 1, Mark(c, body))
  {
  }

  /** A queued request is admitted, crashes the daemon once and leaves. */
  lemma CrashQueued(c: Config, s: State, id: Id, body: Body)
    requires Idle(s) && c.limit >= 1 && id in s.reqs && Fresh(c, body, s.reqs[id])
    ensures exists t :: Leads(c, s, t, Mark(c, body)) && Gone(c, s, t, id, body)
  {
    var s1 := BreakOnce(c, s, id, body);
    Leave(c, s1, id, body);
    var t :| Leads(c, Apply(c, s1, Bump(id)), t, Mark(c, body)) && Leads(c, s1, t, Mark(c, body)) && Gone(c, s1, t, id, body);
    LeadsOn(c, s, s1, t, Mark(c, body));
    GoneAfterBreak(c, s, s1, t, id, body);
  }

  lemma GoneAfterBreak(c: Config, s: State, s1: State, t: State, id: Id, body: Body)
    requires id in s.reqs && Gone(c, s1, t, id, body) && InFlight(s1, Mark(c, body)) == InFlight(s, Mark(c, body))
    requires s1 == s.(reqs := s.reqs[id := Req(Mark(c, body), body, Broke, 1, 1, [body], [])], inUse := 1, general := Share(c, body))
    ensures Gone(c, s, t, id, body)
  {
  }

  /** `n` fresh requests from `base` on wait in the queue; everybody else is over. */
  ghost predicate Crowded(c: Config, s: State, base: Id, n: nat, body: Body) {
    && (forall id :: id in s.reqs ==> id < base + n && (id < base ==> s.reqs[id].phase.Done?))
    && (forall id :: base <= id < base + n ==> id in s.reqs && Fresh(c, body, s.reqs[id]))
  }

  /** There were `base` crashes, and nothing but the `n` requests is under way. */
  ghost predicate Gathered(c: Config, s: State, base: Id, n: nat, body: Body) {
    && Idle(s) && s.shared == map[] && Crowded(c, s, base, n, body)
    && CrashCount(s, Mark(c, body)) == base && InFlight(s, Mark(c, body)) == n
    && forall f :: f in s.poison ==> f == Mark(c, body)
  }

  /** `base` crashes, then `n` requests past the gate. */
  lemma Crowd(c: Config, base: Id, n: nat, body: Body)
    requires base < c.poisonMax && c.limit >= 1
    ensures exists t :: Leads(c, INIT, t, Mark(c, body)) && Gathered(c, t, base, n, body)
  {
    CrashTimes(c, base, body);
    var s :| Leads(c, INIT, s, Mark(c, body)) && Crashed(s, base, Mark(c, body));
    EnterMany(c, s, base, n, body);
    var s1 :| Leads(c, s, s1, Mark(c, body)) && Joined(c, s, s1, base, n, body);
    LeadsOn(c, INIT, s, s1, Mark(c, body));
    JoinedGather(c, s, s1, base, n, body);
  }

  lemma JoinedGather(c: Config, s: State, t: State, base: Id, n: nat, body: Body)
    requires Crashed(s, base, Mark(c, body)) && Joined(c, s, t, base, n, body)
    ensures Gathered(c, t, base, n, body)
  {
  }

  /** `n` fresh requests from `base` on have joined; nothing else has changed. */
  ghost predicate Joined(c: Config, s: State, t: State, base: Id, n: nat, body: Body) {
    && t == s.(reqs := t.reqs) && InFlight(t, Mark(c, body)) == InFlight(s, Mark(c, body)) + n
    && (forall id :: id in s.reqs ==> id in t.reqs && t.reqs[id] == s.reqs[id])
    && (forall id :: id in t.reqs ==> id in s.reqs || base <= id < base + n)
    && (forall id :: base <= id < base + n ==> id in t.reqs && Fresh(c, body, t.reqs[id]))
  }

  lemma JoinedNobody(c: Config, s: State, base: Id, body: Body)
    ensures Joined(c, s, s, base, 0, body)
  {
  }

  lemma JoinedStep(c: Config, s: State, t: State, u: State, base: Id, n: nat, body: Body)
    requires Joined(c, s, t, base, n, body) && base + n !in t.reqs
    requires u == t.(reqs := t.reqs[base + n := Req(Mark(c, body), body, Queued, 0, 0, [], [])]) && InFlight(u, Mark(c, body)) == InFlight(t, Mark(c, body)) + 1
    ensures Joined(c, s, u, base, n + 1, body)
  {
  }

  lemma EnterNext(c: Config, s: State, t: State, base: Id, n: nat, body: Body)
    requires s.shared == map[] && CrashCount(s, Mark(c, body)) < c.poisonMax && forall id :: id in s.reqs ==> id < base
    requires n >= 1 && Joined(c, s, t, base, n - 1, body)
    ensures exists u :: Leads(c, t, u, Mark(c, body)) && Joined(c, s, u, base, n, body)
  {
    assert base + n - 1 !in t.reqs;
    var u := Enter(c, t, base + n - 1, body);
    JoinedStep(c, s, t, u, base, n - 1, body);
  }

  /** `n` requests pass the gate before any of them is admitted: the admission limit does not cap them. */
  lemma {:induction false} EnterMany(c: Config, s: State, base: Id, n: nat, body: Body)
    requires s.shared == map[] && CrashCount(s, Mark(c, body)) < c.poisonMax && forall id :: id in s.reqs ==> id < base
    ensures exists t :: Leads(c, s, t, Mark(c, body)) && Joined(c, s, t, base, n, body)
  {
    if n == 0 {
      LeadsSelf(c, s, Mark(c, body));
      JoinedNobody(c, s, base, body);
    } else {
      EnterMany(c, s, base, n - 1, body);
      var s1 :| Leads(c, s, s1, Mark(c, body)) && Joined(c, s, s1, base, n - 1, body);
      EnterNext(c, s, s1, base, n, body);
      var s2 :| Leads(c, s1, s2, Mark(c, body)) && Joined(c, s, s2, base, n, body);
      LeadsOn(c, s, s1, s2, Mark(c, body));
    }
  }

  /** All `n` queued requests are admitted in turn and each crashes once. */
  lemma {:induction false} CrashAll(c: Config, s: State, base: Id, n: nat, body: Body) returns (t: State)
    requires c.limit >= 1 && Idle(s)
    requires forall id :: base <= id < base + n ==> id in s.reqs && Fresh(c, body, s.reqs[id])
    ensures Leads(c, s, t, Mark(c, body)) && CrashCount(t, Mark(c, body)) == CrashCount(s, Mark(c, body)) + n
    decreases n
  {
    if n == 0 {
      t := s;
      LeadsSelf(c, s, Mark(c, body));
    } else {
      CrashQueued(c, s, base, body);
      var s1 :| Leads(c, s, s1, Mark(c, body)) && Gone(c, s, s1, base, body);
      var s2 := CrashAll(c, s1, base + 1, n - 1, body);
      LeadsOn(c, s, s1, s2, Mark(c, body));
      t := s2;
    }
  }

  /** The containment bound is attained, for every configuration that admits anything, every body and every
      number `n` of requests past the gate, however small the admission limit is. */
  lemma ContainmentIsTight(c: Config, n: nat, body: Body)
    requires c.poisonMax >= 1 && c.limit >= 1 && n >= 1
    ensures exists s, id: Id, t ::
              && Reachable(c, s) && Enabled(c, s, Bump(id)) && s.reqs[id].fp == Mark(c, body)
              && CrashCount(s, Mark(c, body)) + 1 == c.poisonMax && InFlight(s, Mark(c, body)) == n
              && Leads(c, Apply(c, s, Bump(id)), t, Mark(c, body)) && CrashCount(t, Mark(c, body)) == c.poisonMax - 1 + n
  {
    Verge(c, n, body);
    var s :| Reachable(c, s) && OnVerge(c, s, n, body);
    var t := CrashOn(c, s, c.poisonMax - 1, n - 1, body);
  }

  /** The crash of `id` is counted, and the `n` requests behind it crash in turn. */
  lemma CrashOn(c: Config, s: State, id: Id, n: nat, body: Body) returns (t: State)
    requires c.limit >= 1 && s.lane == Free && OneHolder(c, s, body) && id in s.reqs
    requires s.reqs[id] == Req(Mark(c, body), body, Broke, 1, 1, [body], [])
    requires forall j :: id < j < id + 1 + n ==> j in s.reqs && Fresh(c, body, s.reqs[j])
    ensures Enabled(c, s, Bump(id)) && Leads(c, Apply(c, s, Bump(id)), t, Mark(c, body))
    ensures CrashCount(t, Mark(c, body)) == CrashCount(s, Mark(c, body)) + 1 + n
  {
    Leave(c, s, id, body);
    var s1 :| Leads(c, Apply(c, s, Bump(id)), s1, Mark(c, body)) && Leads(c, s, s1, Mark(c, body)) && Gone(c, s, s1, id, body);
    t := CrashAll(c, s1, id + 1, n, body);
    LeadsOn(c, Apply(c, s, Bump(id)), s1, t, Mark(c, body));
  }

  /** One crash short of the threshold, `n` requests past the gate, and the first of them has just
      broken the daemon. */
  ghost predicate OnVerge(c: Config, s: State, n: nat, body: Body)
    requires c.poisonMax >= 1
  {
    var id := c.poisonMax - 1;
    && s.lane == Free && OneHolder(c, s, body) && CrashCount(s, Mark(c, body)) == id && InFlight(s, Mark(c, body)) == n
    && id in s.reqs && s.reqs[id] == Req(Mark(c, body), body, Broke, 1, 1, [body], [])
    && (forall j :: id < j < id + n ==> j in s.reqs && Fresh(c, body, s.reqs[j]))
    && (forall j :: j in s.reqs && j < id ==> s.reqs[j].phase.Done?)
    && (forall j :: j in s.reqs ==> j < id + n)
    && s.shared == map[] && (forall f :: f in s.poison ==> f == Mark(c, body))
  }

  lemma Verge(c: Config, n: nat, body: Body)
    requires c.poisonMax >= 1 && c.limit >= 1 && n >= 1
    ensures exists t :: Reachable(c, t) && OnVerge(c, t, n, body)
  {
    var id := c.poisonMax - 1;
    Crowd(c, id, n, body);
    var s :| Leads(c, INIT, s, Mark(c, body)) && Gathered(c, s, id, n, body);
    var s1 := BreakOnce(c, s, id, body);
    LeadsOn(c, INIT, s, s1, Mark(c, body));
    LeadsReaches(c, INIT, s1, Mark(c, body));
    BrokenOnVerge(c, s, s1, n, body);
  }

  lemma BrokenOnVerge(c: Config, s: State, t: State, n: nat, body: Body)
    requires c.poisonMax >= 1 && n >= 1 && Gathered(c, s, c.poisonMax - 1, n, body)
    requires t == s.(reqs := s.reqs[c.poisonMax - 1 := Req(Mark(c, body), body, Broke, 1, 1, [body], [])], inUse := 1, general := Share(c, body))
    requires InFlight(t, Mark(c, body)) == n
    ensures OnVerge(c, t, n, body)
  {
  }

  lemma ReachOn(c: Config, s: State, t: State)
    requires Reachable(c, s) && Reaches(c, s, t)
    ensures Reachable(c, t)
  {
    var first :| Run(c, INIT, first, s);
    var ls :| Run(c, s, ls, t);
    RunConcat(c, INIT, first, s, ls, t);
  }

  /** Some schedule ends in a state from which the fingerprint is refused for ever. */
  lemma FinalIsReachable(c: Config, body: Body)
    requires c.poisonMax >= 1 && c.limit >= 1
    ensures exists s :: Reachable(c, s) && Final(c, s, Mark(c, body))
  {
    Crowd(c, c.poisonMax - 1, 1, body);
    var s1 :| Leads(c, INIT, s1, Mark(c, body)) && Gathered(c, s1, c.poisonMax - 1, 1, body);
    CrashQueued(c, s1, c.poisonMax - 1, body);
    var t :| Leads(c, s1, t, Mark(c, body)) && Gone(c, s1, t, c.poisonMax - 1, body);
    LeadsOn(c, INIT, s1, t, Mark(c, body));
    LeadsReaches(c, INIT, t, Mark(c, body));
    EverybodyDone(c, s1, t, c.poisonMax - 1, body);
    AllDoneIsFinal(c, t, Mark(c, body));
  }

  lemma EverybodyDone(c: Config, s: State, t: State, id: Id, body: Body)
    requires Crowded(c, s, id, 1, body) && InPhase(t, id, Done) && t.reqs == s.reqs[id := t.reqs[id]]
    ensures forall j :: j in t.reqs ==> t.reqs[j].phase.Done?
  {
  }

  lemma AllDoneIsFinal(c: Config, s: State, fp: Fp)
    requires CrashCount(s, fp) >= c.poisonMax && forall id :: id in s.reqs ==> s.reqs[id].phase.Done?
    ensures Final(c, s, fp)
  {
  }

  // ---------------------------------------------------------------- the write of the shared set

  /** `id` is confirmed, `other` may send, and little else has changed. */
  ghost predicate Admitted(s: State, t: State, id: Id, other: Id) {
    && InPhase(t, id, Confirmed) && InPhase(t, other, Ready) && id in s.reqs && t.reqs[id].fp == s.reqs[id].fp
    && other in s.reqs && t.reqs[other] == s.reqs[other].(phase := Ready)
    && t.lane == s.lane && t.shared == s.shared && t.now == s.now
  }

  lemma ConfirmThenAdmit(c: Config, s: State, id: Id, other: Id, body: Body)
    requires c.limit >= 2 && OneHolder(c, s, body) && id in s.reqs && s.reqs[id] == Req(Mark(c, body), body, Broke, 1, 1, [body], [])
    requires CrashCount(s, Mark(c, body)) + 1 >= c.poisonMax && id != other && InPhase(s, other, Queued)
    requires Small(c, body) && Small(c, s.reqs[other].body)
    ensures exists t :: Reaches(c, s, t) && Admitted(s, t, id, other)
  {
    var fp := Mark(c, body);
    var t := Extend(c, s, s, Bump(id), fp);
    t := Extend(c, s, t, CheckSole(id), fp);
    t := Extend(c, s, t, Grant(other), fp);
    LeadsReaches(c, s, t, fp);
    assert Admitted(s, t, id, other);
  }

  lemma StartsRecording(c: Config, s: State, id: Id, other: Id)
    requires Reachable(c, s) && InPhase(s, id, Confirmed) && InPhase(s, other, Ready)
    ensures exists t :: Reachable(c, t) && Records(t, id) && InPhase(t, other, Ready)
  {
    var t := Apply(c, s, Record(id));
    ReachesOne(c, s, Record(id));
    ReachOn(c, s, t);
  }

  /** A neighbour is admitted between the read of `in_use` and the write of the shared set. */
  lemma RecordedInCompany(c: Config, body: Body)
    requires c.poisonMax >= 1 && c.limit >= 2 && Small(c, body)
    ensures exists s, id: Id, other: Id :: Reachable(c, s) && Records(s, id) && InPhase(s, other, Ready)
  {
    var id, other := c.poisonMax - 1, c.poisonMax;
    Verge(c, 2, body);
    var v :| Reachable(c, v) && OnVerge(c, v, 2, body);
    assert Fresh(c, body, v.reqs[other]);
    ConfirmThenAdmit(c, v, id, other, body);
    var t :| Reaches(c, v, t) && Admitted(v, t, id, other);
    ReachOn(c, v, t);
    StartsRecording(c, t, id, other);
  }

  /** About to write a new entry into the machine-wide set. */
  ghost predicate Records(s: State, id: Id) { id in s.reqs && s.reqs[id].phase.Recording? }

  /** Whoever enters a fingerprint into the machine-wide set is, at that very write, the only holder of
      a slot. */
  ghost predicate RecordsAlone(c: Config) {
    forall s, id: Id :: Reachable(c, s) && Records(s, id) ==> Holders(s) == {id}
  }

  /** That holds exactly when the proxy admits at most one request at a time. */
  lemma RecordsAloneExactly(c: Config)
    requires c.poisonMax >= 1
    ensures RecordsAlone(c) <==> c.limit <= 1
  {
    if c.limit <= 1 {
      forall s, id: Id | Reachable(c, s) && Records(s, id) ensures Holders(s) == {id} {
        OnlyHolder(c, s, id);
      }
    } else {
      RecordedInCompany(c, "");
      var s, id: Id, other: Id :| Reachable(c, s) && Records(s, id) && InPhase(s, other, Ready);
      assert other in Holders(s) && other != id;
    }
  }

  lemma OnlyHolder(c: Config, s: State, id: Id)
    requires c.limit <= 1 && Reachable(c, s) && id in s.reqs && HoldsSlot(s.reqs[id])
    ensures Holders(s) == {id}
  {
    InvReachable(c, s);
    assert id in Holders(s);
    forall other | other in Holders(s) ensures other == id {
      CountOne(s.reqs, HoldsSlot, id, other);
    }
  }

  // ---------------------------------------------------------------- attribution

  /** `id` breaks the daemon in `s` and, without another send of its own, is later taken for the sole
      suspect. */
  ghost predicate Blamed(c: Config, s: State, id: Id, ls: seq<Label>, t: State) {
    && Reachable(c, s)
    && Sends(s, id)
    && Run(c, Apply(c, s, SendEnds(id, Broken)), ls, t)
    && StartSend(id) !in ls
    && Enabled(c, t, CheckSole(id))
    && InPhase(Apply(c, t, CheckSole(id)), id, Confirmed)
  }

  /** The daemon is busy with nothing else: no send of another client, no send of this proxy, and nothing
      left over from a client that has hung up. */
  ghost predicate AloneInDaemon(s: State, id: Id) {
    s.outside == 0 && s.abandoned == 0 && forall other :: other != id ==> !Sends(s, other)
  }

  /** Whoever is blamed was alone in the daemon when it died. */
  ghost predicate Unambiguous(c: Config) {
    forall s, id: Id, ls, t :: Blamed(c, s, id, ls, t) ==> AloneInDaemon(s, id)
  }

  lemma SendTogether(c: Config, s: State, a: Id, body: Body)
    requires Idle(s) && c.limit >= 2 && a in s.reqs && a + 1 in s.reqs && Small(c, body)
    requires Fresh(c, body, s.reqs[a]) && Fresh(c, body, s.reqs[a + 1]) && CrashCount(s, Mark(c, body)) + 1 == c.poisonMax
    ensures exists t :: Leads(c, s, t, Mark(c, body)) && Paired(c, t, a, body)
  {
    var fp := Mark(c, body);
    var t := Extend(c, s, s, Grant(a), fp);
    t := Extend(c, s, t, Grant(a + 1), fp);
    t := Extend(c, s, t, StartSend(a), fp);
    t := Extend(c, s, t, StartSend(a + 1), fp);
    assert Paired(c, t, a, body);
  }

  lemma HangUp(c: Config, s: State, a: Id, b: Id) returns (t: State)
    requires Reachable(c, s) && Sends(s, a) && Sends(s, b) && a != b && s.inUse == 2
    requires CrashCount(s, s.reqs[a].fp) + 1 >= c.poisonMax
    ensures Blamed(c, s, a, [Cancel(b), Bump(a)], t)
  {
    var s' := Apply(c, s, SendEnds(a, Broken));
    var s1 := Apply(c, s', Cancel(b));
    t := Apply(c, s1, Bump(a));
    assert Run(c, t, [], t);
    assert Run(c, s1, [Bump(a)], t);
    assert [Cancel(b), Bump(a)][1..] == [Bump(a)];
    SoleNow(c, t, a);
  }

  /** Two are in their sends, one crash short of the threshold. */
  ghost predicate Paired(c: Config, s: State, a: Id, body: Body) {
    && Sends(s, a) && Sends(s, a + 1) && s.inUse == 2
    && s.reqs[a].fp == Mark(c, body) && CrashCount(s, Mark(c, body)) + 1 == c.poisonMax
  }

  lemma Company(c: Config, a: Id, body: Body)
    requires c.poisonMax == a + 1 && c.limit >= 2 && Small(c, body)
    ensures exists s :: Reachable(c, s) && Paired(c, s, a, body)
  {
    var fp := Mark(c, body);
    Crowd(c, a, 2, body);
    var s1 :| Leads(c, INIT, s1, fp) && Gathered(c, s1, a, 2, body);
    assert Fresh(c, body, s1.reqs[a]) && Fresh(c, body, s1.reqs[a + 1]);
    SendTogether(c, s1, a, body);
    var s2 :| Leads(c, s1, s2, fp) && Paired(c, s2, a, body);
    LeadsOn(c, INIT, s1, s2, fp);
    LeadsReaches(c, INIT, s2, fp);
  }

  /** A neighbour whose client hangs up between the crash and the count is not seen. */
  lemma BlamedInCompany(c: Config, body: Body)
    requires c.poisonMax >= 1 && c.limit >= 2 && Small(c, body)
    ensures exists s, id: Id, ls, t, other: Id :: Blamed(c, s, id, ls, t) && other != id && Sends(s, other)
  {
    var id := c.poisonMax - 1;
    Company(c, id, body);
    var s :| Reachable(c, s) && Paired(c, s, id, body);
    var t := HangUp(c, s, id, id + 1);
  }

  lemma SoleNow(c: Config, s: State, id: Id)
    requires InPhase(s, id, Suspect) && s.inUse == 1
    ensures Enabled(c, s, CheckSole(id)) && InPhase(Apply(c, s, CheckSole(id)), id, Confirmed)
  {
  }

  /** The only holder of a slot is in its send, one crash short of the threshold. */
  ghost predicate SoleSender(c: Config, s: State, id: Id, body: Body) {
    && Reachable(c, s) && Sends(s, id) && s.inUse == 1
    && s.reqs[id].fp == Mark(c, body) && CrashCount(s, Mark(c, body)) + 1 == c.poisonMax
  }

  lemma TakenForSole(c: Config, s: State, id: Id, body: Body) returns (t: State)
    requires SoleSender(c, s, id, body)
    ensures Blamed(c, s, id, [Bump(id)], t)
  {
    var s' := Apply(c, s, SendEnds(id, Broken));
    t := Apply(c, s', Bump(id));
    assert Run(c, t, [], t);
    SoleNow(c, t, id);
  }

  /** The next of the queue goes into its send. */
  lemma SendsSole(c: Config, s: State, id: Id, body: Body)
    requires Leads(c, INIT, s, Mark(c, body)) && Idle(s) && c.limit >= 1 && id in s.reqs && Fresh(c, body, s.reqs[id])
    requires CrashCount(s, Mark(c, body)) + 1 == c.poisonMax
    ensures SoleSender(c, InSend(c, s, id, body), id, body)
  {
    SendAlone(c, s, id, body);
    LeadsOn(c, INIT, s, InSend(c, s, id, body), Mark(c, body));
    LeadsReaches(c, INIT, InSend(c, s, id, body), Mark(c, body));
  }

  /** Another launch has a request in the same daemon. */
  lemma BesideOutsider(c: Config, id: Id, body: Body)
    requires c.poisonMax == id + 1 && c.limit >= 1 && !c.alone
    ensures exists s :: SoleSender(c, s, id, body) && s.outside == 1
  {
    Crowd(c, id, 1, body);
    var s0 :| Leads(c, INIT, s0, Mark(c, body)) && Gathered(c, s0, id, 1, body);
    assert Fresh(c, body, s0.reqs[id]);
    SendsSole(c, s0, id, body);
    JoinedByOutsider(c, InSend(c, s0, id, body), id, body);
  }

  lemma JoinedByOutsider(c: Config, s: State, id: Id, body: Body)
    requires SoleSender(c, s, id, body) && !c.alone
    ensures SoleSender(c, s.(outside := 1), id, body)
  {
    var l := World(s.shared, s.now, 1, s.abandoned);
    ReachesOne(c, s, l);
    ReachOn(c, s, Apply(c, s, l));
  }

  /** An outsider's crash is taken for one's own: `in_use` counts the slots of this proxy alone. */
  lemma BlamedForOutsider(c: Config, body: Body)
    requires c.poisonMax >= 1 && c.limit >= 1 && !c.alone
    ensures exists s, id: Id, ls, t :: Blamed(c, s, id, ls, t) && s.outside == 1
  {
    var id := c.poisonMax - 1;
    BesideOutsider(c, id, body);
    var s :| SoleSender(c, s, id, body) && s.outside == 1;
    var t := TakenForSole(c, s, id, body);
  }

  /** The daemon still works on a request whose client has hung up when the next one is sent. */
  lemma BesideAbandoned(c: Config, id: Id, body: Body)
    requires c.poisonMax == id + 1 && c.limit >= 1 && !c.drops
    ensures exists s :: SoleSender(c, s, id + 1, body) && s.abandoned > 0
  {
    var fp := Mark(c, body);
    Crowd(c, id, 2, body);
    var s0 :| Leads(c, INIT, s0, fp) && Gathered(c, s0, id, 2, body);
    assert Fresh(c, body, s0.reqs[id]) && Fresh(c, body, s0.reqs[id + 1]);
    HangsUpInSend(c, s0, id, body);
    var s1 :| Leads(c, s0, s1, fp) && HungUp(s0, s1, id);
    LeadsOn(c, INIT, s0, s1, fp);
    SendsSole(c, s1, id + 1, body);
    assert InSend(c, s1, id + 1, body).abandoned == s1.abandoned;
  }

  /** `s`, but for `id`, which is in its first send and alone holds a slot. */
  ghost function InSend(c: Config, s: State, id: Id, body: Body): State {
    s.(reqs := s.reqs[id := Req(Mark(c, body), body, Sending(false), 1, 0, [body], [])],
       lane := Shared(1), inUse := 1, general := Share(c, body))
  }

  /** A queued request goes into its send with nobody else in a slot. */
  lemma SendAlone(c: Config, s: State, id: Id, body: Body)
    requires Idle(s) && c.limit >= 1 && id in s.reqs && Fresh(c, body, s.reqs[id])
    ensures Leads(c, s, InSend(c, s, id, body), Mark(c, body))
  {
    var t := Extend(c, s, s, Grant(id), Mark(c, body));
    t := Extend(c, s, t, StartSend(id), Mark(c, body));
    assert t.reqs[id].sent == [body];
    assert t.reqs == InSend(c, s, id, body).reqs;
    assert t == InSend(c, s, id, body);
  }

  /** It has hung up in its send, and the daemon goes on. */
  ghost predicate HungUp(s: State, t: State, id: Id) {
    Idle(t) && t.abandoned > 0 && t.poison == s.poison && id in t.reqs && t.reqs == s.reqs[id := t.reqs[id]]
  }

  lemma HangsUpInSend(c: Config, s: State, id: Id, body: Body)
    requires Idle(s) && c.limit >= 1 && id in s.reqs && Fresh(c, body, s.reqs[id]) && !c.drops
    ensures exists t :: Leads(c, s, t, Mark(c, body)) && HungUp(s, t, id)
  {
    SendAlone(c, s, id, body);
    var s1 := InSend(c, s, id, body);
    var t := Extend(c, s, s1, Cancel(id), Mark(c, body));
    assert HungUp(s, t, id);
  }

  /** A crash of work nobody waits for is taken for one's own: the slot of a client that hung up is free
      at once. */
  lemma BlamedForAbandoned(c: Config, body: Body)
    requires c.poisonMax >= 1 && c.limit >= 1 && !c.drops
    ensures exists s, id: Id, ls, t :: Blamed(c, s, id, ls, t) && s.abandoned > 0
  {
    BesideAbandoned(c, c.poisonMax - 1, body);
    var s :| SoleSender(c, s, c.poisonMax, body) && s.abandoned > 0;
    var t := TakenForSole(c, s, c.poisonMax, body);
  }

  lemma AloneWithOneSlot(c: Config, s: State, id: Id)
    requires Reachable(c, s) && Sends(s, id) && c.limit <= 1 && c.alone && c.drops
    ensures AloneInDaemon(s, id)
  {
    InvReachable(c, s);
    forall other | other != id ensures !Sends(s, other) {
      if Sends(s, other) {
        CountOne(s.reqs, HoldsSlot, id, other);
      }
    }
  }

  lemma NobodySends(c: Config, s: State, id: Id)
    requires Reachable(c, s) && c.limit == 0
    ensures !Sends(s, id)
  {
    InvReachable(c, s);
    if Sends(s, id) {
      CountZero(s.reqs, HoldsSlot, id);
    }
  }

  /** The comment in the source reads `in_use <= 1` as unambiguous attribution.  For a proxy that admits
      anything it is so exactly when it admits one request at a time, no other client uses the daemon, and
      the daemon drops a request the moment its client hangs up. */
  lemma AttributionExactly(c: Config)
    requires c.poisonMax >= 1
    ensures Unambiguous(c) <==> c.limit == 0 || (c.limit == 1 && c.alone && c.drops)
  {
    if c.limit == 0 || (c.limit == 1 && c.alone && c.drops) {
      forall s, id: Id, ls, t | Blamed(c, s, id, ls, t) ensures AloneInDaemon(s, id) {
        if c.limit == 0 {
          NobodySends(c, s, id);
        } else {
          AloneWithOneSlot(c, s, id);
        }
      }
    } else {
      Ambiguous(c);
    }
  }

  lemma Ambiguous(c: Config)
    requires c.poisonMax >= 1 && c.limit >= 1 && (c.limit >= 2 || !c.alone || !c.drops)
    ensures !Unambiguous(c)
  {
    if c.limit >= 2 {
      BlamedInCompany(c, "");
      var s, id: Id, ls, t, other: Id :| Blamed(c, s, id, ls, t) && other != id && Sends(s, other);
      assert !AloneInDaemon(s, id);
    } else if !c.alone {
      BlamedForOutsider(c, "");
      var s, id: Id, ls, t :| Blamed(c, s, id, ls, t) && s.outside == 1;
      assert !AloneInDaemon(s, id);
    } else {
      BlamedForAbandoned(c, "");
      var s, id: Id, ls, t :| Blamed(c, s, id, ls, t) && s.abandoned > 0;
      assert !AloneInDaemon(s, id);
    }
  }
}
