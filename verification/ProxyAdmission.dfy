/** The admission of the proxy's transition system is that of the scheduler: every call of the scheduler is
    a run of grants and ends, for the requests behind its waiters. */
module ProxyAdmission {
  import opened Proxy
  import opened ProxyRuns
  import opened Admission

  /** Which request is behind the waiter with a given number. */
  type Names = map<nat, Id>

  ghost function Name(who: Names, w: Waiter): Id { if w.seqNo in who then who[w.seqNo] else 0 }

  /** The request behind `w` waits for a slot, or its client has hung up meanwhile. */
  ghost predicate Behind(c: Config, s: State, who: Names, w: Waiter) {
    && w.seqNo in who && who[w.seqNo] in s.reqs
    && var r := s.reqs[who[w.seqNo]];
       (r.phase.Queued? || r.phase.Done?) && w.isFast == IsFast(c, r.body) && w.cost == |r.body| / 4
  }

  ghost predicate AllBehind(c: Config, s: State, who: Names, ws: seq<Waiter>) {
    && (forall w :: w in ws ==> Behind(c, s, who, w))
    && forall v, w :: v in ws && w in ws && Name(who, v) == Name(who, w) ==> v == w
  }

  /** The scheduler with the proxy's settings, holding what the state says is held. */
  ghost predicate Counts(c: Config, s: State, a: AdmissionScheduler)
    reads a
  {
    && a.Valid() && a.limit == c.limit && a.fastlaneTokens == c.fastlane && a.queueMax == 0
    && a.InUse() == s.inUse && a.generalInUse == s.general
  }

  ghost predicate Mirrors(c: Config, s: State, a: AdmissionScheduler, who: Names)
    reads a
  {
    Counts(c, s, a) && AllBehind(c, s, who, a.waiters)
  }

  /** A queued request may be granted exactly when it fits, the reserved slot included. */
  lemma FitsIsGrant(c: Config, s: State, a: AdmissionScheduler, id: Id)
    requires Counts(c, s, a) && InPhase(s, id, Queued)
    ensures a.CanAdmit(IsFast(c, s.reqs[id].body)) <==> Enabled(c, s, Grant(id))
  {
  }

  /** Asking for admission is the label `Grant` or joining the queue; the proxy is never shed. */
  method AdmitIsGrant(c: Config, ghost s: State, a: AdmissionScheduler, ghost id: Id, body: Body, ghost who: Names)
    returns (r: Admitted, ghost who': Names)
    requires Mirrors(c, s, a, who) && InPhase(s, id, Queued) && s.reqs[id].body == body
    requires forall w :: w in a.waiters ==> Name(who, w) != id  // it has not asked before
    modifies a
    ensures !r.Overloaded? && (r.Granted? <==> Enabled(c, s, Grant(id)))
    ensures Mirrors(c, if r.Granted? then Apply(c, s, Grant(id)) else s, a, who')
    ensures r.Granted? ==> a.Live(r.guard) && r.guard.isFast == IsFast(c, body)
    ensures who' == if r.Parked? then who[r.waiter.seqNo := id] else who
  {
    ghost var ws, next := a.waiters, a.nextSeq;
    r := a.Admit(|body| / 4);
    who' := who;
    if r.Parked? {
      who' := who[r.waiter.seqNo := id];
      JoinBehind(c, s, who, ws, next, r.waiter, id);
    } else if r.Granted? {
      StayBehind(c, s, Apply(c, s, Grant(id)), who, ws, id);
    }
  }

  lemma JoinBehind(c: Config, s: State, who: Names, ws: seq<Waiter>, next: nat, w: Waiter, id: Id)
    requires AllBehind(c, s, who, ws) && InArrivalOrder(ws, next) && w.seqNo == next && InPhase(s, id, Queued)
    requires w.isFast == IsFast(c, s.reqs[id].body) && w.cost == |s.reqs[id].body| / 4
    requires forall v :: v in ws ==> Name(who, v) != id
    ensures AllBehind(c, s, who[next := id], ws + [w])
  {
    var who' := who[next := id];
    forall v | v in ws ensures Behind(c, s, who', v) && Name(who', v) == Name(who, v) {
      OrderBelow(ws, next, v);
    }
    assert Name(who', w) == id;
  }

  lemma StayBehind(c: Config, s: State, t: State, who: Names, ws: seq<Waiter>, id: Id)
    requires AllBehind(c, s, who, ws) && forall w :: w in ws ==> Name(who, w) != id
    requires id in t.reqs && t.reqs == s.reqs[id := t.reqs[id]]
    ensures AllBehind(c, t, who, ws)
  {
    forall w | w in ws ensures Behind(c, t, who, w) {
      assert Behind(c, s, who, w);
    }
  }

  // ---------------------------------------------------------------- a release is an end and some grants

  /** The labels of the grants, in the order in which they were made. */
  ghost function Grants(granted: seq<(Waiter, Guard)>, who: Names): seq<Label> {
    if granted == [] then []
    else Grants(granted[..|granted| - 1], who) + [Grant(Name(who, granted[|granted| - 1].0))]
  }

  /** Each grant is for another waiting request, of the kind the scheduler takes it for. */
  ghost predicate Grantable(c: Config, s: State, granted: seq<(Waiter, Guard)>, who: Names) {
    && (forall p :: p in granted ==> InPhase(s, Name(who, p.0), Queued) && p.1.isFast == IsFast(c, s.reqs[Name(who, p.0)].body))
    && forall p, q :: p in granted && q in granted && Name(who, p.0) == Name(who, q.0) ==> p.0 == q.0
  }

  /** Nobody but the granted has changed. */
  ghost predicate OthersSame(s: State, t: State, granted: seq<(Waiter, Guard)>, who: Names) {
    forall id :: id in s.reqs && (forall p :: p in granted ==> Name(who, p.0) != id) ==> id in t.reqs && t.reqs[id] == s.reqs[id]
  }

  lemma {:induction false} GrantAll(c: Config, s: State, granted: seq<(Waiter, Guard)>, who: Names) returns (t: State)
    requires Grantable(c, s, granted, who) && ServedOnce(granted)
    requires s.inUse + |granted| <= c.limit && s.general + Bigs(granted) <= GeneralCap(c)
    ensures Run(c, s, Grants(granted, who), t) && OthersSame(s, t, granted, who)
    ensures t.inUse == s.inUse + |granted| && t.general == s.general + Bigs(granted)
  {
    t := s;
    if granted != [] {
      var n := |granted| - 1;
      var front, p := granted[..n], granted[n];
      assert granted == front + [p];
      var u := GrantAll(c, s, front, who);
      NotYetGranted(front, p, who);
      t := GrantNext(c, s, u, front, p, who);
      RunConcat(c, s, Grants(front, who), u, [Grant(Name(who, p.0))], t);
    }
  }

  lemma NotYetGranted(front: seq<(Waiter, Guard)>, p: (Waiter, Guard), who: Names)
    requires forall a, b :: a in front + [p] && b in front + [p] && Name(who, a.0) == Name(who, b.0) ==> a.0 == b.0
    requires p.0 !in Served(front)
    ensures forall q :: q in front ==> Name(who, q.0) != Name(who, p.0)
  {
    forall q | q in front ensures Name(who, q.0) != Name(who, p.0) {
      assert q in front + [p] && p in front + [p];
      assert q.0 in Served(front);
    }
  }

  lemma GrantNext(c: Config, s: State, u: State, front: seq<(Waiter, Guard)>, p: (Waiter, Guard), who: Names) returns (t: State)
    requires OthersSame(s, u, front, who) && forall q :: q in front ==> Name(who, q.0) != Name(who, p.0)
    requires InPhase(s, Name(who, p.0), Queued) && p.1.isFast == IsFast(c, s.reqs[Name(who, p.0)].body)
    requires u.inUse + 1 <= c.limit && u.general + (if p.1.isFast then 0 else 1) <= GeneralCap(c)
    ensures Run(c, u, [Grant(Name(who, p.0))], t) && OthersSame(s, t, front + [p], who)
    ensures t.inUse == u.inUse + 1 && t.general == u.general + if p.1.isFast then 0 else 1
  {
    var id := Name(who, p.0);
    t := Apply(c, u, Grant(id));
    assert Run(c, t, [], t);
    forall j | j in s.reqs && (forall q :: q in front + [p] ==> Name(who, q.0) != j) ensures j in t.reqs && t.reqs[j] == s.reqs[j] {
      assert p in front + [p] && forall q :: q in front ==> q in front + [p];
    }
  }

  /** What a release does to the queue, seen from the requests behind it. */
  lemma WokenAreGrantable(c: Config, s: State, who: Names, ws: seq<Waiter>, left: seq<Waiter>, granted: seq<(Waiter, Guard)>,
                          gone: nat -> set<nat>, turns: nat)
    requires AllBehind(c, s, who, ws) && InOrder(granted, ws, left) && GoneLeave(left, Served(granted), gone, turns)
    requires forall w, n :: w in ws && InPhase(s, Name(who, w), Done) ==> w.seqNo in gone(n)
    ensures Grantable(c, s, granted, who)
  {
    forall p | p in granted ensures InPhase(s, Name(who, p.0), Queued) && p.1.isFast == IsFast(c, s.reqs[Name(who, p.0)].body) {
      assert p.0 in ws && Behind(c, s, who, p.0) && p.0 in Served(granted);
      var n: nat :| n < turns && p.0.seqNo !in gone(n);
    }
  }

  lemma LeftAreBehind(c: Config, s: State, t: State, who: Names, ws: seq<Waiter>, left: seq<Waiter>, granted: seq<(Waiter, Guard)>)
    requires AllBehind(c, s, who, ws) && InOrder(granted, ws, left) && OthersSame(s, t, granted, who)
    ensures AllBehind(c, t, who, left)
  {
    forall w | w in left ensures Behind(c, t, who, w) {
      assert Behind(c, s, who, w);
      forall p | p in granted ensures Name(who, p.0) != Name(who, w) {
        assert p.0 in ws && p.0 !in left;
      }
    }
  }

  /** Dropping the guard of a request that ends is the label of that end, and then one `Grant` for each
      woken waiter in the order of the scheduler; the clients that have hung up are known to be gone. */
  method ReleaseIsEnd(c: Config, ghost s: State, a: AdmissionScheduler, ghost l: Label, g: Guard,
                      gone: nat -> set<nat>, lost: nat -> bool, ghost who: Names)
    returns (granted: seq<(Waiter, Guard)>, ghost t: State)
    requires s.inUse <= c.limit && s.general <= GeneralCap(c)
    requires Mirrors(c, s, a, who) && Enabled(c, s, l) && Ends(l) && Held(s, l.id)
    requires a.Live(g) && g.isFast == IsFast(c, s.reqs[l.id].body)
    requires forall w, n :: w in a.waiters && InPhase(s, Name(who, w), Done) ==> w.seqNo in gone(n)
    modifies a
    ensures Run(c, s, [l] + Grants(granted, who), t) && Mirrors(c, t, a, who)
    ensures !a.Live(g)
  {
    ghost var ws := a.waiters;
    ghost var turns, refused;
    granted, turns, refused := DropGuard(c, s, a, g, gone, lost);
    t := ReleaseRun(c, s, l, who, ws, a.waiters, granted, gone, lost, turns, refused);
  }

  /** The counters after a release, in terms of the state before it. */
  method DropGuard(c: Config, ghost s: State, a: AdmissionScheduler, g: Guard, gone: nat -> set<nat>, lost: nat -> bool)
    returns (granted: seq<(Waiter, Guard)>, ghost turns: nat, ghost refused: map<nat, Waiter>)
    requires s.inUse <= c.limit && s.general <= GeneralCap(c) && Counts(c, s, a) && a.Live(g)
    modifies a
    ensures var inUse, general := Less(s.inUse) + |granted|, (if g.isFast then s.general else Less(s.general)) + Bigs(granted);
            inUse <= c.limit && general <= GeneralCap(c) && Counts(c, s.(inUse := inUse, general := general), a)
    ensures Handed(old(a.waiters), a.waiters, granted, gone, lost, turns, refused) && !a.Live(g)
  {
    granted, turns, refused := a.Release(g, gone, lost);
  }

  lemma EndsFirst(c: Config, s: State, l: Label, who: Names, ws: seq<Waiter>) returns (s': State)
    requires Enabled(c, s, l) && Ends(l) && Held(s, l.id) && AllBehind(c, s, who, ws)
    ensures s' == Apply(c, s, l) && AllBehind(c, s', who, ws)
    ensures forall w :: w in ws && InPhase(s', Name(who, w), Done) ==> InPhase(s, Name(who, w), Done)
    ensures s'.inUse == Less(s.inUse) && s'.general == if IsFast(c, s.reqs[l.id].body) then s.general else Less(s.general)
  {
    s' := Apply(c, s, l);
    FrameStep(c, s, l);
    UseEffect(c, s, l);
    forall w | w in ws ensures Name(who, w) != l.id {
      assert Behind(c, s, who, w);
    }
    StayBehind(c, s, s', who, ws, l.id);
  }

  lemma ReleaseRun(c: Config, s: State, l: Label, who: Names, ws: seq<Waiter>, left: seq<Waiter>, granted: seq<(Waiter, Guard)>,
                   gone: nat -> set<nat>, lost: nat -> bool, turns: nat, refused: map<nat, Waiter>) returns (t: State)
    requires Enabled(c, s, l) && Ends(l) && Held(s, l.id) && AllBehind(c, s, who, ws)
    requires Handed(ws, left, granted, gone, lost, turns, refused)
    requires forall w, n :: w in ws && InPhase(s, Name(who, w), Done) ==> w.seqNo in gone(n)
    requires Less(s.inUse) + |granted| <= c.limit
    requires (if IsFast(c, s.reqs[l.id].body) then s.general else Less(s.general)) + Bigs(granted) <= GeneralCap(c)
    ensures Run(c, s, [l] + Grants(granted, who), t) && AllBehind(c, t, who, left)
    ensures t.inUse == Less(s.inUse) + |granted|
    ensures t.general == (if IsFast(c, s.reqs[l.id].body) then s.general else Less(s.general)) + Bigs(granted)
  {
    var s' := EndsFirst(c, s, l, who, ws);
    WokenAreGrantable(c, s', who, ws, left, granted, gone, turns);
    t := GrantAll(c, s', granted, who);
    LeftAreBehind(c, s', t, who, ws, left, granted);
    assert ([l] + Grants(granted, who))[1..] == Grants(granted, who);
  }
}
