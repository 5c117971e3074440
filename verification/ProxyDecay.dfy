/** Whether a locally refused fingerprint can ever be let through again, and that the proxy never gets
    stuck. */
module ProxyDecay {
  import opened Proxy
  import opened ProxyRuns

  /** Past the gate and still able to end in a success. */
  predicate Hopeful(c: Config, r: Req) {
    || r.phase.Queued? || r.phase.Ready? || r.phase.Sending? || r.phase.Clearing?
    || (r.phase.Erred? && r.attempts < c.maxAttempts)
  }

  ghost predicate SomeHope(c: Config, s: State, fp: Fp) {
    exists id :: id in s.reqs && s.reqs[id].fp == fp && Hopeful(c, s.reqs[id])
  }

  /** At or over the threshold, with nobody left who could clear the count. */
  ghost predicate Final(c: Config, s: State, fp: Fp) {
    CrashCount(s, fp) >= c.poisonMax && !SomeHope(c, s, fp)
  }

  // ---------------------------------------------------------------- final is for ever

  /** At the threshold no action gives hope to a request that has none. */
  lemma HopeEffect(c: Config, s: State, l: Label, fp: Fp)
    requires Enabled(c, s, l) && CrashCount(s, fp) >= c.poisonMax && !l.World?
    requires l.id in s.reqs && s.reqs[l.id].fp == fp ==> !Hopeful(c, s.reqs[l.id])
    ensures Moved(c, s, l).fp == fp ==> !Hopeful(c, Moved(c, s, l))
    ensures Own(s, l, fp) ==> !l.ClearLocal?
  {
  }

  lemma FinalActor(c: Config, s: State, l: Label, fp: Fp)
    requires Enabled(c, s, l) && Final(c, s, fp) && !l.World?
    ensures var t := Apply(c, s, l);
            && CrashCount(t, fp) >= CrashCount(s, fp)
            && (t.reqs[l.id].fp == fp ==> !Hopeful(c, t.reqs[l.id]))
  {
    HopeEffect(c, s, l, fp);
    CrashEffect(c, s, l, fp);
  }

  lemma FinalStep(c: Config, s: State, l: Label, fp: Fp)
    requires Enabled(c, s, l) && Final(c, s, fp)
    ensures var t := Apply(c, s, l); Final(c, t, fp) && CrashCount(t, fp) >= CrashCount(s, fp)
  {
    if !l.World? {
      var t := Apply(c, s, l);
      FrameStep(c, s, l);
      FinalActor(c, s, l, fp);
      assert forall id :: id in t.reqs && id != l.id ==> id in s.reqs && t.reqs[id] == s.reqs[id];
    }
  }

  lemma {:induction false} FinalRun(c: Config, s: State, ls: seq<Label>, t: State, fp: Fp)
    requires Run(c, s, ls, t) && Final(c, s, fp)
    ensures Final(c, t, fp) && CrashCount(t, fp) >= CrashCount(s, fp)
    decreases |ls|
  {
    if ls != [] {
      FinalStep(c, s, ls[0], fp);
      FinalRun(c, Apply(c, s, ls[0]), ls[1..], t, fp);
    }
  }

  /** At the gate, or refused there: no send was made. */
  ghost predicate TurnedAway(r: Req) {
    && r.sent == []
    && (if r.phase.Done? then r.replies == [Refused] || r.replies == [BadBody]
        else r.replies == [] && (r.phase.Gate? || r.phase.LocalGate?))
  }

  lemma TurnedAwayStep(c: Config, s: State, l: Label, id: Id)
    requires Enabled(c, s, l) && id in s.reqs && TurnedAway(s.reqs[id])
    requires CrashCount(s, s.reqs[id].fp) >= c.poisonMax
    ensures var t := Apply(c, s, l); id in t.reqs && t.reqs[id].fp == s.reqs[id].fp && TurnedAway(t.reqs[id])
  {
    if !l.World? {
      FrameStep(c, s, l);
      assert [] + [Refused] == [Refused];
    }
  }

  /** From a final state on every request with this fingerprint that is new or still at the gate is
      turned away without a single send, in every run, whatever happens to the machine-wide entry. */
  lemma {:induction false} RefusalIsAbsorbing(c: Config, s: State, ls: seq<Label>, t: State, fp: Fp, id: Id)
    requires Run(c, s, ls, t) && Final(c, s, fp)
    requires id in t.reqs && t.reqs[id].fp == fp
    requires id in s.reqs ==> TurnedAway(s.reqs[id])
    ensures Final(c, t, fp) && TurnedAway(t.reqs[id])
    decreases |ls|
  {
    if ls != [] {
      FinalStep(c, s, ls[0], fp);
      if id in s.reqs {
        FpStays(c, s, ls, t, id);
        TurnedAwayStep(c, s, ls[0], id);
      }
      RefusalIsAbsorbing(c, Apply(c, s, ls[0]), ls[1..], t, fp, id);
    }
  }

  // ---------------------------------------------------------------- emptying the proxy

  /** An action that brings a slot holder closer to its end and needs nobody else. */
  function Onward(r: Req, id: Id): Label {
    match r.phase
    case Broke => Bump(id)
    case Erred => Retry(id)
    case Suspect => CheckSole(id)
    case Confirmed => Record(id)
    case Recording(_) => WriteShared(id)
    case Clearing(_) => ClearLocal(id)
    case ClearingShared(_) => ClearShared(id)
    case Erasing(_, _) => WriteShared(id)
    case Streaming => EndStream(id)
    case Leaving => Drop(id)
    case _ => Cancel(id)
  }

  lemma OnwardStep(c: Config, s: State, id: Id)
    requires id in s.reqs && HoldsSlot(s.reqs[id])
    ensures var l := Onward(s.reqs[id], id);
            Enabled(c, s, l) && !l.World? && l.id == id && (InPhase(Apply(c, s, l), id, Done) || HoldsSlot(Apply(c, s, l).reqs[id]))
  {
  }

  /** `id` has moved on, alone, and is over or still holds its slot. */
  ghost predicate Nearer(c: Config, s: State, t: State, id: Id) {
    && id in s.reqs && id in t.reqs && t.reqs == s.reqs[id := t.reqs[id]]
    && (t.reqs[id].phase.Done? || HoldsSlot(t.reqs[id])) && PhaseOk(c, t.reqs[id])
    && 0 <= Rank(c, t, id) < Rank(c, s, id)
  }

  lemma OnwardKeeps(c: Config, s: State, id: Id)
    requires id in s.reqs && HoldsSlot(s.reqs[id]) && PhaseOk(c, s.reqs[id])
    ensures exists t :: Reaches(c, s, t) && Nearer(c, s, t, id)
  {
    var l := Onward(s.reqs[id], id);
    OnwardStep(c, s, id);
    RankStep(c, s, l, id);
    BudgetStep(c, s, l);
    MarksStep(c, s, l);
    ReachesOne(c, s, l);
    assert Nearer(c, s, Apply(c, s, l), id);
  }

  /** `id` is over, and nobody else has moved. */
  ghost predicate Over(s: State, t: State, id: Id) {
    InPhase(t, id, Done) && t.reqs == s.reqs[id := t.reqs[id]]
  }

  /** One holder is brought to its end; nobody else notices. */
  lemma {:induction false} DriveOut(c: Config, s: State, id: Id)
    requires id in s.reqs && HoldsSlot(s.reqs[id]) && PhaseOk(c, s.reqs[id])
    ensures exists t :: Reaches(c, s, t) && Over(s, t, id)
    decreases Rank(c, s, id)
  {
    OnwardKeeps(c, s, id);
    var t :| Reaches(c, s, t) && Nearer(c, s, t, id);
    if !t.reqs[id].phase.Done? {
      DriveOut(c, t, id);
      var u :| Reaches(c, t, u) && Over(t, u, id);
      ReachesOn(c, s, t, u);
      assert Over(s, u, id);
    }
  }

  /** Everybody but `j` stands where it stood. */
  ghost predicate OthersStay(s: State, t: State, j: Id) {
    forall id :: id in s.reqs && id != j ==> id in t.reqs && t.reqs[id] == s.reqs[id]
  }

  lemma DriveOneOut(c: Config, s: State, j: Id)
    requires Inv(c, s) && j in s.reqs && HoldsSlot(s.reqs[j])
    ensures exists t :: Reaches(c, s, t) && Inv(c, t) && Count(t.reqs, HoldsSlot) < Count(s.reqs, HoldsSlot) && OthersStay(s, t, j)
  {
    assert ReqOk(c, s.reqs[j]);
    DriveOut(c, s, j);
    var t :| Reaches(c, s, t) && Over(s, t, j);
    var ls :| Run(c, s, ls, t);
    InvRun(c, s, ls, t);
    OneHolderLess(s, t, j);
  }

  lemma OneHolderLess(s: State, t: State, j: Id)
    requires j in s.reqs && HoldsSlot(s.reqs[j]) && Over(s, t, j)
    ensures Count(t.reqs, HoldsSlot) < Count(s.reqs, HoldsSlot) && OthersStay(s, t, j)
  {
    CountPut(s.reqs, j, t.reqs[j], HoldsSlot);
  }

  ghost predicate NobodyElse(s: State, id: Id) {
    forall j :: j in s.reqs && HoldsSlot(s.reqs[j]) ==> j == id
  }

  lemma {:induction false} DriveOthersOut(c: Config, s: State, id: Id)
    requires Inv(c, s) && id in s.reqs
    ensures exists t :: Reaches(c, s, t) && id in t.reqs && t.reqs[id] == s.reqs[id] && NobodyElse(t, id)
    decreases Count(s.reqs, HoldsSlot)
  {
    if NobodyElse(s, id) {
      ReachesSelf(c, s);
    } else {
      var j :| j in s.reqs && HoldsSlot(s.reqs[j]) && j != id;
      DriveOneOut(c, s, j);
      var s' :| Reaches(c, s, s') && Inv(c, s') && Count(s'.reqs, HoldsSlot) < Count(s.reqs, HoldsSlot) && OthersStay(s, s', j);
      DriveOthersOut(c, s', id);
      var t :| Reaches(c, s', t) && id in t.reqs && t.reqs[id] == s'.reqs[id] && NobodyElse(t, id);
      ReachesOn(c, s, s', t);
    }
  }

  // ---------------------------------------------------------------- one request alone can clear the count

  /** Some schedule leads to a state in which the count of `fp` is cleared. */
  ghost predicate Clearable(c: Config, s: State, fp: Fp) {
    exists t :: Reaches(c, s, t) && CrashCount(t, fp) == 0
  }

  lemma Ahead(c: Config, s: State, l: Label, fp: Fp)
    requires Enabled(c, s, l) && Clearable(c, Apply(c, s, l), fp)
    ensures Clearable(c, s, fp)
  {
    var t :| Reaches(c, Apply(c, s, l), t) && CrashCount(t, fp) == 0;
    ReachesOne(c, s, l);
    ReachesOn(c, s, Apply(c, s, l), t);
  }

  lemma FromClearing(c: Config, s: State, id: Id)
    requires id in s.reqs && s.reqs[id].phase.Clearing?
    ensures Clearable(c, s, s.reqs[id].fp)
  {
    ReachesOne(c, s, ClearLocal(id));
    assert CrashCount(Apply(c, s, ClearLocal(id)), s.reqs[id].fp) == 0;
  }

  lemma FromSending(c: Config, s: State, id: Id)
    requires Sends(s, id)
    ensures Clearable(c, s, s.reqs[id].fp)
  {
    var l := SendEnds(id, Headers(200));
    FromClearing(c, Apply(c, s, l), id);
    Ahead(c, s, l, s.reqs[id].fp);
  }

  lemma FreeLane(c: Config, s: State, id: Id)
    requires Inv(c, s) && NobodyElse(s, id) && id in s.reqs && !s.reqs[id].phase.Sending?
    ensures s.lane.Free?
  {
    assert Ids(s.reqs, SendsShared) == {} && Ids(s.reqs, SendsExclusive) == {};
  }

  lemma FromReady(c: Config, s: State, id: Id)
    requires Inv(c, s) && NobodyElse(s, id) && InPhase(s, id, Ready)
    ensures Clearable(c, s, s.reqs[id].fp)
  {
    FreeLane(c, s, id);
    FromSending(c, Apply(c, s, StartSend(id)), id);
    Ahead(c, s, StartSend(id), s.reqs[id].fp);
  }

  lemma SlotFree(c: Config, s: State, id: Id)
    requires Inv(c, s) && NobodyElse(s, id) && InPhase(s, id, Queued) && c.limit >= 1
    ensures Enabled(c, s, Grant(id))
  {
    assert Ids(s.reqs, HoldsSlot) == {} && Ids(s.reqs, Big(c)) == {};
  }

  lemma StillNobodyElse(s: State, s': State, id: Id)
    requires NobodyElse(s, id) && id in s'.reqs && s'.reqs == s.reqs[id := s'.reqs[id]]
    ensures NobodyElse(s', id)
  {
  }

  /** Granting or retrying brings the request to the top of its loop, with everybody else as before. */
  lemma FromElsewhere(c: Config, s: State, id: Id, l: Label)
    requires Inv(c, s) && NobodyElse(s, id) && id in s.reqs && Enabled(c, s, l)
    requires l == Grant(id) || (l == Retry(id) && s.reqs[id].attempts < c.maxAttempts)
    ensures Clearable(c, s, s.reqs[id].fp)
  {
    var s' := Apply(c, s, l);
    InvStep(c, s, l);
    FrameStep(c, s, l);
    StillNobodyElse(s, s', id);
    FromReady(c, s', id);
    Ahead(c, s, l, s.reqs[id].fp);
  }

  /** Everybody else who holds a slot or the lane is brought to an end; then the request goes through. */
  lemma HopeClears(c: Config, s: State, id: Id)
    requires Inv(c, s) && c.limit >= 1 && id in s.reqs && Hopeful(c, s.reqs[id])
    ensures Clearable(c, s, s.reqs[id].fp)
  {
    DriveOthersOut(c, s, id);
    var s' :| Reaches(c, s, s') && id in s'.reqs && s'.reqs[id] == s.reqs[id] && NobodyElse(s', id);
    var ls :| Run(c, s, ls, s');
    InvRun(c, s, ls, s');
    match s.reqs[id].phase {
      case Clearing(_) => FromClearing(c, s', id);
      case Sending(_) => FromSending(c, s', id);
      case Ready => FromReady(c, s', id);
      case Queued =>
        SlotFree(c, s', id);
        FromElsewhere(c, s', id, Grant(id));
      case Erred => FromElsewhere(c, s', id, Retry(id));
    }
    var t :| Reaches(c, s', t) && CrashCount(t, s.reqs[id].fp) == 0;
    ReachesOn(c, s, s', t);
  }

  /** A refused fingerprint can be let through again, in some run, exactly when some request that
      carries it is past the gate and may still succeed.  Otherwise the refusal is for ever. */
  lemma DecaysExactly(c: Config, s: State, fp: Fp)
    requires Inv(c, s) && c.limit >= 1 && CrashCount(s, fp) >= c.poisonMax >= 1
    ensures (exists t :: LetsThrough(c, s, t, fp)) <==> SomeHope(c, s, fp)
  {
    if SomeHope(c, s, fp) {
      var id :| id in s.reqs && s.reqs[id].fp == fp && Hopeful(c, s.reqs[id]);
      HopeClears(c, s, id);
      var t :| Reaches(c, s, t) && CrashCount(t, fp) == 0;
      assert LetsThrough(c, s, t, fp);
    } else {
      forall t | Reaches(c, s, t) ensures !LetsThrough(c, s, t, fp) {
        var ls :| Run(c, s, ls, t);
        FinalRun(c, s, ls, t, fp);
      }
    }
  }

  /** `t` can be reached, and there the local gate no longer refuses `fp`. */
  ghost predicate LetsThrough(c: Config, s: State, t: State, fp: Fp) {
    Reaches(c, s, t) && CrashCount(t, fp) < c.poisonMax
  }

  // ---------------------------------------------------------------- no deadlock

  /** An action of a request itself; hanging up is its client's. */
  predicate OwnAction(l: Label) {
    !l.World? && !l.Arrive? && !l.ArriveUnreadable? && !l.Cancel?
  }

  ghost predicate SomeoneMoves(c: Config, s: State) {
    exists l :: Enabled(c, s, l) && OwnAction(l)
  }

  lemma SenderMoves(c: Config, s: State)
    requires Inv(c, s) && !s.lane.Free?
    ensures SomeoneMoves(c, s)
  {
    var senders := Ids(s.reqs, if s.lane.Exclusive? then SendsExclusive else SendsShared);
    assert |senders| > 0;
    var k :| k in senders;
    assert Enabled(c, s, SendEnds(k, ConnectError));
  }

  lemma HolderMoves(c: Config, s: State, j: Id)
    requires Inv(c, s) && j in s.reqs && HoldsSlot(s.reqs[j])
    ensures SomeoneMoves(c, s)
  {
    if s.reqs[j].phase.Ready? && !s.lane.Free? {
      SenderMoves(c, s);
    } else {
      var l := if s.reqs[j].phase.Ready? then StartSend(j)
               else if s.reqs[j].phase.Sending? then SendEnds(j, ConnectError) else Onward(s.reqs[j], j);
      assert Enabled(c, s, l) && OwnAction(l);
    }
  }

  lemma UnfinishedMoves(c: Config, s: State, id: Id)
    requires Inv(c, s) && c.limit >= 1 && id in s.reqs && !s.reqs[id].phase.Done?
    ensures SomeoneMoves(c, s)
  {
    if HoldsSlot(s.reqs[id]) {
      HolderMoves(c, s, id);
    } else if s.reqs[id].phase.Queued? && !NobodyElse(s, id) {
      var j :| j in s.reqs && HoldsSlot(s.reqs[j]) && j != id;
      HolderMoves(c, s, j);
    } else {
      if s.reqs[id].phase.Queued? {
        SlotFree(c, s, id);
      }
      var l := if s.reqs[id].phase.Gate? then CheckShared(id) else if s.reqs[id].phase.LocalGate? then CheckLocal(id) else Grant(id);
      assert Enabled(c, s, l) && OwnAction(l);
    }
  }

  /** No deadlock: some request can act by itself exactly when some request is not over. */
  lemma NeverStuck(c: Config, s: State)
    requires Inv(c, s) && c.limit >= 1
    ensures SomeoneMoves(c, s) <==> exists id :: id in s.reqs && !s.reqs[id].phase.Done?
  {
    if id :| id in s.reqs && !s.reqs[id].phase.Done? {
      UnfinishedMoves(c, s, id);
    }
    if l :| Enabled(c, s, l) && OwnAction(l) {
      ActorUnfinished(c, s, l);
    }
  }

  lemma ActorUnfinished(c: Config, s: State, l: Label)
    requires Enabled(c, s, l) && OwnAction(l)
    ensures l.id in s.reqs && !s.reqs[l.id].phase.Done?
  {
  }

  // ---------------------------------------------------------------- everybody ends

  ghost function SumOf(ids: set<Id>, f: Id -> nat): nat {
    if ids == {} then 0 else var x :| x in ids; f(x) + SumOf(ids - {x}, f)
  }

  lemma {:induction false} SumPick(ids: set<Id>, f: Id -> nat, y: Id)
    requires y in ids
    ensures SumOf(ids, f) == f(y) + SumOf(ids - {y}, f)
  {
    var x :| x in ids && SumOf(ids, f) == f(x) + SumOf(ids - {x}, f);
    if x != y {
      SumPick(ids - {x}, f, y);
      SumPick(ids - {y}, f, x);
      assert ids - {x} - {y} == ids - {y} - {x};
    }
  }

  lemma {:induction false} SumLe(ids: set<Id>, f: Id -> nat, g: Id -> nat)
    requires forall x :: x in ids ==> f(x) <= g(x)
    ensures SumOf(ids, f) <= SumOf(ids, g)
  {
    if ids != {} {
      var x :| x in ids;
      SumPick(ids, f, x);
      SumPick(ids, g, x);
      SumLe(ids - {x}, f, g);
    }
  }

  ghost function Ranks(c: Config, s: State): Id -> nat {
    (id: Id) => if Rank(c, s, id) > 0 then Rank(c, s, id) else 0
  }

  /** How much work the requests of a state have in them at most. */
  ghost function Work(c: Config, s: State): nat { SumOf(s.reqs.Keys, Ranks(c, s)) }

  /** The actions of requests in a schedule. */
  ghost function Moves(ls: seq<Label>): nat {
    if ls == [] then 0 else (if ls[0].World? then 0 else 1) + Moves(ls[1..])
  }

  predicate Arrives(l: Label) { l.Arrive? || l.ArriveUnreadable? }

  lemma RankPositive(c: Config, s: State, id: Id)
    requires id in s.reqs && PhaseOk(c, s.reqs[id]) && !s.reqs[id].phase.Done?
    ensures Rank(c, s, id) > 0
  {
  }

  lemma RanksStep(c: Config, s: State, l: Label, id: Id)
    requires id in s.reqs && PhaseOk(c, s.reqs[id]) && Enabled(c, s, l)
    ensures Ranks(c, Apply(c, s, l))(id) <= Ranks(c, s)(id)
    ensures !l.World? && l.id == id ==> Ranks(c, Apply(c, s, l))(id) < Ranks(c, s)(id)
  {
    var t := Apply(c, s, l);
    RankStep(c, s, l, id);
    if !l.World? && l.id == id {
      DoneEffect(c, s, l);
      RankPositive(c, s, id);
    }
    assert Ranks(c, t)(id) == if Rank(c, t, id) > 0 then Rank(c, t, id) else 0;
  }

  /** The sum goes down with one of its terms, if no other goes up. */
  lemma SumDrops(ids: set<Id>, f: Id -> nat, g: Id -> nat, y: Id)
    requires y in ids && f(y) < g(y) && forall x :: x in ids ==> f(x) <= g(x)
    ensures SumOf(ids, f) < SumOf(ids, g)
  {
    SumPick(ids, f, y);
    SumPick(ids, g, y);
    SumLe(ids - {y}, f, g);
  }

  lemma RanksFall(c: Config, s: State, l: Label)
    requires Inv(c, s) && Enabled(c, s, l)
    ensures forall id :: id in s.reqs ==> Ranks(c, Apply(c, s, l))(id) <= Ranks(c, s)(id)
  {
    assert forall id :: id in s.reqs ==> ReqOk(c, s.reqs[id]);
    forall id | id in s.reqs ensures Ranks(c, Apply(c, s, l))(id) <= Ranks(c, s)(id) {
      RanksStep(c, s, l, id);
    }
  }

  lemma SameIds(c: Config, s: State, l: Label)
    requires Enabled(c, s, l) && !Arrives(l)
    ensures Apply(c, s, l).reqs.Keys == s.reqs.Keys && (!l.World? ==> l.id in s.reqs)
  {
    if !l.World? {
      FrameStep(c, s, l);
    }
  }

  lemma WorkStep(c: Config, s: State, l: Label)
    requires Inv(c, s) && Enabled(c, s, l) && !Arrives(l)
    ensures Work(c, Apply(c, s, l)) + (if l.World? then 0 else 1) <= Work(c, s)
  {
    RanksFall(c, s, l);
    SameIds(c, s, l);
    var f, g := Ranks(c, Apply(c, s, l)), Ranks(c, s);
    if l.World? {
      SumLe(s.reqs.Keys, f, g);
    } else {
      assert ReqOk(c, s.reqs[l.id]);
      RanksStep(c, s, l, l.id);
      SumDrops(s.reqs.Keys, f, g, l.id);
    }
  }

  lemma {:induction false} WorkRun(c: Config, s: State, ls: seq<Label>, t: State)
    requires Inv(c, s) && Run(c, s, ls, t) && forall l :: l in ls ==> !Arrives(l)
    ensures Moves(ls) + Work(c, t) <= Work(c, s)
    decreases |ls|
  {
    if ls != [] {
      assert ls[0] in ls && forall l :: l in ls[1..] ==> l in ls;
      WorkStep(c, s, ls[0]);
      InvStep(c, s, ls[0]);
      WorkRun(c, Apply(c, s, ls[0]), ls[1..], t);
    }
  }

  /** Every run without arrivals makes a bounded number of moves, whatever the schedule, and where no
      request can move any more everybody is over. */
  lemma EverybodyEnds(c: Config, s: State, ls: seq<Label>, t: State)
    requires Inv(c, s) && c.limit >= 1 && Run(c, s, ls, t) && forall l :: l in ls ==> !Arrives(l)
    ensures Moves(ls) <= Work(c, s)
    ensures (forall l :: OwnAction(l) ==> !Enabled(c, t, l)) <==> forall id :: id in t.reqs ==> t.reqs[id].phase.Done?
  {
    WorkRun(c, s, ls, t);
    InvRun(c, s, ls, t);
    NeverStuck(c, t);
  }
}
