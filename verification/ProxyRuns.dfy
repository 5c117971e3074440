/** What every schedule of the proxy keeps: the theorems about whole runs. */
module ProxyRuns {
  import opened Proxy

  lemma {:induction false} InvRun(c: Config, s: State, ls: seq<Label>, t: State)
    requires Inv(c, s) && Run(c, s, ls, t)
    ensures Inv(c, t)
    decreases |ls|
  {
    if ls != [] {
      InvStep(c, s, ls[0]);
      InvRun(c, Apply(c, s, ls[0]), ls[1..], t);
    }
  }

  lemma InvReachable(c: Config, s: State)
    requires Reachable(c, s)
    ensures Inv(c, s)
  {
    var ls :| Run(c, INIT, ls, s);
    assert Ids(INIT.reqs, HoldsSlot) == {} && Ids(INIT.reqs, SendsShared) == {} && Ids(INIT.reqs, SendsExclusive) == {};
    InvRun(c, INIT, ls, s);
  }

  lemma {:induction false} RunConcat(c: Config, s: State, a: seq<Label>, t: State, b: seq<Label>, u: State)
    requires Run(c, s, a, t) && Run(c, t, b, u)
    ensures Run(c, s, a + b, u)
    decreases |a|
  {
    if a == [] {
      assert a + b == b;
    } else {
      RunConcat(c, Apply(c, s, a[0]), a[1..], t, b, u);
      assert (a + b)[1..] == a[1..] + b;
    }
  }

  /** Some schedule leads from `s` to `t`. */
  ghost predicate Reaches(c: Config, s: State, t: State) {
    exists ls :: Run(c, s, ls, t)
  }

  lemma ReachesSelf(c: Config, s: State)
    ensures Reaches(c, s, s)
  {
    assert Run(c, s, [], s);
  }

  lemma ReachesOn(c: Config, s: State, t: State, u: State)
    requires Reaches(c, s, t) && Reaches(c, t, u)
    ensures Reaches(c, s, u)
  {
    var a :| Run(c, s, a, t);
    var b :| Run(c, t, b, u);
    RunConcat(c, s, a, t, b, u);
  }

  lemma ReachesOne(c: Config, s: State, l: Label)
    requires Enabled(c, s, l)
    ensures Reaches(c, s, Apply(c, s, l))
  {
    var t := Apply(c, s, l);
    assert Run(c, t, [], t);
    assert Run(c, s, [l], t);
  }

  // ---------------------------------------------------------------- degrade isolation

  /** A request that has crashed the daemon this turn sends alone; sends that overlap have no crashes. */
  lemma DegradeIsolation(c: Config, s: State, a: Id, b: Id)
    requires Reachable(c, s) && Sends(s, a) && Sends(s, b) && a != b
    ensures s.reqs[a].crashes == 0 && s.reqs[b].crashes == 0
  {
    InvReachable(c, s);
    NoExclusiveNeighbour(c, s, a, b);
    NoExclusiveNeighbour(c, s, b, a);
  }

  lemma NoExclusiveNeighbour(c: Config, s: State, a: Id, b: Id)
    requires Inv(c, s) && Sends(s, a) && Sends(s, b) && a != b
    ensures s.reqs[a].crashes == 0
  {
    assert ReqOk(c, s.reqs[a]);
    if SendsExclusive(s.reqs[a]) {
      if SendsExclusive(s.reqs[b]) {
        CountOne(s.reqs, SendsExclusive, a, b);
      } else if s.lane.Exclusive? {
        CountZero(s.reqs, SendsShared, b);
      } else {
        CountZero(s.reqs, SendsExclusive, a);
      }
    }
  }

  // ---------------------------------------------------------------- sole suspect

  ghost function Holders(s: State): set<Id> {
    Ids(s.reqs, HoldsSlot)
  }

  /** When the in-use count lets a suspect through, it is the only request holding an admission slot:
      nobody else is waiting for the window, sending, retrying or streaming. */
  lemma SoleSuspect(c: Config, s: State, id: Id)
    requires Reachable(c, s) && Enabled(c, s, CheckSole(id))
    ensures InPhase(Apply(c, s, CheckSole(id)), id, Confirmed) <==> Holders(s) == {id}
    ensures Holders(s) == {id} ==> forall other :: other in s.reqs && other != id ==>
              s.reqs[other].phase in {Gate, LocalGate, Queued, Done}
  {
    InvReachable(c, s);
    assert id in Holders(s);
    if s.inUse <= 1 {
      forall other | other in Holders(s) ensures other == id {
        CountOne(s.reqs, HoldsSlot, id, other);
      }
    } else {
      assert |{id}| == 1;
    }
    forall other | Holders(s) == {id} && other in s.reqs && other != id
      ensures s.reqs[other].phase in {Gate, LocalGate, Queued, Done}
    {
      assert other !in Holders(s);
    }
  }

  lemma HolderStep(c: Config, s: State, l: Label, j: Id)
    requires Enabled(c, s, l)
    ensures var t := Apply(c, s, l);
            && (j in Holders(t) <==> (j in Holders(s) || l == Grant(j)) && j in t.reqs && !t.reqs[j].phase.Done?)
            && (InPhase(s, j, Done) ==> InPhase(t, j, Done))
            && (j in s.reqs ==> j in t.reqs)
  {
    if !l.World? {
      FrameStep(c, s, l);
      if l.id == j {
        HoldEffect(c, s, l);
        DoneEffect(c, s, l);
      }
    }
  }

  /** Over is over, and only an end or a refusal at the gate brings it about. */
  lemma DoneEffect(c: Config, s: State, l: Label)
    requires Enabled(c, s, l) && !l.World?
    ensures Moved(c, s, l).phase.Done? ==> !HoldsSlot(Moved(c, s, l)) && (Held(s, l.id) ==> Ends(l))
    ensures Ends(l) ==> Moved(c, s, l).phase.Done?
    ensures l.id in s.reqs ==> !s.reqs[l.id].phase.Done?
  {
  }

  lemma {:induction false} HolderAlong(c: Config, s: State, ls: seq<Label>, t: State, j: Id)
    requires Run(c, s, ls, t)
    ensures j in Holders(t) <==> (j in Holders(s) || Grant(j) in ls) && !InPhase(t, j, Done)
    ensures InPhase(s, j, Done) ==> InPhase(t, j, Done)
    ensures j in s.reqs ==> j in t.reqs
    decreases |ls|
  {
    if ls != [] {
      HolderStep(c, s, ls[0], j);
      HolderAlong(c, Apply(c, s, ls[0]), ls[1..], t, j);
      assert ls == [ls[0]] + ls[1..];
    }
  }

  /** The read of `in_use` and the write of the shared set are two actions.  The suspect is still alone
      at the write exactly when every request admitted in between is already over. */
  lemma SoleAtRecord(c: Config, s: State, id: Id, ls: seq<Label>, t: State)
    requires Holders(s) == {id} && Run(c, s, ls, t) && InPhase(t, id, Confirmed)
    ensures Holders(t) == {id} <==> forall j :: Grant(j) in ls && j != id ==> InPhase(t, j, Done)
  {
    forall j ensures j in Holders(t) <==> (j == id || Grant(j) in ls) && !InPhase(t, j, Done) {
      HolderAlong(c, s, ls, t, j);
    }
  }

  // ---------------------------------------------------------------- crash containment

  /** May still add to the crash count of `fp`. */
  ghost function InFlightOf(fp: Fp): Req -> bool {
    (r: Req) => r.fp == fp && (r.phase.Queued? || r.phase.Ready? || r.phase.Sending? || r.phase.Broke? || r.phase.Erred?)
  }

  ghost function InFlight(s: State, fp: Fp): nat {
    Count(s.reqs, InFlightOf(fp))
  }

  ghost predicate Clears(s: State, l: Label, fp: Fp) {
    l.ClearLocal? && l.id in s.reqs && s.reqs[l.id].fp == fp
  }

  /** A run in which no success clears `fp`. */
  ghost predicate RunNoClear(c: Config, s: State, ls: seq<Label>, t: State, fp: Fp)
    decreases |ls|
  {
    if ls == [] then s == t
    else Enabled(c, s, ls[0]) && !Clears(s, ls[0], fp) && RunNoClear(c, Apply(c, s, ls[0]), ls[1..], t, fp)
  }

  ghost function Might(reqs: map<Id, Req>, id: Id, fp: Fp): nat {
    if id in reqs && InFlightOf(fp)(reqs[id]) then 1 else 0
  }

  ghost predicate Own(s: State, l: Label, fp: Fp) { !l.World? && l.id in s.reqs && s.reqs[l.id].fp == fp }

  /** What moves a crash count. */
  lemma CrashEffect(c: Config, s: State, l: Label, fp: Fp)
    requires Enabled(c, s, l)
    ensures CrashCount(Apply(c, s, l), fp) ==
            if l.Bump? && Own(s, l, fp) then CrashCount(s, fp) + 1
            else if l.ClearLocal? && Own(s, l, fp) then 0 else CrashCount(s, fp)
  {
  }

  /** At the threshold nobody new gets past the gate, and a counted crash uses up the request that made it. */
  lemma MightEffect(c: Config, s: State, l: Label, fp: Fp)
    requires Enabled(c, s, l) && CrashCount(s, fp) >= c.poisonMax && !l.World?
    ensures var after := if InFlightOf(fp)(Moved(c, s, l)) then 1 else 0;
            after <= Might(s.reqs, l.id, fp) && (l.Bump? && Own(s, l, fp) ==> after == 0 && Might(s.reqs, l.id, fp) == 1)
  {
  }

  lemma MeasureActor(c: Config, s: State, l: Label, fp: Fp)
    requires Enabled(c, s, l) && !Clears(s, l, fp) && CrashCount(s, fp) >= c.poisonMax && !l.World?
    ensures var t := Apply(c, s, l);
            CrashCount(s, fp) <= CrashCount(t, fp) <= CrashCount(s, fp) + Might(s.reqs, l.id, fp) - Might(t.reqs, l.id, fp)
  {
    CrashEffect(c, s, l, fp);
    MightEffect(c, s, l, fp);
  }

  lemma MeasureStep(c: Config, s: State, l: Label, fp: Fp)
    requires Enabled(c, s, l) && !Clears(s, l, fp) && CrashCount(s, fp) >= c.poisonMax
    ensures var t := Apply(c, s, l);
            CrashCount(s, fp) <= CrashCount(t, fp) && CrashCount(t, fp) + InFlight(t, fp) <= CrashCount(s, fp) + InFlight(s, fp)
  {
    if !l.World? {
      MeasureActor(c, s, l, fp);
      FrameStep(c, s, l);
      CountPut(s.reqs, l.id, Apply(c, s, l).reqs[l.id], InFlightOf(fp));
    }
  }

  /** Once the threshold is reached, crashes plus requests still able to crash never grows. */
  lemma {:induction false} MeasureRun(c: Config, s: State, ls: seq<Label>, t: State, fp: Fp)
    requires RunNoClear(c, s, ls, t, fp) && CrashCount(s, fp) >= c.poisonMax
    ensures CrashCount(t, fp) + InFlight(t, fp) <= CrashCount(s, fp) + InFlight(s, fp)
    decreases |ls|
  {
    if ls != [] {
      MeasureStep(c, s, ls[0], fp);
      MeasureRun(c, Apply(c, s, ls[0]), ls[1..], t, fp);
    }
  }

  /** Containment: `s` is the state in which request `id` is about to bring the count to the threshold. */
  lemma CrashContainment(c: Config, s: State, id: Id, ls: seq<Label>, t: State)
    requires Enabled(c, s, Bump(id)) && CrashCount(s, s.reqs[id].fp) + 1 == c.poisonMax
    requires RunNoClear(c, Apply(c, s, Bump(id)), ls, t, s.reqs[id].fp)
    ensures CrashCount(t, s.reqs[id].fp) <= c.poisonMax - 1 + InFlight(s, s.reqs[id].fp)
  {
    var fp, s' := s.reqs[id].fp, Apply(c, s, Bump(id));
    CountPut(s.reqs, id, s'.reqs[id], InFlightOf(fp));
    MeasureRun(c, s', ls, t, fp);
  }

  // ---------------------------------------------------------------- what moves a count

  lemma {:induction false} FpStays(c: Config, s: State, ls: seq<Label>, t: State, id: Id)
    requires Run(c, s, ls, t) && id in s.reqs
    ensures id in t.reqs && t.reqs[id].fp == s.reqs[id].fp && t.reqs[id].body == s.reqs[id].body
    decreases |ls|
  {
    if ls != [] {
      FpStays(c, Apply(c, s, ls[0]), ls[1..], t, id);
    }
  }

  ghost predicate NobodyBroke(s: State) { forall id :: id in s.reqs ==> !s.reqs[id].phase.Broke? }

  lemma NoBreakStep(c: Config, s: State, l: Label)
    requires Enabled(c, s, l) && NobodyBroke(s) && (l.SendEnds? ==> l.outcome != Broken)
    ensures NobodyBroke(Apply(c, s, l)) && !l.Bump?
  {
  }

  /** Only a send that breaks an established connection can raise a count. */
  lemma {:induction false} NoBreakNoCount(c: Config, s: State, ls: seq<Label>, t: State, fp: Fp)
    requires Run(c, s, ls, t) && NobodyBroke(s)
    requires forall l :: l in ls && l.SendEnds? ==> l.outcome != Broken
    ensures CrashCount(t, fp) <= CrashCount(s, fp)
    decreases |ls|
  {
    if ls != [] {
      assert ls[0] in ls && forall l :: l in ls[1..] ==> l in ls;
      NoBreakStep(c, s, ls[0]);
      CrashEffect(c, s, ls[0], fp);
      NoBreakNoCount(c, Apply(c, s, ls[0]), ls[1..], t, fp);
    }
  }

  // ---------------------------------------------------------------- replay discipline

  /** Every request of every reachable state: the budget, one body, one reply. */
  lemma ReplayDiscipline(c: Config, s: State, id: Id)
    requires Reachable(c, s) && id in s.reqs
    ensures var r := s.reqs[id];
            && |r.sent| <= Budget(c)
            && (forall i :: 0 <= i < |r.sent| ==> r.sent[i] == r.body)
            && |r.replies| <= 1
            && (forall x :: x in r.replies && (x == Passed(429) || x == BadGateway) ==> |r.sent| == Budget(c))
  {
    InvReachable(c, s);
    assert ReqOk(c, s.reqs[id]);
  }

  lemma RepliedStep(c: Config, s: State, l: Label, id: Id)
    requires Enabled(c, s, l) && id in s.reqs && ReqOk(c, s.reqs[id]) && s.reqs[id].replies != []
    ensures var t := Apply(c, s, l);
            id in t.reqs && t.reqs[id].sent == s.reqs[id].sent && t.reqs[id].replies == s.reqs[id].replies
  {
    if !l.World? {
      FrameStep(c, s, l);
    }
  }

  /** Nothing is sent, and nothing more is replied, after the reply. */
  lemma {:induction false} NothingAfterReply(c: Config, s: State, ls: seq<Label>, t: State, id: Id)
    requires Run(c, s, ls, t) && Inv(c, s) && id in s.reqs && s.reqs[id].replies != []
    ensures id in t.reqs && t.reqs[id].sent == s.reqs[id].sent && t.reqs[id].replies == s.reqs[id].replies
    decreases |ls|
  {
    if ls != [] {
      RepliedStep(c, s, ls[0], id);
      InvStep(c, s, ls[0]);
      NothingAfterReply(c, Apply(c, s, ls[0]), ls[1..], t, id);
    }
  }

  lemma AnsweredStep(c: Config, s: State, l: Label, id: Id)
    requires Enabled(c, s, l) && l != Cancel(id)
    requires id in s.reqs ==> RepliesOk(c, s.reqs[id]) && (s.reqs[id].phase.Done? ==> |s.reqs[id].replies| == 1)
    ensures InPhase(Apply(c, s, l), id, Done) ==> |Apply(c, s, l).reqs[id].replies| == 1
  {
    if !l.World? {
      FrameStep(c, s, l);
    }
  }

  /** A request that is over has been answered once, unless its client hung up. */
  lemma {:induction false} AnsweredUnlessCancelled(c: Config, s: State, ls: seq<Label>, t: State, id: Id)
    requires Run(c, s, ls, t) && Inv(c, s) && Cancel(id) !in ls
    requires InPhase(s, id, Done) ==> |s.reqs[id].replies| == 1
    ensures InPhase(t, id, Done) ==> |t.reqs[id].replies| == 1
    decreases |ls|
  {
    if ls != [] {
      assert ls[0] in ls && forall l :: l in ls[1..] ==> l in ls;
      assert id in s.reqs ==> ReqOk(c, s.reqs[id]);
      AnsweredStep(c, s, ls[0], id);
      InvStep(c, s, ls[0]);
      AnsweredUnlessCancelled(c, Apply(c, s, ls[0]), ls[1..], t, id);
    }
  }

  ghost function PhaseRank(p: Phase): nat {
    match p
    case Gate => 13
    case LocalGate => 12
    case Queued => 11
    case Ready => 10
    case Sending(_) => 13
    case Broke => 12
    case Erred => 11
    case Suspect => 9
    case Confirmed => 8
    case Recording(_) => 7
    case Clearing(_) => 6
    case ClearingShared(_) => 5
    case Erasing(_, _) => 4
    case Streaming => 3
    case Leaving => 2
    case Done => 0
  }

  ghost function Rank(c: Config, s: State, id: Id): int {
    if id !in s.reqs then 14 * Budget(c) + 14
    else 14 * (Budget(c) - s.reqs[id].attempts) + PhaseRank(s.reqs[id].phase)
  }

  ghost function OwnSteps(ls: seq<Label>, id: Id): nat {
    if ls == [] then 0 else (if !ls[0].World? && ls[0].id == id then 1 else 0) + OwnSteps(ls[1..], id)
  }

  lemma RankStep(c: Config, s: State, l: Label, id: Id)
    requires Enabled(c, s, l) && (id in s.reqs ==> PhaseOk(c, s.reqs[id]))
    ensures var t := Apply(c, s, l);
            Rank(c, t, id) <= Rank(c, s, id) - (if !l.World? && l.id == id then 1 else 0)
  {
    if !l.World? {
      FrameStep(c, s, l);
    }
  }

  /** Under every schedule a request ends after a bounded number of its own actions. */
  lemma {:induction false} RequestsEnd(c: Config, s: State, ls: seq<Label>, t: State, id: Id)
    requires Inv(c, s) && Run(c, s, ls, t)
    ensures OwnSteps(ls, id) <= Rank(c, s, id)
    decreases |ls|
  {
    if ls == [] {
      if id in s.reqs {
        assert ReqOk(c, s.reqs[id]);
      }
    } else {
      RankStep(c, s, ls[0], id);
      InvStep(c, s, ls[0]);
      RequestsEnd(c, Apply(c, s, ls[0]), ls[1..], t, id);
    }
  }
}
