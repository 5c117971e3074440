/** Why a request is answered as it is: the replies of every run against what the sends met. */
module ProxyAnswers {
  import opened Proxy
  import opened ProxyRuns
  import opened SeqFacts

  /** What the sends of `id` came back with, in order. */
  ghost function Outcomes(ls: seq<Label>, id: Id): seq<Outcome> {
    if ls == [] then []
    else (if ls[0].SendEnds? && ls[0].id == id then [ls[0].outcome] else []) + Outcomes(ls[1..], id)
  }

  ghost function Breaks(os: seq<Outcome>): nat {
    if os == [] then 0 else Breaks(os[..|os| - 1]) + if os[|os| - 1] == Broken then 1 else 0
  }

  /** May be followed by another send: backpressure, or no response at all. */
  predicate Again(o: Outcome) { o == Headers(429) || o == ConnectError || o == Broken }

  ghost predicate Ended(os: seq<Outcome>, o: Outcome) { os != [] && os[|os| - 1] == o }

  ghost predicate Failed(os: seq<Outcome>) { Ended(os, ConnectError) || Ended(os, Broken) }

  /** A reply says what the last send met: the daemon's own status, no answer, or a crash; a request that
      was never sent is refused at the gate or was not readable. */
  ghost predicate Says(reply: Reply, os: seq<Outcome>) {
    match reply
    case Passed(status) => Ended(os, Headers(status))
    case BadGateway => Failed(os)
    case Refused => os == [] || Ended(os, Broken)
    case BadBody => os == []
  }

  /** Where a request stands after those outcomes. */
  ghost predicate Stands(p: Phase, os: seq<Outcome>) {
    match p
    case Gate | LocalGate | Queued => os == []
    case Ready | Sending(_) => os == [] || Again(os[|os| - 1])
    case Broke | Suspect | Confirmed | Recording(_) => Ended(os, Broken)
    case Erred => Failed(os)
    case Clearing(status) => Ended(os, Headers(status))
    case ClearingShared(status) => Ended(os, Headers(status))
    case Erasing(status, _) => Ended(os, Headers(status))
    case Streaming | Leaving | Done => true
  }

  /** Every send but the last was worth another, crashes are the broken ones, and the phase fits. */
  ghost predicate Fits(os: seq<Outcome>, r: Req) {
    && (forall k :: 0 <= k < |os| - 1 ==> Again(os[k]))
    && |os| <= |r.sent| <= |os| + 1
    && (r.phase.Sending? ==> |r.sent| == |os| + 1)
    && (!r.phase.Sending? && (!r.phase.Done? || r.replies != []) ==> |r.sent| == |os|)
    && r.crashes == Breaks(os)
    && Stands(r.phase, os)
  }

  /** And so does the reply. */
  ghost predicate Explains(os: seq<Outcome>, r: Req) {
    Fits(os, r) && forall x :: x in r.replies ==> Says(x, os)
  }

  ghost predicate Accounted(s: State, id: Id, os: seq<Outcome>) {
    if id in s.reqs then Explains(os, s.reqs[id]) else os == []
  }

  lemma SendExplained(c: Config, r: Req, o: Outcome, os: seq<Outcome>)
    requires r.phase.Sending? && Explains(os, r) && r.replies == []
    ensures Explains(os + [o], AfterSend(c, r, o))
  {
    var longer := os + [o];
    assert longer[..|longer| - 1] == os;
  }

  lemma OwnFits(c: Config, s: State, l: Label, os: seq<Outcome>)
    requires Enabled(c, s, l) && !l.World? && !l.SendEnds? && Accounted(s, l.id, os)
    requires l.id in s.reqs ==> RepliesOk(c, s.reqs[l.id])
    ensures Fits(os, Moved(c, s, l))
  {
  }

  lemma OwnSays(c: Config, s: State, l: Label, os: seq<Outcome>)
    requires Enabled(c, s, l) && !l.World? && !l.SendEnds? && Accounted(s, l.id, os)
    ensures forall x :: x in Moved(c, s, l).replies ==> Says(x, os)
  {
  }

  lemma AccountedStep(c: Config, s: State, l: Label, id: Id, os: seq<Outcome>)
    requires Inv(c, s) && Enabled(c, s, l) && Accounted(s, id, os)
    ensures Accounted(Apply(c, s, l), id, os + Outcomes([l], id))
  {
    assert Outcomes([l][1..], id) == [] && os + [] == os;
    if !l.World? && l.id == id {
      assert id in s.reqs ==> ReqOk(c, s.reqs[id]);
      if l.SendEnds? {
        SendExplained(c, s.reqs[id], l.outcome, os);
        assert Outcomes([l], id) == [l.outcome];
      } else {
        OwnFits(c, s, l, os);
        OwnSays(c, s, l, os);
      }
    }
  }

  lemma FirstThenRest(ls: seq<Label>, id: Id, os: seq<Outcome>)
    requires ls != []
    ensures os + Outcomes([ls[0]], id) + Outcomes(ls[1..], id) == os + Outcomes(ls, id)
  {
    assert [ls[0]][1..] == [];
    Assoc(os, Outcomes([ls[0]], id), Outcomes(ls[1..], id));
  }

  lemma {:induction false} AccountedRun(c: Config, s: State, ls: seq<Label>, t: State, id: Id, os: seq<Outcome>)
    requires Inv(c, s) && Run(c, s, ls, t) && Accounted(s, id, os)
    ensures Accounted(t, id, os + Outcomes(ls, id))
    decreases |ls|
  {
    if ls == [] {
      assert os + [] == os;
    } else {
      AccountedStep(c, s, ls[0], id, os);
      InvStep(c, s, ls[0]);
      AccountedRun(c, Apply(c, s, ls[0]), ls[1..], t, id, os + Outcomes([ls[0]], id));
      FirstThenRest(ls, id, os);
    }
  }

  lemma FromStart(c: Config, ls: seq<Label>, t: State, id: Id)
    requires Run(c, INIT, ls, t)
    ensures Accounted(t, id, Outcomes(ls, id))
  {
    assert Run(c, INIT, [], INIT);
    InvReachable(c, INIT);
    AccountedRun(c, INIT, ls, t, id, []);
    assert [] + Outcomes(ls, id) == Outcomes(ls, id);
  }

  /** In every run: an answered request has been passed a status if and only if its last send met exactly
      that one; otherwise that send failed, or there was none.  Only backpressure and failures are sent
      again, and each broken connection is one crash. */
  lemma AnsweredAsMet(c: Config, ls: seq<Label>, t: State, id: Id)
    requires Run(c, INIT, ls, t) && id in t.reqs
    ensures var os, r := Outcomes(ls, id), t.reqs[id];
            && (forall k :: 0 <= k < |os| - 1 ==> os[k] in {Headers(429), ConnectError, Broken})
            && r.crashes == Breaks(os)
            && (r.replies != [] ==>
                  && |os| == |r.sent|
                  && (forall status :: r.replies == [Passed(status)] <==> os != [] && os[|os| - 1] == Headers(status))
                  && (r.replies == [BadGateway] ==> os != [] && os[|os| - 1] in {ConnectError, Broken})
                  && (r.replies == [Refused] ==> os == [] || os[|os| - 1] == Broken)
                  && (r.replies == [BadBody] ==> os == []))
  {
    InvReachable(c, t);
    assert ReqOk(c, t.reqs[id]);
    FromStart(c, ls, t, id);
    var os, r := Outcomes(ls, id), t.reqs[id];
    if r.replies != [] {
      assert r.replies == [r.replies[0]] && Says(r.replies[0], os);
    }
  }

  // ---------------------------------------------------------------- what clears a count

  /** A count falls only by a request whose last send met a status from 200 to 299. */
  lemma FallsOnSuccess(c: Config, ls: seq<Label>, s: State, l: Label, fp: Fp)
    requires Run(c, INIT, ls, s) && Enabled(c, s, l) && CrashCount(Apply(c, s, l), fp) < CrashCount(s, fp)
    ensures !l.World? && l.id in s.reqs && s.reqs[l.id].fp == fp
    ensures exists status :: 200 <= status < 300 && Ended(Outcomes(ls, l.id), Headers(status))
  {
    CrashEffect(c, s, l, fp);
    InvReachable(c, s);
    assert ReqOk(c, s.reqs[l.id]);
    FromStart(c, ls, s, l.id);
  }

  /** Somewhere along the schedule the count is zero. */
  ghost predicate Zeroed(c: Config, s: State, ls: seq<Label>, fp: Fp)
    decreases |ls|
  {
    CrashCount(s, fp) == 0 || (ls != [] && Enabled(c, s, ls[0]) && Zeroed(c, Apply(c, s, ls[0]), ls[1..], fp))
  }

  lemma ClearingStays(c: Config, s: State, l: Label, id: Id, status: nat)
    requires InPhase(s, id, Clearing(status)) && Enabled(c, s, l)
    ensures var t := Apply(c, s, l);
            && id in t.reqs && t.reqs[id].fp == s.reqs[id].fp
            && (InPhase(t, id, Clearing(status)) || CrashCount(t, s.reqs[id].fp) == 0)
  {
  }

  lemma {:induction false} ClearingClears(c: Config, s: State, id: Id, status: nat, ls: seq<Label>, t: State)
    requires InPhase(s, id, Clearing(status)) && Run(c, s, ls, t)
    ensures InPhase(t, id, Clearing(status)) || Zeroed(c, s, ls, s.reqs[id].fp)
    decreases |ls|
  {
    if ls != [] {
      ClearingStays(c, s, ls[0], id, status);
      var s' := Apply(c, s, ls[0]);
      if InPhase(s', id, Clearing(status)) {
        ClearingClears(c, s', id, status, ls[1..], t);
      } else {
        assert Zeroed(c, s', ls[1..], s.reqs[id].fp);
      }
    }
  }

  /** And every such status clears it: under every schedule the request is still about to, or the count
      has been zero. */
  lemma SuccessClears(c: Config, s: State, id: Id, status: nat, ls: seq<Label>, t: State)
    requires Enabled(c, s, SendEnds(id, Headers(status))) && 200 <= status < 300
    requires Run(c, Apply(c, s, SendEnds(id, Headers(status))), ls, t)
    ensures InPhase(t, id, Clearing(status)) || Zeroed(c, Apply(c, s, SendEnds(id, Headers(status))), ls, s.reqs[id].fp)
  {
    ClearingClears(c, Apply(c, s, SendEnds(id, Headers(status))), id, status, ls, t);
  }
}
