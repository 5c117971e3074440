/** The retry loop of `forward` as code over the proxy's shared fields, proved to be one thread of the
    transition system: whatever the other requests do between its actions, its actions are labels of
    a run, so every theorem about runs is a theorem about this code. */
module ProxyForward {
  import opened Wrappers
  import opened Proxy
  import opened ProxyRuns

  /** A request that has just gone into its next send. */
  function Started(r: Req): Req {
    r.(phase := Sending(r.crashes > 0), attempts := r.attempts + 1, sent := r.sent + [r.body])
  }

  /** What a send that met `o` leads to: a status is the daemon's own, a connection failure follows an
      error and a refusal a crash; no reply means another send, after backpressure or an error. */
  ghost predicate Meets(o: Outcome, reply: Option<Reply>) {
    match reply
    case Some(Passed(status)) => o == Headers(status)
    case Some(BadGateway) => o == ConnectError || o == Broken
    case Some(Refused) => o == Broken
    case Some(BadBody) => false
    case None => o == Headers(429) || o == ConnectError || o == Broken
  }

  /** The reply is what the last of `n` sends met, and every send before it was worth another one; a request
      that was never sent was not readable, is refused at the gate or still waits. */
  ghost predicate Answers(outcome: nat -> Outcome, n: nat, reply: Option<Reply>) {
    && (forall k :: 1 <= k < n ==> Meets(outcome(k), None))
    && if n == 0 then reply in {None, Some(BadBody), Some(Refused)} else Meets(outcome(n), reply)
  }

  lemma AnswersNext(outcome: nat -> Outcome, n: nat, reply: Option<Reply>)
    requires Answers(outcome, n, None) && Meets(outcome(n + 1), reply)
    ensures Answers(outcome, n + 1, reply)
  {
  }

  class ProxyState {
    const cfg: Config
    var poison: map<Fp, nat>
    var shared: map<Fp, nat>
    var now: nat
    var lane: Lane
    var inUse: nat
    var general: nat
    ghost var outside: nat         // what other clients of the daemon are sending
    ghost var abandoned: nat       // what the daemon goes on with after a client has hung up
    ghost var reqs: map<Id, Req>   // where each request stands
    ghost var trace: seq<Label>    // the schedule so far

    ghost function Abs(): State
      reads this
    {
      State(reqs, poison, shared, now, lane, inUse, general, outside, abandoned)
    }

    ghost predicate Valid()
      reads this
    {
      Run(cfg, INIT, trace, Abs())
    }

    constructor (cfg: Config)
      ensures Valid() && this.cfg == cfg && reqs == map[] && trace == []
    {
      this.cfg := cfg;
      poison, shared, now, lane, inUse, general := map[], map[], 0, Free, 0, 0;
      outside, abandoned, reqs, trace := 0, 0, map[], [];
    }

    /** The fields already hold the effect of `l` on `before`; append it to the schedule. */
    ghost method Commit(l: Label, before: State)
      requires Run(cfg, INIT, trace, before) && Enabled(cfg, before, l)
      requires reqs == before.reqs && Abs() == Apply(cfg, before, l).(reqs := reqs)
      modifies this`reqs, this`trace
      ensures Valid() && Abs() == Apply(cfg, before, l) && trace == old(trace) + [l]
    {
      var after := Apply(cfg, before, l);
      assert Run(cfg, before, [l], after);
      RunConcat(cfg, INIT, trace, before, [l], after);
      reqs, trace := after.reqs, trace + [l];
    }

    /** Any number of actions of the other requests and of other processes. */
    method Yield(ghost id: Id)
      requires Valid() && id in reqs
      modifies this
      ensures Valid() && id in reqs && reqs[id] == old(reqs[id])
      ensures old(trace) <= trace
      ensures forall k :: |old(trace)| <= k < |trace| ==> trace[k].World? || trace[k].id != id
    {
    }

    method PoisonCount(fp: Fp) returns (n: nat)
      ensures n == CrashCount(Abs(), fp)
    {
      n := if fp in poison then poison[fp] else 0;
    }

    method BumpPoison(ghost id: Id, fp: Fp) returns (total: nat)
      requires Valid() && InPhase(Abs(), id, Broke) && reqs[id].fp == fp
      modifies this
      ensures Valid() && old(trace) < trace && id in reqs
      ensures total == CrashCount(Abs(), fp) == old(CrashCount(Abs(), fp)) + 1
      ensures reqs[id] == old(reqs[id]).(phase := if total >= cfg.poisonMax then Suspect else Erred)
    {
      ghost var before := Abs();
      total := PoisonCount(fp);
      total := total + 1;
      poison := poison[fp := total];
      Commit(Bump(id), before);
    }

    /** A clean success decays the fingerprint locally, then machine-wide. */
    method ClearPoison(ghost id: Id, fp: Fp)
      requires Valid() && id in reqs && reqs[id].phase.Clearing? && reqs[id].fp == fp
      modifies this
      ensures Valid() && old(trace) < trace
      ensures id in reqs && reqs[id] ==
        old(reqs[id]).(phase := Streaming, replies := old(reqs[id].replies) + [Passed(old(reqs[id].phase.status))])
    {
      ghost var before := Abs();
      poison := poison - {fp};
      Commit(ClearLocal(id), before);
      Yield(id);
      before := Abs();
      var kept := shared - {fp};
      var found := fp in shared;
      Commit(ClearShared(id), before);
      if found {
        Yield(id);
        WriteBack(id, kept);
      }
    }

    method DropSlot(ghost id: Id, body: Body)
      requires Valid() && InPhase(Abs(), id, Leaving) && reqs[id].body == body
      modifies this
      ensures Valid() && old(trace) < trace
      ensures InPhase(Abs(), id, Done) && reqs[id] == old(reqs[id]).(phase := Done)
    {
      Yield(id);
      ghost var before := Abs();
      inUse := Less(inUse);
      if !IsFast(cfg, body) { general := Less(general); }
      Commit(Drop(id), before);
    }

    /** Reads the machine-wide set: what is still alive in it, and the new entry. */
    method ReadForRecord(ghost id: Id, fp: Fp) returns (kept: map<Fp, nat>)
      requires Valid() && InPhase(Abs(), id, Confirmed) && reqs[id].fp == fp
      modifies this
      ensures Valid() && old(trace) < trace && id in reqs && kept == Alive(cfg, old(shared), old(now))[fp := old(now)]
      ensures reqs[id] == old(reqs[id]).(phase := Recording(kept))
    {
      ghost var before := Abs();
      kept := Alive(cfg, shared, now)[fp := now];
      Commit(Record(id), before);
    }

    /** Renames the new file over the old one: whatever was written in between is gone. */
    method WriteBack(ghost id: Id, kept: map<Fp, nat>)
      requires Valid() && Writes(Abs(), id) && reqs[id].phase.kept == kept
      modifies this
      ensures Valid() && old(trace) < trace && id in reqs && shared == kept
      ensures var r := old(reqs[id]);
              reqs[id] == if r.phase.Recording? then r.(phase := Leaving, replies := r.replies + [Refused])
                          else Proxy.Commit(r, r.phase.status)
    {
      ghost var before := Abs();
      shared := kept;
      Commit(WriteShared(id), before);
    }

    method RecordPoison(ghost id: Id, fp: Fp)
      requires Valid() && InPhase(Abs(), id, Confirmed) && reqs[id].fp == fp
      modifies this
      ensures Valid() && old(trace) < trace && id in reqs && shared == Alive(cfg, old(shared), old(now))[fp := old(now)]
      // the new entry, and of the others those that are younger than the time to live, or from the future
      ensures fp in shared && shared[fp] == old(now)
      ensures forall f :: f in shared && f != fp ==> f in old(shared) && shared[f] == old(shared)[f]
      ensures forall f :: f in old(shared) && f != fp ==> (f in shared <==> cfg.ttl > 0 && old(shared)[f] + cfg.ttl > old(now))
      ensures reqs[id] == old(reqs[id]).(phase := Leaving, replies := old(reqs[id].replies) + [Refused])
    {
      var kept := ReadForRecord(id, fp);
      Yield(id);
      WriteBack(id, kept);
    }

    /** The crash count reached the threshold: confirm machine-wide if alone, and refuse either way. */
    method Refuse(ghost id: Id, fp: Fp, body: Body)
      requires Valid() && InPhase(Abs(), id, Suspect) && reqs[id].fp == fp && reqs[id].body == body
      modifies this
      ensures Valid() && old(trace) < trace
      ensures InPhase(Abs(), id, Done)
      ensures reqs[id] == old(reqs[id]).(phase := Done, replies := old(reqs[id].replies) + [Refused])
    {
      Yield(id);
      ghost var before := Abs();
      var sole := inUse <= 1;
      Commit(CheckSole(id), before);
      if sole {
        Yield(id);
        RecordPoison(id, fp);
      }
      DropSlot(id, body);
    }

    /** The gate; `true` lets the request through to the admission queue. */
    method PassGate(ghost id: Id, fp: Fp) returns (pass: bool)
      requires Valid() && InPhase(Abs(), id, Gate) && reqs[id].fp == fp
      modifies this
      ensures Valid() && old(trace) < trace && id in reqs
      ensures reqs[id] == if pass then old(reqs[id]).(phase := Queued)
                          else old(reqs[id]).(phase := Done, replies := old(reqs[id].replies) + [Refused])
    {
      ghost var before := Abs();
      var poisoned := fp in shared && Lives(cfg, shared[fp], now);
      Commit(CheckShared(id), before);
      if poisoned { return false; }
      Yield(id);
      var n := PoisonCount(fp);
      before := Abs();
      Commit(CheckLocal(id), before);
      pass := n < cfg.poisonMax;
    }

    /** The request waits for a slot or for the lane, and cannot have it now. */
    ghost predicate Blocked(id: Id)
      reads this
    {
      || (InPhase(Abs(), id, Queued) && !Enabled(cfg, Abs(), Grant(id)))
      || (InPhase(Abs(), id, Ready) && !Enabled(cfg, Abs(), StartSend(id)))
    }

    /** Takes the lane, shared or exclusive, or finds it taken. */
    method TakeLaneFor(ghost id: Id, crashes: nat) returns (taken: bool)
      requires Valid() && InPhase(Abs(), id, Ready) && reqs[id].crashes == crashes
      modifies this
      ensures Valid() && old(trace) <= trace && id in reqs
      ensures if taken then reqs[id] == Started(old(reqs[id])) else reqs[id] == old(reqs[id]) && Blocked(id)
    {
      if (crashes > 0 && !lane.Free?) || lane.Exclusive? { return false; }
      ghost var before := Abs();
      lane := TakeLane(lane, crashes > 0);
      Commit(StartSend(id), before);
      taken := true;
    }

    /** The send comes back with `o`, and the lane is free again. */
    method EndSend(ghost id: Id, o: Outcome)
      requires Valid() && Sends(Abs(), id)
      modifies this
      ensures Valid() && old(trace) <= trace && id in reqs && reqs[id] == AfterSend(cfg, old(reqs[id]), o)
    {
      ghost var before := Abs();
      lane := DropLane(lane);
      Commit(SendEnds(id, o), before);
    }

    /** One pass of the loop up to the end of the send; `false` means it is still waiting for the lane. */
    method SendOnce(ghost id: Id, crashes: nat, o: Outcome) returns (sent: bool)
      requires Valid() && InPhase(Abs(), id, Ready) && reqs[id].crashes == crashes
      modifies this
      ensures Valid() && old(trace) <= trace && id in reqs && (!sent ==> Blocked(id))
      ensures reqs[id] == if sent then AfterSend(cfg, Started(old(reqs[id])), o) else old(reqs[id])
      // the daemon's own status is what will be answered, once, and a broken connection is one crash
      ensures sent ==>
        var r, r' := Started(old(reqs[id])), reqs[id];
        match o
        case Headers(status) =>
          if status == 429 && r.attempts < cfg.maxAttempts then r' == r.(phase := Ready)
          else if 200 <= status < 300 then r' == r.(phase := Clearing(status))
          else r' == r.(phase := Streaming, replies := r.replies + [Passed(status)])
        case ConnectError => r' == r.(phase := Erred)
        case Broken => r' == r.(phase := Broke, crashes := crashes + 1)
    {
      sent := TakeLaneFor(id, crashes);
      if sent {
        Yield(id);
        EndSend(id, o);
      }
    }

    /** The admission gate; a request that does not fit stays parked. */
    method TakeSlot(ghost id: Id, body: Body) returns (admitted: bool)
      requires Valid() && InPhase(Abs(), id, Queued) && reqs[id].body == body
      modifies this
      ensures Valid() && old(trace) <= trace && id in reqs
      ensures if admitted then reqs[id] == old(reqs[id]).(phase := Ready) else reqs[id] == old(reqs[id]) && Blocked(id)
    {
      var isFast := IsFast(cfg, body);
      if inUse >= cfg.limit || (!isFast && general >= GeneralCap(cfg)) { return false; }
      ghost var before := Abs();
      inUse := inUse + 1;
      if !isFast { general := general + 1; }
      Commit(Grant(id), before);
      admitted := true;
    }

    /** `forward`: `outcome(n)` is what the n-th send meets.  No reply means that the request is still
        parked, waiting for a slot or for the lane. */
    method Forward(ghost id: Id, body: Body, readable: bool, outcome: nat -> Outcome)
      returns (reply: Option<Reply>)
      requires Valid() && id !in reqs
      modifies this
      ensures Valid() && old(trace) <= trace && id in reqs && reqs[id].fp == cfg.fingerprint(body) && reqs[id].body == body
      ensures reply.Some? ==> reqs[id].replies == [reply.value] && (reqs[id].phase.Done? || reqs[id].phase.Streaming?)
      ensures reply.None? ==> reqs[id].replies == [] && Blocked(id)
      ensures reply == Some(Passed(429)) || reply == Some(BadGateway) ==> |reqs[id].sent| == Budget(cfg)
      ensures !readable <==> reply == Some(BadBody)
      ensures Answers(outcome, |reqs[id].sent|, reply)
    {
      ghost var before := Abs();
      if !readable {
        Commit(ArriveUnreadable(id, body), before);
        return Some(BadBody);
      }
      Commit(Arrive(id, body), before);
      var fp := cfg.fingerprint(body);
      var pass := PassGate(id, fp);
      if !pass { return Some(Refused); }
      Yield(id);
      var admitted := TakeSlot(id, body);
      if !admitted { return None; }
      reply := RetryLoop(id, fp, body, outcome);
    }

    /** A failed send: count the crash if the connection was up, then refuse, give up or go round again. */
    method AfterFailure(ghost id: Id, fp: Fp, body: Body, broken: bool, attempt: nat) returns (reply: Option<Reply>)
      requires Valid() && InPhase(Abs(), id, if broken then Broke else Erred)
      requires reqs[id].fp == fp && reqs[id].body == body && reqs[id].attempts == attempt && reqs[id].replies == []
      modifies this
      ensures Valid() && old(trace) <= trace && id in reqs
      ensures reply.Some? ==> reqs[id] == old(reqs[id]).(phase := Done, replies := [reply.value])
      ensures reply.None? ==> reqs[id] == old(reqs[id]).(phase := Ready) && attempt < cfg.maxAttempts
      ensures reply == Some(BadGateway) ==> attempt >= cfg.maxAttempts
      ensures reply.Some? ==> reply.value == BadGateway || (reply.value == Refused && broken)
    {
      if broken {
        Yield(id);
        var total := BumpPoison(id, fp);
        if total >= cfg.poisonMax {
          Refuse(id, fp, body);
          return Some(Refused);
        }
      }
      reply := GiveUpOrRetry(id, body, attempt);
    }

    /** After a failure that does not refuse the request: the budget decides. */
    method GiveUpOrRetry(ghost id: Id, body: Body, attempt: nat) returns (reply: Option<Reply>)
      requires Valid() && InPhase(Abs(), id, Erred)
      requires reqs[id].body == body && reqs[id].attempts == attempt && reqs[id].replies == []
      modifies this
      ensures Valid() && old(trace) <= trace && id in reqs
      ensures reply == if attempt < cfg.maxAttempts then None else Some(BadGateway)
      ensures reqs[id] == if reply.None? then old(reqs[id]).(phase := Ready) else old(reqs[id]).(phase := Done, replies := [BadGateway])
    {
      ghost var before := Abs();
      Commit(Retry(id), before);
      if attempt < cfg.maxAttempts { return None; }
      DropSlot(id, body);
      reply := Some(BadGateway);
    }

    /** At the top of the loop, with so many attempts and crashes behind it. */
    ghost predicate AtTop(id: Id, fp: Fp, body: Body, attempt: nat, crashes: nat)
      reads this
    {
      id in reqs && reqs[id] == Req(fp, body, Ready, attempt, crashes, reqs[id].sent, []) && |reqs[id].sent| == attempt < Budget(cfg)
    }

    /** One turn of the loop: a send, and what is made of its outcome.  A request that goes round again has
        budget left and met backpressure or an error; one that ends is answered with what it met. */
    method OneTurn(ghost id: Id, fp: Fp, body: Body, attempt: nat, crashes: nat, o: Outcome) returns (sent: bool, reply: Option<Reply>)
      requires Valid() && AtTop(id, fp, body, attempt, crashes)
      modifies this
      ensures Valid() && old(trace) <= trace && id in reqs && reqs[id].fp == fp && reqs[id].body == body
      ensures if sent then |reqs[id].sent| == attempt + 1 else reqs[id] == old(reqs[id]) && Blocked(id) && reply.None?
      ensures sent && reply.None? ==> AtTop(id, fp, body, attempt + 1, if o.Broken? then crashes + 1 else crashes)
      ensures reply.Some? ==> reqs[id].replies == [reply.value] && (reqs[id].phase.Done? || reqs[id].phase.Streaming?)
      ensures reply == Some(Passed(429)) || reply == Some(BadGateway) ==> attempt + 1 == Budget(cfg)
      ensures sent ==> Meets(o, reply)
    {
      reply := None;
      sent := SendOnce(id, crashes, o);
      if !sent { return; }
      var attempt' := attempt + 1;
      if o.Headers? {
        if o.status == 429 && attempt' < cfg.maxAttempts { return; }
        if IsSuccess(o.status) { ClearPoison(id, fp); }
        return sent, Some(Passed(o.status));
      }
      reply := AfterFailure(id, fp, body, o.Broken?, attempt');
    }

    method RetryLoop(ghost id: Id, fp: Fp, body: Body, outcome: nat -> Outcome) returns (reply: Option<Reply>)
      requires Valid() && id in reqs && reqs[id] == Req(fp, body, Ready, 0, 0, [], [])
      modifies this
      ensures Valid() && old(trace) <= trace && id in reqs && reqs[id].fp == fp && reqs[id].body == body
      ensures reply.Some? ==> reqs[id].replies == [reply.value] && (reqs[id].phase.Done? || reqs[id].phase.Streaming?)
      ensures reply.None? ==> reqs[id].replies == [] && Blocked(id)
      ensures reply == Some(Passed(429)) || reply == Some(BadGateway) ==> |reqs[id].sent| == Budget(cfg)
      ensures reply != Some(BadBody) && Answers(outcome, |reqs[id].sent|, reply)
    {
      var attempt, crashes := 0, 0;
      while true
        invariant Valid() && old(trace) <= trace && AtTop(id, fp, body, attempt, crashes) && Answers(outcome, attempt, None)
        decreases Budget(cfg) - attempt
      {
        Yield(id);
        var o := outcome(attempt + 1);
        var sent;
        sent, reply := OneTurn(id, fp, body, attempt, crashes, o);
        if !sent { return; }
        AnswersNext(outcome, attempt, reply);
        if reply.Some? { return; }
        attempt := attempt + 1;
        if o.Broken? { crashes := crashes + 1; }
      }
    }
  }
}
