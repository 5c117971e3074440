/** The launch-local proxy as a transition system.

    Many requests run `forward` at once.  Every label below is one indivisible action of one
    request (a lock acquisition, a shared-file access, the end of a send), so a run of the system is
    a list of labels in any order the scheduler picks, and every property holds for all of them. */
module Proxy {

  type Id = nat
  type Fp = nat      // the 64-bit fingerprint of a request body
  type Body = string

  /** `alone` says that there is no other launch on the machine: nobody else uses the daemon or writes the
      poison set.  `drops` says that the daemon stops working on a request as soon as its client is gone.
      `fingerprint` is the hash of a body. */
  datatype Config = Config(maxAttempts: nat, poisonMax: nat, ttl: nat, limit: nat, fastlane: nat, alone: bool, drops: bool,
                           fingerprint: Body -> Fp)

  /** What one send to the daemon comes back with. */
  datatype Outcome =
    | Headers(status: nat)
    | ConnectError          // nobody is listening: not this request's fault
    | Broken                // the daemon died on an established connection

  datatype Reply = BadBody | Refused | BadGateway | Passed(status: nat)

  datatype Phase =
    | Gate                      // about to read the machine-wide poison set
    | LocalGate                 // about to read this proxy's crash count
    | Queued                    // past the gate, waiting for an admission slot
    | Ready                     // holds a slot, at the top of the retry loop
    | Sending(exclusive: bool)  // inside the send, holding the lane
    | Broke                     // the send crashed the daemon; the crash is not counted yet
    | Erred                     // a failure below the threshold; about to test the attempt budget
    | Suspect                   // counted at or over the threshold; about to read `in_use`
    | Confirmed                 // read `in_use <= 1`; about to read the machine-wide set
    | Recording(kept: map<Fp, nat>)  // has read it; about to write it back with the new entry
    | Clearing(status: nat)     // 2xx headers; about to clear the local count
    | ClearingShared(status: nat)  // local count cleared; about to read the machine-wide set
    | Erasing(status: nat, kept: map<Fp, nat>)  // found its entry there; about to write the set back without it
    | Streaming                 // response committed, slot still held
    | Leaving                   // refused or given up; about to drop the slot
    | Done

  datatype Req = Req(fp: Fp, body: Body, phase: Phase, attempts: nat, crashes: nat,
                     sent: seq<Body>, replies: seq<Reply>)

  datatype Lane = Free | Shared(readers: nat) | Exclusive

  datatype State = State(reqs: map<Id, Req>, poison: map<Fp, nat>, shared: map<Fp, nat>, now: nat,
                         lane: Lane, inUse: nat, general: nat,
                         outside: nat,    // sends of other clients the daemon is busy with
                         abandoned: nat)  // sends of this proxy it is still busy with after the client has hung up

  const INIT := State(map[], map[], map[], 0, Free, 0, 0, 0, 0)

  datatype Label =
    | Arrive(id: Id, body: Body)
    | ArriveUnreadable(id: Id, body: Body)
    | CheckShared(id: Id)
    | CheckLocal(id: Id)
    | Grant(id: Id)
    | StartSend(id: Id)
    | SendEnds(id: Id, outcome: Outcome)
    | Bump(id: Id)
    | Retry(id: Id)
    | CheckSole(id: Id)
    | Record(id: Id)
    | ClearLocal(id: Id)
    | ClearShared(id: Id)
    | WriteShared(id: Id)
    | Drop(id: Id)
    | EndStream(id: Id)
    | Cancel(id: Id)
    | World(shared: map<Fp, nat>, now: nat, outside: nat, abandoned: nat)
      // other launches edit the shared set and send, the clock moves, the daemon lets go of abandoned work

  function CrashCount(s: State, fp: Fp): nat {
    if fp in s.poison then s.poison[fp] else 0
  }

  /** An entry made at `added` is still within its time to live; the subtraction saturates. */
  predicate Lives(c: Config, added: nat, now: nat) { (if now < added then 0 else now - added) < c.ttl }

  predicate IsPoisoned(c: Config, s: State, fp: Fp) {
    fp in s.shared && Lives(c, s.shared[fp], s.now)
  }

  function Alive(c: Config, shared: map<Fp, nat>, now: nat): map<Fp, nat> {
    map f | f in shared && Lives(c, shared[f], now) :: shared[f]
  }

  /** A small body may use the slot that is kept free of big ones. */
  predicate IsFast(c: Config, body: Body) { |body| / 4 < c.fastlane }

  function GeneralCap(c: Config): nat {
    if c.fastlane > 0 && c.limit >= 2 then c.limit - 1 else c.limit
  }

  predicate IsSuccess(status: nat) { 200 <= status < 300 }

  predicate HoldsSlot(r: Req) {
    match r.phase
    case Gate | LocalGate | Queued | Done => false
    case _ => true
  }

  predicate HoldsBig(c: Config, r: Req) { HoldsSlot(r) && !IsFast(c, r.body) }

  predicate SendsShared(r: Req) { r.phase == Sending(false) }

  predicate SendsExclusive(r: Req) { r.phase == Sending(true) }

  predicate InPhase(s: State, id: Id, p: Phase) {
    id in s.reqs && s.reqs[id].phase == p
  }

  predicate Sends(s: State, id: Id) {
    id in s.reqs && s.reqs[id].phase.Sending?
  }

  /** Has read the machine-wide set and is about to write it back. */
  predicate Writes(s: State, id: Id) {
    id in s.reqs && (s.reqs[id].phase.Recording? || s.reqs[id].phase.Erasing?)
  }

  /** Which labels may fire: program order within a request, and the two blocking primitives. */
  predicate Enabled(c: Config, s: State, l: Label) {
    match l
    case Arrive(id, _) => id !in s.reqs
    case ArriveUnreadable(id, _) => id !in s.reqs
    case CheckShared(id) => InPhase(s, id, Gate)
    case CheckLocal(id) => InPhase(s, id, LocalGate)
    case Grant(id) => InPhase(s, id, Queued) && s.inUse < c.limit &&
      (IsFast(c, s.reqs[id].body) || s.general < GeneralCap(c))
    case StartSend(id) => InPhase(s, id, Ready) &&
      (if s.reqs[id].crashes > 0 then s.lane.Free? else !s.lane.Exclusive?)
    case SendEnds(id, _) => Sends(s, id)
    case Bump(id) => InPhase(s, id, Broke)
    case Retry(id) => InPhase(s, id, Erred)
    case CheckSole(id) => InPhase(s, id, Suspect)
    case Record(id) => InPhase(s, id, Confirmed)
    case ClearLocal(id) => id in s.reqs && s.reqs[id].phase.Clearing?
    case ClearShared(id) => id in s.reqs && s.reqs[id].phase.ClearingShared?
    case WriteShared(id) => Writes(s, id)
    case Drop(id) => InPhase(s, id, Leaving)
    case EndStream(id) => InPhase(s, id, Streaming)
    // a future is dropped only while it awaits
    case Cancel(id) => InPhase(s, id, Queued) || InPhase(s, id, Ready) || Sends(s, id) || InPhase(s, id, Streaming)
    case World(shared, _, outside, abandoned) =>
      abandoned <= s.abandoned && (c.alone ==> outside == 0 && shared == s.shared)
  }

  function TakeLane(l: Lane, exclusive: bool): Lane {
    if exclusive then Exclusive else if l.Shared? then Shared(l.readers + 1) else Shared(1)
  }

  function DropLane(l: Lane): Lane {
    if l.Shared? && l.readers > 1 then Shared(l.readers - 1) else Free
  }

  function Less(n: nat): nat { if n > 0 then n - 1 else n }

  /** The reply is formed; the admission guard, if held, is dropped next. */
  function Answer(r: Req, reply: Reply): Req {
    r.(phase := if HoldsSlot(r) then Leaving else Done, replies := r.replies + [reply])
  }

  /** The response is committed and streams from here on. */
  function Commit(r: Req, status: nat): Req {
    r.(phase := Streaming, replies := r.replies + [Passed(status)])
  }

  function AfterSend(c: Config, r: Req, o: Outcome): Req {
    match o
    case Headers(status) =>
      if status == 429 && r.attempts < c.maxAttempts then r.(phase := Ready)
      else if IsSuccess(status) then r.(phase := Clearing(status))
      else Commit(r, status)
    case ConnectError => r.(phase := Erred)
    case Broken => r.(phase := Broke, crashes := r.crashes + 1)
  }

  /** Where an action leaves the request that makes it. */
  function Moved(c: Config, s: State, l: Label): Req
    requires Enabled(c, s, l) && !l.World?
  {
    match l
    case Arrive(id, body) => Req(c.fingerprint(body), body, Gate, 0, 0, [], [])
    case ArriveUnreadable(id, body) => Req(c.fingerprint(body), body, Done, 0, 0, [], [BadBody])
    case CheckShared(id) =>
      var r := s.reqs[id];
      if IsPoisoned(c, s, r.fp) then Answer(r, Refused) else r.(phase := LocalGate)
    case CheckLocal(id) =>
      var r := s.reqs[id];
      if CrashCount(s, r.fp) >= c.poisonMax then Answer(r, Refused) else r.(phase := Queued)
    case Grant(id) => s.reqs[id].(phase := Ready)
    case StartSend(id) =>
      var r := s.reqs[id];
      r.(phase := Sending(r.crashes > 0), attempts := r.attempts + 1, sent := r.sent + [r.body])
    case SendEnds(id, o) => AfterSend(c, s.reqs[id], o)
    case Bump(id) =>
      var r := s.reqs[id];
      r.(phase := if CrashCount(s, r.fp) + 1 >= c.poisonMax then Suspect else Erred)
    case Retry(id) =>
      var r := s.reqs[id];
      if r.attempts >= c.maxAttempts then Answer(r, BadGateway) else r.(phase := Ready)
    case CheckSole(id) =>
      var r := s.reqs[id];
      if s.inUse <= 1 then r.(phase := Confirmed) else Answer(r, Refused)
    case Record(id) =>
      var r := s.reqs[id];
      r.(phase := Recording(Alive(c, s.shared, s.now)[r.fp := s.now]))
    case ClearLocal(id) =>
      var r := s.reqs[id];
      r.(phase := ClearingShared(r.phase.status))
    case ClearShared(id) =>
      var r := s.reqs[id];
      if r.fp in s.shared then r.(phase := Erasing(r.phase.status, s.shared - {r.fp})) else Commit(r, r.phase.status)
    case WriteShared(id) =>
      var r := s.reqs[id];
      if r.phase.Recording? then Answer(r, Refused) else Commit(r, r.phase.status)
    case Drop(id) => s.reqs[id].(phase := Done)
    case EndStream(id) => s.reqs[id].(phase := Done)
    case Cancel(id) => s.reqs[id].(phase := Done)
  }

  /** The admission guard of `r`, if held, is dropped. */
  function Freed(c: Config, s: State, r: Req): State {
    s.(inUse := if HoldsSlot(r) then Less(s.inUse) else s.inUse,
       general := if HoldsBig(c, r) then Less(s.general) else s.general)
  }

  /** The lane is free again, whether or not the daemon has noticed that nobody listens any more. */
  function Abandon(c: Config, s: State): State {
    s.(lane := DropLane(s.lane), abandoned := if c.drops then s.abandoned else s.abandoned + 1)
  }

  /** What an action does to everything else. */
  function Around(c: Config, s: State, l: Label): State
    requires Enabled(c, s, l)
  {
    match l
    case Grant(id) =>
      s.(inUse := s.inUse + 1, general := if IsFast(c, s.reqs[id].body) then s.general else s.general + 1)
    case StartSend(id) => s.(lane := TakeLane(s.lane, s.reqs[id].crashes > 0))
    case SendEnds(id, o) => s.(lane := DropLane(s.lane))
    case Bump(id) => s.(poison := s.poison[s.reqs[id].fp := CrashCount(s, s.reqs[id].fp) + 1])
    case ClearLocal(id) => s.(poison := s.poison - {s.reqs[id].fp})
    case WriteShared(id) => s.(shared := s.reqs[id].phase.kept)
    case Drop(id) => Freed(c, s, s.reqs[id])
    case EndStream(id) => Freed(c, s, s.reqs[id])
    case Cancel(id) => Freed(c, if s.reqs[id].phase.Sending? then Abandon(c, s) else s, s.reqs[id])
    case World(shared, now, outside, abandoned) => s.(shared := shared, now := now, outside := outside, abandoned := abandoned)
    case _ => s
  }

  function Apply(c: Config, s: State, l: Label): State
    requires Enabled(c, s, l)
  {
    if l.World? then Around(c, s, l) else Around(c, s, l).(reqs := s.reqs[l.id := Moved(c, s, l)])
  }

  /** `ls` is a schedule the system can follow from `s`, and `t` is where it leads. */
  ghost predicate Run(c: Config, s: State, ls: seq<Label>, t: State)
    decreases |ls|
  {
    if ls == [] then s == t
    else Enabled(c, s, ls[0]) && Run(c, Apply(c, s, ls[0]), ls[1..], t)
  }

  ghost predicate Reachable(c: Config, s: State) {
    exists ls :: Run(c, INIT, ls, s)
  }

  // ---------------------------------------------------------------- counting requests

  ghost function Ids(reqs: map<Id, Req>, p: Req -> bool): set<Id> {
    set id | id in reqs && p(reqs[id])
  }

  ghost function Count(reqs: map<Id, Req>, p: Req -> bool): nat {
    |Ids(reqs, p)|
  }

  lemma Without(ids: set<Id>, id: Id)
    ensures |ids| == |ids - {id}| + if id in ids then 1 else 0
  {
    assert id in ids ==> ids == ids - {id} + {id};
    assert id !in ids ==> ids == ids - {id};
  }

  lemma CountPut(reqs: map<Id, Req>, id: Id, r: Req, p: Req -> bool)
    ensures Count(reqs[id := r], p) ==
            Count(reqs, p) - (if id in reqs && p(reqs[id]) then 1 else 0) + (if p(r) then 1 else 0)
  {
    var before, after := Ids(reqs, p), Ids(reqs[id := r], p);
    assert before - {id} == after - {id};
    Without(before, id);
    Without(after, id);
  }

  lemma CountZero(reqs: map<Id, Req>, p: Req -> bool, id: Id)
    requires Count(reqs, p) == 0 && id in reqs
    ensures !p(reqs[id])
  {
    assert id !in Ids(reqs, p);
  }

  lemma CountOne(reqs: map<Id, Req>, p: Req -> bool, a: Id, b: Id)
    requires Count(reqs, p) <= 1 && a in reqs && b in reqs && p(reqs[a]) && p(reqs[b])
    ensures a == b
  {
    var rest := Ids(reqs, p) - {a};
    assert a in Ids(reqs, p);
    assert |rest| == 0;
    assert b !in rest;
  }

  // ---------------------------------------------------------------- the invariant

  function Budget(c: Config): nat {
    if c.maxAttempts == 0 then 1 else c.maxAttempts
  }

  /** Every send so far carried the same body, and they are counted; the fingerprint is that body's. */
  ghost predicate SentOk(c: Config, r: Req) {
    r.fp == c.fingerprint(r.body) && |r.sent| == r.attempts && forall i :: 0 <= i < |r.sent| ==> r.sent[i] == r.body
  }

  /** The attempt budget, phase by phase. */
  ghost predicate BudgetOk(c: Config, r: Req) {
    && r.crashes <= r.attempts <= Budget(c)
    && (r.phase.Gate? || r.phase.LocalGate? || r.phase.Queued? ==> r.attempts == 0)
    && (r.phase.Ready? ==> r.attempts < Budget(c))
    && (r.phase.Broke? || r.phase.Erred? ==> r.attempts > 0)
  }

  /** What a phase remembers. */
  ghost predicate MarksOk(r: Req) {
    && (r.phase.Sending? ==> r.phase.exclusive == (r.crashes > 0) && r.crashes < r.attempts)
    && (r.phase.Clearing? || r.phase.ClearingShared? || r.phase.Erasing? ==> IsSuccess(r.phase.status))
    && (r.phase.Recording? ==> r.fp in r.phase.kept)
  }

  ghost predicate PhaseOk(c: Config, r: Req) { BudgetOk(c, r) && MarksOk(r) }

  /** At most one reply, only when committed, and backpressure or a 502 only when the budget is spent. */
  ghost predicate RepliesOk(c: Config, r: Req) {
    && |r.replies| <= 1
    && (r.phase.Streaming? || r.phase.Leaving? ==> |r.replies| == 1)
    && (!r.phase.Streaming? && !r.phase.Leaving? && !r.phase.Done? ==> |r.replies| == 0)
    && (|r.replies| == 1 && (r.replies[0] == Passed(429) || r.replies[0] == BadGateway) ==> r.attempts == Budget(c))
  }

  /** What holds of one request whatever the others do: the replay discipline. */
  ghost predicate ReqOk(c: Config, r: Req) {
    SentOk(c, r) && PhaseOk(c, r) && RepliesOk(c, r)
  }

  ghost predicate LaneOk(s: State) {
    match s.lane
    case Free => Count(s.reqs, SendsShared) == 0 && Count(s.reqs, SendsExclusive) == 0
    case Shared(n) => 0 < n == Count(s.reqs, SendsShared) && Count(s.reqs, SendsExclusive) == 0
    case Exclusive => Count(s.reqs, SendsShared) == 0 && Count(s.reqs, SendsExclusive) == 1
  }

  ghost function Big(c: Config): Req -> bool { (r: Req) => HoldsBig(c, r) }

  /** The counters are the holders, within the limit, and big requests leave the reserved slot free. */
  ghost predicate SlotsOk(c: Config, s: State) {
    && s.inUse == Count(s.reqs, HoldsSlot) <= c.limit
    && s.general == Count(s.reqs, Big(c)) <= GeneralCap(c)
  }

  ghost predicate Inv(c: Config, s: State) {
    && (forall id :: id in s.reqs ==> ReqOk(c, s.reqs[id]))
    && SlotsOk(c, s)
    && LaneOk(s)
    && (c.alone ==> s.outside == 0) && (c.drops ==> s.abandoned == 0)
  }

  lemma FrameStep(c: Config, s: State, l: Label)
    requires Enabled(c, s, l) && !l.World?
    ensures var t := Apply(c, s, l); l.id in t.reqs && t.reqs == s.reqs[l.id := t.reqs[l.id]]
  {
  }

  lemma SentStep(c: Config, s: State, l: Label)
    requires Enabled(c, s, l) && !l.World?
    requires l.id in s.reqs ==> SentOk(c, s.reqs[l.id])
    ensures SentOk(c, Apply(c, s, l).reqs[l.id])
  {
  }

  lemma BudgetStep(c: Config, s: State, l: Label)
    requires Enabled(c, s, l) && !l.World?
    requires l.id in s.reqs ==> PhaseOk(c, s.reqs[l.id])
    ensures BudgetOk(c, Apply(c, s, l).reqs[l.id])
  {
  }

  lemma MarksStep(c: Config, s: State, l: Label)
    requires Enabled(c, s, l) && !l.World?
    requires l.id in s.reqs ==> PhaseOk(c, s.reqs[l.id])
    ensures MarksOk(Apply(c, s, l).reqs[l.id])
  {
  }

  lemma RepliesStep(c: Config, s: State, l: Label)
    requires Enabled(c, s, l) && !l.World?
    requires l.id in s.reqs ==> PhaseOk(c, s.reqs[l.id]) && RepliesOk(c, s.reqs[l.id])
    ensures RepliesOk(c, Apply(c, s, l).reqs[l.id])
  {
  }

  ghost function One(b: bool): nat { if b then 1 else 0 }

  /** The request is over with this action. */
  predicate Ends(l: Label) { l.Drop? || l.EndStream? || l.Cancel? }

  ghost predicate Held(s: State, id: Id) { id in s.reqs && HoldsSlot(s.reqs[id]) }

  /** A slot is held from the grant to the end, and through everything between. */
  lemma HoldEffect(c: Config, s: State, l: Label)
    requires Enabled(c, s, l) && !l.World?
    ensures HoldsSlot(Moved(c, s, l)) == if l.Grant? then true else Held(s, l.id) && !Ends(l)
    ensures l.Grant? ==> !Held(s, l.id)
    ensures l.id in s.reqs ==> Moved(c, s, l).body == s.reqs[l.id].body
  {
  }

  lemma UseEffect(c: Config, s: State, l: Label)
    requires Enabled(c, s, l) && !l.World?
    ensures Around(c, s, l).inUse ==
            if l.Grant? then s.inUse + 1 else if Held(s, l.id) && Ends(l) then Less(s.inUse) else s.inUse
    ensures Around(c, s, l).general ==
            if l.Grant? then s.general + One(!IsFast(c, s.reqs[l.id].body))
            else if Held(s, l.id) && Ends(l) && !IsFast(c, s.reqs[l.id].body) then Less(s.general) else s.general
  {
  }

  lemma SlotStep(c: Config, s: State, l: Label)
    requires Enabled(c, s, l) && !l.World?
    requires SlotsOk(c, s)
    ensures SlotsOk(c, Apply(c, s, l))
  {
    var t := Apply(c, s, l);
    FrameStep(c, s, l);
    HoldEffect(c, s, l);
    UseEffect(c, s, l);
    CountPut(s.reqs, l.id, t.reqs[l.id], HoldsSlot);
    CountPut(s.reqs, l.id, t.reqs[l.id], Big(c));
  }

  /** Only the three lane labels touch the lane, each in step with the request's own phase. */
  lemma LaneEffect(c: Config, s: State, l: Label)
    requires Enabled(c, s, l) && !l.World?
    ensures var t := Apply(c, s, l);
            && t.reqs == s.reqs[l.id := t.reqs[l.id]]
            && (if l.StartSend? then
                  t.lane == TakeLane(s.lane, s.reqs[l.id].crashes > 0) && t.reqs[l.id].phase == Sending(s.reqs[l.id].crashes > 0)
                else
                  !t.reqs[l.id].phase.Sending? && t.lane == if Sends(s, l.id) then DropLane(s.lane) else s.lane)
  {
  }

  lemma LaneStep(c: Config, s: State, l: Label)
    requires Enabled(c, s, l) && !l.World?
    requires LaneOk(s)
    ensures LaneOk(Apply(c, s, l))
  {
    var t := Apply(c, s, l);
    LaneEffect(c, s, l);
    var r' := t.reqs[l.id];
    LaneCounts(s, t, l.id, r', if l.StartSend? then TakeLane(s.lane, r'.phase.exclusive) else t.lane);
  }

  lemma LaneCounts(s: State, t: State, id: Id, r': Req, lane: Lane)
    requires LaneOk(s) && t.reqs == s.reqs[id := r'] && t.lane == lane
    requires if r'.phase.Sending? then
               !Sends(s, id) && lane == TakeLane(s.lane, r'.phase.exclusive) &&
               (if r'.phase.exclusive then s.lane.Free? else !s.lane.Exclusive?)
             else lane == if Sends(s, id) then DropLane(s.lane) else s.lane
    ensures LaneOk(t)
  {
    CountPut(s.reqs, id, r', SendsShared);
    CountPut(s.reqs, id, r', SendsExclusive);
    if id in s.reqs && s.lane.Free? {
      CountZero(s.reqs, SendsShared, id);
      CountZero(s.reqs, SendsExclusive, id);
    }
  }

  lemma InvStep(c: Config, s: State, l: Label)
    requires Inv(c, s) && Enabled(c, s, l)
    ensures Inv(c, Apply(c, s, l))
  {
    if !l.World? {
      FrameStep(c, s, l);
      SentStep(c, s, l);
      BudgetStep(c, s, l);
      MarksStep(c, s, l);
      RepliesStep(c, s, l);
      SlotStep(c, s, l);
      LaneStep(c, s, l);
    }
  }
}
