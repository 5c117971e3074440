/** The verify-repair gate of `exec_agent`: links of a model chain, repair rounds on the last link,
    gateway switches that can fail, and a judge that borrows the gateway.  The agent, the checks, the
    judge and the gateway are oracles indexed by the number of events so far, so nothing is assumed
    about how they answer; every step is logged, and the log is what the theorems are about. */
module Chain {
  import opened Wrappers
  import opened WorkTree

  type Model = string

  /** A repair prompt carries the evidence of the check that ended just before event `evidence`. */
  datatype Prompt = Original | Repair(evidence: nat)

  datatype Verdict = Pass | Fail | Unknown

  datatype Launch = Launch(spec: Model, chain: seq<Model>, rounds: nat, explicit: bool, start: Tree, canSnapshot: bool)

  /** Everything the launcher asks the outside world. */
  datatype World = World(
    switch: (nat, Model) -> bool,
    derive: nat -> bool,
    poorRecord: (nat, Model) -> bool,
    agent: (nat, Prompt, Tree) -> (int, Tree),
    resolves: nat -> bool,
    hallucinated: nat -> bool,
    check: (nat, bool, Tree) -> (bool, Tree),
    heal: (nat, Tree) -> Option<Tree>,
    judge: (nat, Model) -> Verdict)

  datatype Event =
    | Switched(model: Model, ok: bool)
    | Weighed(link: nat, poor: bool)      // the track record of a middle link was looked up
    | Unreachable(link: nat)
    | Ran(link: nat, round: nat, resident: Model, prompt: Prompt, tree: Tree, code: int)
    | Evaluated(link: nat, at: nat, tree: Tree, structural: bool, judged: Option<Verdict>)
    | Recorded(link: nat, outcome: Option<bool>)

  type Log = seq<Event>

  predicate Multi(c: Launch) { |c.chain| > 1 }

  predicate HasSnapshot(c: Launch) { Multi(c) && c.canSnapshot }

  /** A deterministic check was derived from the prompt up front. */
  predicate Derives(c: Launch, w: World) { !c.explicit && w.derive(if Multi(c) then 1 else 0) }

  predicate UseJudge(c: Launch, w: World) { !c.explicit && !Derives(c, w) }

  /** There is nothing to check: no verifiable project, or a check made up for a task without one. */
  predicate NoGate(c: Launch, w: World, now: nat) {
    (!Derives(c, w) && !w.resolves(now)) || (!c.explicit && w.hallucinated(now))
  }

  /** A check passes when the structure does and, if a judge was asked, it said Pass. */
  predicate Passed(e: Event) {
    e.Evaluated? && e.structural && (e.judged.None? || e.judged == Some(Pass))
  }

  /** What a check says about the executor; an Unknown is no evidence either way. */
  function OutcomeOf(e: Event): Option<bool>
    requires e.Evaluated?
  {
    if e.structural && e.judged == Some(Unknown) then None else Some(Passed(e))
  }

  /** Only the last resort gets repair rounds. */
  function RoundsOf(c: Launch, link: nat): nat { if link + 1 < |c.chain| then 0 else c.rounds }

  ghost predicate LastOther(chain: seq<Model>, executor: Model, m: Model) {
    exists i :: 0 <= i < |chain| && chain[i] == m && forall j :: i < j < |chain| ==> chain[j] == executor
  }

  /** The last link of the chain that is not the executor, if there is one. */
  function IndependentJudge(chain: seq<Model>, executor: Model): (r: Option<Model>)
    ensures r.None? <==> forall i :: 0 <= i < |chain| ==> chain[i] == executor
    ensures r.Some? ==> r.value != executor && LastOther(chain, executor, r.value)
  {
    if chain == [] then None
    else
      var front, last := chain[..|chain| - 1], chain[|chain| - 1];
      assert chain == front + [last];
      if last != executor then assert chain[|chain| - 1] == last; Some(last)
      else
        var r := IndependentJudge(front, executor);
        assert r.Some? ==> LastOther(chain, executor, r.value) by {
          if r.Some? {
            LastOtherLonger(front, executor, r.value);
          }
        }
        r
  }

  lemma LastOtherLonger(chain: seq<Model>, executor: Model, m: Model)
    requires LastOther(chain, executor, m)
    ensures LastOther(chain + [executor], executor, m)
  {
    var i :| 0 <= i < |chain| && chain[i] == m && forall j :: i < j < |chain| ==> chain[j] == executor;
    assert (chain + [executor])[i] == m;
  }

  /** The outside world finds `tree` in order: outright, or once its manifest was healed. */
  ghost predicate InOrder(w: World, at: nat, tree: Tree) {
    || w.check(at, false, tree).0
    || exists healed :: w.heal(at, w.check(at, false, tree).1) == Some(healed) && w.check(at, true, healed).0
  }

  /** `after` is what its last check left: the second one if the first failed and the manifest was healed. */
  ghost predicate LeftByCheck(w: World, at: nat, tree: Tree, after: Tree) {
    var (ok, first) := w.check(at, false, tree);
    var healed := w.heal(at, first);
    && (ok || healed.None? ==> after == first)
    && (!ok && healed.Some? ==> after == w.check(at, true, healed.value).1)
  }

  /** The ground-truth check; when it fails and the manifest can be healed, it is made once more. */
  function StructuralCheck(w: World, now: nat, tree: Tree): (r: (bool, Tree))
    ensures r.0 <==> InOrder(w, now, tree)
    ensures LeftByCheck(w, now, tree, r.1)
  {
    var (ok, after) := w.check(now, false, tree);
    if ok then (ok, after)
    else match w.heal(now, after)
      case None => (ok, after)
      case Some(healed) => w.check(now, true, healed)
  }

  // ---------------------------------------------------------------- reading the log

  /** What a log says: the runs so far, the last of each kind of event, which links have an outcome,
      which are dealt with for good, what the gateway serves and what the last actor left on disk. */
  datatype Digest = Digest(size: nat, last: Option<Event>, runs: nat, lastRun: Option<Event>, lastCheck: Option<Event>,
                           evidence: nat, checked: set<nat>, records: set<nat>, tried: set<nat>, cleared: Option<nat>,
                           resident: Model, left: Tree, checkOwed: bool)

  ghost function After(w: World, d: Digest, e: Event): Digest {
    var d := d.(size := d.size + 1, last := Some(e));
    match e
    case Switched(model, ok) => if ok then d.(resident := model) else d
    case Weighed(link, poor) => if poor then d.(tried := d.tried + {link}) else d.(cleared := Some(link))
    case Unreachable(link) => d.(tried := d.tried + {link})
    case Ran(_, _, _, prompt, tree, _) =>
      d.(runs := d.runs + 1, lastRun := Some(e), checkOwed := true, left := w.agent(d.size - 1, prompt, tree).1)
    case Evaluated(link, at, tree, _, _) =>
      d.(lastCheck := Some(e), checked := d.checked + {link}, evidence := d.size, checkOwed := false, left := StructuralCheck(w, at, tree).1)
    case Recorded(link, _) => d.(records := d.records + {link}, tried := d.tried + {link})
  }

  ghost function Read(c: Launch, w: World, log: Log): Digest {
    if log == [] then Digest(0, None, 0, None, None, 0, {}, {}, {}, None, c.spec, c.start, false)
    else After(w, Read(c, w, log[..|log| - 1]), log[|log| - 1])
  }

  ghost function LastCode(d: Digest): int {
    if d.lastRun.Some? && d.lastRun.value.Ran? then d.lastRun.value.code else 1
  }

  ghost predicate Succeeded(d: Digest) { d.lastCheck.Some? && Passed(d.lastCheck.value) }

  ghost predicate LastRunIs(d: Digest, link: nat, round: nat) {
    d.lastRun.Some? && d.lastRun.value.Ran? && d.lastRun.value.link == link && d.lastRun.value.round == round
  }

  /** The prompt and the tree of a link's first run: the original task on the restored files if there
      is a snapshot, else whatever the links before it left behind. */
  ghost function FirstPrompt(c: Launch, d: Digest): Prompt {
    if HasSnapshot(c) || d.runs == 0 then Original else Repair(d.evidence)
  }

  ghost function FirstTree(c: Launch, d: Digest): Tree {
    if HasSnapshot(c) && d.runs > 0 then Restored(d.left, Prune(c.start)) else d.left
  }

  /** A run is on the link's own model, answers what the agent said to this very prompt and tree, is
      never made after a success or before the previous run is checked; first runs go forward through
      the chain, and repair rounds go up one by one on the last link only. */
  ghost predicate RunOk(c: Launch, w: World, d: Digest, e: Event)
    requires e.Ran?
  {
    && e.link < |c.chain| && !d.checkOwed && !Succeeded(d)
    && e.resident == d.resident && (Multi(c) ==> d.resident == c.chain[e.link])
    && (0 < e.link < |c.chain| - 1 ==> d.cleared == Some(e.link))
    && e.code == w.agent(d.size, e.prompt, e.tree).0
    && if e.round == 0 then
         e.prompt == FirstPrompt(c, d) && e.tree == FirstTree(c, d) && (d.lastRun.Some? ==> d.lastRun.value.Ran? && d.lastRun.value.link < e.link)
       else
         e.round <= RoundsOf(c, e.link) && LastRunIs(d, e.link, e.round - 1) && e.prompt == Repair(d.evidence) && e.tree == d.left
  }

  /** A check is of the last run and of what it left; the judge is asked exactly when it is in use and
      the structure passed, and its verdict is its own, or Unknown when it could not be loaded. */
  ghost predicate CheckOk(c: Launch, w: World, d: Digest, e: Event)
    requires e.Evaluated?
  {
    && e.link < |c.chain| && d.checkOwed && d.lastRun.Some? && d.lastRun.value.Ran? && d.lastRun.value.link == e.link
    && e.tree == d.left && (e.structural <==> InOrder(w, e.at, e.tree)) && !NoGate(c, w, e.at)
    && (e.judged.Some? <==> e.structural && UseJudge(c, w))
    && var judge := IndependentJudge(c.chain, c.chain[e.link]);
       if e.judged.Some? && judge.Some? then
         && d.size == e.at + 1 && d.last.Some? && d.last.value.Switched? && d.last.value.model == judge.value
         && e.judged.value == if d.last.value.ok then w.judge(d.size, judge.value) else Unknown
       else
         d.size == e.at && (e.judged.Some? ==> e.judged.value == w.judge(d.size, d.resident))
  }

  /** One outcome per link: that of the check just made, once no round is left, or Unknown when the
      executor could not be brought back. */
  ghost predicate RecordOk(c: Launch, d: Digest, e: Event)
    requires e.Recorded?
  {
    && e.link < |c.chain| && e.link !in d.records && !d.checkOwed && d.last.Some?
    && var last := d.last.value;
       if last.Evaluated? then
         last.link == e.link && e.outcome == OutcomeOf(last) && (Passed(last) || LastRunIs(d, e.link, RoundsOf(c, e.link)))
       else
         last == Switched(c.chain[e.link], false) && e.outcome == None
  }

  /** What is promised of an event, given everything logged before it. */
  ghost predicate EventOk(c: Launch, w: World, d: Digest, e: Event) {
    match e
    case Switched(model, ok) => ok == w.switch(d.size, model)
    // the leader and the last resort are never dropped by track record
    case Weighed(link, poor) => 0 < link < |c.chain| - 1 && !d.checkOwed && poor == w.poorRecord(d.size, c.chain[link])
    case Unreachable(link) => link < |c.chain| && !d.checkOwed && d.last == Some(Switched(c.chain[link], false))
    case Ran(_, _, _, _, _, _) => RunOk(c, w, d, e)
    case Evaluated(_, _, _, _, _) => CheckOk(c, w, d, e)
    case Recorded(_, _) => RecordOk(c, d, e)
  }

  ghost predicate LogOk(c: Launch, w: World, log: Log) {
    log == [] || (LogOk(c, w, log[..|log| - 1]) && EventOk(c, w, Read(c, w, log[..|log| - 1]), log[|log| - 1]))
  }

  lemma Append(c: Launch, w: World, log: Log, e: Event)
    ensures Read(c, w, log + [e]) == After(w, Read(c, w, log), e)
    ensures LogOk(c, w, log + [e]) <==> LogOk(c, w, log) && EventOk(c, w, Read(c, w, log), e)
  {
    var longer := log + [e];
    assert longer[..|longer| - 1] == log;
  }

  // ---------------------------------------------------------------- the launcher

  /** The launcher's variables, with what the gateway really serves beside what the launcher believes. */
  datatype Progress = Progress(log: Log, current: Model, resident: Model, prompt: Prompt, tree: Tree,
                               verified: Option<bool>, lastCode: int)

  ghost predicate Sound(c: Launch, w: World, p: Progress, d: Digest) {
    && LogOk(c, w, p.log) && d == Read(c, w, p.log) && d.size == |p.log|
    && p.current == p.resident == d.resident
    && p.lastCode == LastCode(d)
    && p.verified == (if d.lastCheck.None? then None else Some(Succeeded(d)))
  }

  /** Ready for a link's first run. */
  ghost predicate Clean(c: Launch, p: Progress, d: Digest) {
    p.prompt == FirstPrompt(c, d) && p.tree == FirstTree(c, d)
  }

  /** In the middle of a link. */
  ghost predicate Dirty(p: Progress, d: Digest) {
    p.prompt == Repair(d.evidence) && p.tree == d.left
  }

  /** Every checked link but `mi` has its outcome; links below `mi` are dealt with, no other link has an
      outcome, and nothing is left unchecked. */
  ghost predicate Within(d: Digest, mi: nat) {
    && !d.checkOwed && !Succeeded(d)
    && (forall l :: l in d.records ==> l < mi)
    && (forall l :: 0 <= l < mi ==> l in d.tried)
    && (forall l :: l in d.checked ==> l in d.records || l == mi)
  }

  /** The same between two links. */
  ghost predicate UpTo(d: Digest, mi: nat) {
    Within(d, mi) && d.checked <= d.records
  }

  ghost predicate RunsBelow(d: Digest, mi: nat) {
    d.lastRun.Some? ==> d.lastRun.value.Ran? && d.lastRun.value.link < mi
  }

  /** Link `mi` may run: the gateway serves it and its record, if it counts, has been weighed. */
  ghost predicate MayRun(c: Launch, d: Digest, mi: nat)
    requires mi < |c.chain|
  {
    && (Multi(c) ==> d.resident == c.chain[mi])
    && (0 < mi < |c.chain| - 1 ==> d.cleared == Some(mi))
  }

  /** The chain ended for a reason: a success that has just been recorded, nothing to check, or every link
      dealt with.  Every link that was checked has its outcome, except one whose later run had nothing to
      check. */
  ghost predicate Finished(c: Launch, w: World, d: Digest) {
    || (Succeeded(d) && d.last == Some(Recorded(d.lastCheck.value.link, Some(true))) && d.checked <= d.records)
    || (d.checkOwed && NoGate(c, w, d.size) && d.lastRun.Some? && d.lastRun.value.Ran? && d.checked <= d.records + {d.lastRun.value.link})
    || UpTo(d, |c.chain|)
  }

  method Note(c: Launch, w: World, p: Progress, ghost d: Digest, e: Event) returns (q: Progress, ghost d': Digest)
    requires LogOk(c, w, p.log) && d == Read(c, w, p.log) && d.size == |p.log| && EventOk(c, w, d, e)
    ensures q == p.(log := p.log + [e]) && LogOk(c, w, q.log)
    ensures d' == After(w, d, e) == Read(c, w, q.log) && d'.size == |q.log|
  {
    Append(c, w, p.log, e);
    q, d' := p.(log := p.log + [e]), After(w, d, e);
  }

  /** One switch of the gateway.  A failed switch leaves the resident model as it was. */
  method Switch(c: Launch, w: World, p: Progress, ghost d: Digest, model: Model)
    returns (ok: bool, q: Progress, ghost d': Digest)
    requires Sound(c, w, p, d)
    ensures Sound(c, w, q, d') && ok == w.switch(|p.log|, model)
    ensures d' == After(w, d, Switched(model, ok))
    ensures q == p.(log := p.log + [Switched(model, ok)], current := q.current, resident := q.resident)
  {
    ok := w.switch(|p.log|, model);
    q, d' := Note(c, w, p, d, Switched(model, ok));
    if ok {
      q := q.(resident := model);  // the gateway
      q := q.(current := model);   // the launcher
    }
  }

  /** The semantic judge: another model of the chain when there is one, else the resident model. */
  method Judge(c: Launch, w: World, p: Progress, ghost d: Digest, link: nat) returns (v: Verdict, q: Progress, ghost d': Digest)
    requires Sound(c, w, p, d) && link < |c.chain|
    ensures Sound(c, w, q, d') && q == p.(log := q.log, current := q.current, resident := q.resident)
    ensures var judge := IndependentJudge(c.chain, c.chain[link]);
            if judge.None? then d' == d && v == w.judge(d.size, d.resident)
            else var ok := w.switch(d.size, judge.value);
                 d' == After(w, d, Switched(judge.value, ok)) && v == if ok then w.judge(d'.size, judge.value) else Unknown
  {
    q, d' := p, d;
    var judge := IndependentJudge(c.chain, c.chain[link]);
    if judge.Some? {
      var loaded;
      loaded, q, d' := Switch(c, w, q, d', judge.value);
      if !loaded { return Unknown, q, d'; }
    }
    v := w.judge(|q.log|, q.resident);
  }

  /** The last run was link `link`'s, its check is owed, and its files are as it left them. */
  ghost predicate Owes(c: Launch, w: World, p: Progress, d: Digest, link: nat) {
    && d.checkOwed && p.tree == d.left && !NoGate(c, w, d.size)
    && d.lastRun.Some? && d.lastRun.value.Ran? && d.lastRun.value.link == link < |c.chain|
  }

  /** Everything that happens between an agent run and the decision about it. */
  method Evaluate(c: Launch, w: World, p: Progress, ghost d: Digest, link: nat, useJudge: bool)
    returns (e: Event, q: Progress, ghost d': Digest)
    requires Sound(c, w, p, d) && Owes(c, w, p, d, link) && useJudge == UseJudge(c, w)
    ensures Sound(c, w, q, d') && e.Evaluated? && e.link == link
    ensures d' == d.(size := d'.size, last := Some(e), lastCheck := Some(e), evidence := d'.size, checked := d.checked + {link},
                     checkOwed := false, left := q.tree, resident := d'.resident)
    ensures q == p.(log := q.log, current := q.current, resident := q.resident, tree := q.tree, verified := Some(Passed(e)))
  {
    var at := |p.log|;
    var (ok, after) := StructuralCheck(w, at, p.tree);
    q, d' := p, d;
    var judged := None;
    if ok && useJudge {
      var v;
      v, q, d' := Judge(c, w, q, d', link);
      judged := Some(v);
    }
    e := Evaluated(link, at, p.tree, ok, judged);
    q, d' := Note(c, w, q, d', e);
    q := q.(tree := after, verified := Some(Passed(e)));
  }

  /** Adds one outcome to the track record of a link. */
  method Record(c: Launch, w: World, mi: nat, outcome: Option<bool>, p: Progress, ghost d: Digest)
    returns (q: Progress, ghost d': Digest)
    requires Sound(c, w, p, d) && RecordOk(c, d, Recorded(mi, outcome))
    ensures Sound(c, w, q, d') && q == p.(log := q.log)
    ensures d' == d.(size := d'.size, last := Some(Recorded(mi, outcome)), records := d.records + {mi}, tried := d.tried + {mi})
    ensures Within(d, mi) ==> UpTo(d', mi + 1)
  {
    q, d' := Note(c, w, p, d, Recorded(mi, outcome));
  }

  /** A judge may have taken the gateway over: give it back to the executor of link `mi`. */
  method EnsureResident(c: Launch, w: World, mi: nat, p: Progress, ghost d: Digest)
    returns (ok: bool, q: Progress, ghost d': Digest)
    requires mi < |c.chain| && Sound(c, w, p, d)
    ensures Sound(c, w, q, d') && q == p.(log := q.log, current := q.current, resident := q.resident)
    ensures d' == d.(size := d'.size, last := d'.last, resident := d'.resident)
    ensures ok && Multi(c) ==> d'.resident == c.chain[mi]
    ensures if ok then true else Multi(c) && d.resident != c.chain[mi] && d'.last == Some(Switched(c.chain[mi], false))
  {
    ok, q, d' := true, p, d;
    if Multi(c) && c.chain[mi] != q.current {
      ok, q, d' := Switch(c, w, q, d', c.chain[mi]);
    }
  }

  /** One agent run, on the model the gateway serves. */
  method RunAgent(c: Launch, w: World, mi: nat, round: nat, p: Progress, ghost d: Digest) returns (q: Progress)
    requires mi < |c.chain| && Sound(c, w, p, d) && MayRun(c, d, mi) && !d.checkOwed && !Succeeded(d)
    requires if round == 0 then Clean(c, p, d) && RunsBelow(d, mi)
             else round <= RoundsOf(c, mi) && Dirty(p, d) && LastRunIs(d, mi, round - 1)
    ensures var d' := Read(c, w, q.log);
            && Sound(c, w, q, d') && LastRunIs(d', mi, round)
            && q == p.(log := q.log, tree := d'.left, lastCode := q.lastCode)
            && d' == d.(size := d.size + 1, last := d'.lastRun, runs := d.runs + 1, lastRun := d'.lastRun, checkOwed := true, left := d'.left)
  {
    ghost var d';
    var (code, written) := w.agent(|p.log|, p.prompt, p.tree);
    q, d' := Note(c, w, p, d, Ran(mi, round, p.resident, p.prompt, p.tree, code));
    q := q.(lastCode := code, tree := written);
  }

  /** A clean start for the next link, if there is a snapshot to start from. */
  method Restart(c: Launch, w: World, snapshot: Option<Tree>, p: Progress, ghost d: Digest) returns (q: Progress)
    requires Sound(c, w, p, d) && Dirty(p, d) && d.runs > 0
    requires (snapshot.Some? <==> HasSnapshot(c)) && (snapshot.Some? ==> snapshot.value == Prune(c.start))
    ensures Sound(c, w, q, d) && Clean(c, q, d)
  {
    q := p;
    if snapshot.Some? {
      RestoreKeepsSources(c.start, q.tree);
      var restored := RestoreWorkdir(q.tree, snapshot.value);
      q := q.(tree := restored, prompt := Original);
    }
  }

  /** A link out of rounds: record it, and hand a clean start to the next link if there is one. */
  method HandOver(c: Launch, w: World, mi: nat, e: Event, snapshot: Option<Tree>, p: Progress, ghost d: Digest)
    returns (stop: bool, q: Progress, ghost d': Digest)
    requires mi < |c.chain| && Sound(c, w, p, d) && Dirty(p, d) && Within(d, mi) && d.runs > 0
    requires d.last == Some(e) && e.Evaluated? && e.link == mi && !Passed(e) && LastRunIs(d, mi, RoundsOf(c, mi))
    requires (snapshot.Some? <==> HasSnapshot(c)) && (snapshot.Some? ==> snapshot.value == Prune(c.start))
    ensures Sound(c, w, q, d') && UpTo(d', mi + 1) && d'.runs == d.runs && d'.lastRun == d.lastRun
    ensures stop <==> mi + 1 == |c.chain|
    ensures !stop ==> Clean(c, q, d')
  {
    q, d' := Record(c, w, mi, if e.structural && e.judged == Some(Unknown) then None else Some(false), p, d);
    if mi + 1 == |c.chain| { return true, q, d'; }
    q := Restart(c, w, snapshot, q, d');
    stop := false;
  }

  /** The check of a run: a pass is recorded at once, a failure becomes the next prompt. */
  method Settle(c: Launch, w: World, mi: nat, useJudge: bool, p: Progress, ghost d: Digest)
    returns (passed: bool, e: Event, q: Progress, ghost d': Digest)
    requires Sound(c, w, p, d) && Owes(c, w, p, d, mi) && useJudge == UseJudge(c, w) && mi !in d.records
    ensures Sound(c, w, q, d') && d'.runs == d.runs && d'.lastRun == d.lastRun && !d'.checkOwed
    ensures e.Evaluated? && e.link == mi && d'.lastCheck == Some(e) && d'.checked == d.checked + {mi} && (passed <==> Passed(e))
    ensures if passed then d'.last == Some(Recorded(mi, Some(true))) && d'.records == d.records + {mi}
            else Dirty(q, d') && d'.last == Some(e) && d'.records == d.records && d'.tried == d.tried
  {
    e, q, d' := Evaluate(c, w, p, d, mi, useJudge);
    passed := Passed(e);
    if passed {
      q, d' := Record(c, w, mi, Some(true), q, d');
    } else {
      q := q.(prompt := Repair(|q.log|));
    }
  }

  /** One run and its check.  `ended` leaves the chain; otherwise `e` is the failed check. */
  method Attempt(c: Launch, w: World, mi: nat, round: nat, derived: bool, p: Progress, ghost d: Digest)
    returns (ended: bool, e: Event, q: Progress)
    requires mi < |c.chain| && Sound(c, w, p, d) && Within(d, mi) && MayRun(c, d, mi) && derived == Derives(c, w)
    requires if round == 0 then Clean(c, p, d) && RunsBelow(d, mi)
             else round <= RoundsOf(c, mi) && Dirty(p, d) && LastRunIs(d, mi, round - 1)
    ensures var d' := Read(c, w, q.log);
            && Sound(c, w, q, d') && d'.runs == d.runs + 1
            && if ended then Finished(c, w, d')
               else Dirty(q, d') && Within(d', mi) && LastRunIs(d', mi, round) &&
                    d'.last == Some(e) && e.Evaluated? && e.link == mi && !Passed(e)
  {
    q := RunAgent(c, w, mi, round, p, d);
    e := Recorded(mi, None);
    if !derived && !w.resolves(|q.log|) { return true, e, q; }
    if !c.explicit && w.hallucinated(|q.log|) { return true, e, q; }
    ghost var d' := Read(c, w, q.log);
    ended, e, q, d' := Settle(c, w, mi, !derived && !c.explicit, q, d');
  }

  /** Brings the executor of link `mi` back; if that fails the link is given up without a verdict. */
  method BringBack(c: Launch, w: World, mi: nat, p: Progress, ghost d: Digest) returns (ok: bool, q: Progress, ghost d': Digest)
    requires mi < |c.chain| && Sound(c, w, p, d) && Within(d, mi)
    ensures Sound(c, w, q, d') && q == p.(log := q.log, current := q.current, resident := q.resident)
    ensures d'.runs == d.runs && d'.lastRun == d.lastRun
    ensures if ok then d' == d.(size := d'.size, last := d'.last, resident := d'.resident) && (Multi(c) ==> d'.resident == c.chain[mi])
            else UpTo(d', mi + 1) && Multi(c) && d.resident != c.chain[mi]
  {
    ok, q, d' := EnsureResident(c, w, mi, p, d);
    if !ok {
      q, d' := Record(c, w, mi, None, q, d');
    }
  }

  /** The rounds of one link; `stop` leaves the chain. */
  method RunLink(c: Launch, w: World, mi: nat, derived: bool, snapshot: Option<Tree>, p: Progress, ghost d: Digest)
    returns (stop: bool, q: Progress)
    requires mi < |c.chain| && Sound(c, w, p, d) && Clean(c, p, d) && UpTo(d, mi) && RunsBelow(d, mi) && MayRun(c, d, mi)
    requires d.runs <= mi && derived == Derives(c, w)
    requires (snapshot.Some? <==> HasSnapshot(c)) && (snapshot.Some? ==> snapshot.value == Prune(c.start))
    ensures var d' := Read(c, w, q.log);
            && Sound(c, w, q, d') && d'.runs <= mi + 1 + RoundsOf(c, mi)
            && if stop then Finished(c, w, d') else UpTo(d', mi + 1) && RunsBelow(d', mi + 1) && (mi + 1 < |c.chain| ==> Clean(c, q, d'))
  {
    var linkRounds := if mi + 1 < |c.chain| then 0 else c.rounds;
    var round := 0;
    q := p;
    ghost var d' := d;
    while true
      invariant 0 <= round <= linkRounds
      invariant Sound(c, w, q, d') && Within(d', mi) && d'.runs <= mi + round
      invariant if round == 0 then Clean(c, q, d') && RunsBelow(d', mi) && MayRun(c, d', mi)
                else Dirty(q, d') && LastRunIs(d', mi, round - 1)
      decreases linkRounds - round
    {
      var ok;
      ok, q, d' := BringBack(c, w, mi, q, d');
      if !ok { return false, q; }
      var ended, e;
      ended, e, q := Attempt(c, w, mi, round, derived, q, d');
      if ended { return true, q; }
      d' := Read(c, w, q.log);
      if round == linkRounds {
        stop, q, d' := HandOver(c, w, mi, e, snapshot, q, d');
        return;
      }
      round := round + 1;
    }
  }

  /** The skip rule, for middle links only. */
  method Weigh(c: Launch, w: World, mi: nat, p: Progress, ghost d: Digest) returns (skip: bool, q: Progress, ghost d': Digest)
    requires mi < |c.chain| && Sound(c, w, p, d) && UpTo(d, mi)
    ensures Sound(c, w, q, d') && q == p.(log := q.log)
    ensures d' == d.(size := d'.size, last := d'.last, tried := d'.tried, cleared := d'.cleared)
    ensures if skip then UpTo(d', mi + 1) else UpTo(d', mi) && (0 < mi < |c.chain| - 1 ==> d'.cleared == Some(mi))
  {
    skip, q, d' := false, p, d;
    if Multi(c) && mi > 0 && mi + 1 < |c.chain| {
      skip := w.poorRecord(|p.log|, c.chain[mi]);
      q, d' := Note(c, w, q, d', Weighed(mi, skip));
    }
  }

  /** The switch before a link's first run; a link that cannot be loaded is passed over. */
  method Load(c: Launch, w: World, mi: nat, p: Progress, ghost d: Digest) returns (ok: bool, q: Progress, ghost d': Digest)
    requires mi < |c.chain| && Sound(c, w, p, d) && UpTo(d, mi)
    ensures Sound(c, w, q, d') && q == p.(log := q.log, current := q.current, resident := q.resident)
    ensures d' == d.(size := d'.size, last := d'.last, resident := d'.resident, tried := d'.tried)
    ensures if ok then UpTo(d', mi) && (Multi(c) ==> d'.resident == c.chain[mi]) else UpTo(d', mi + 1)
  {
    ok, q, d' := EnsureResident(c, w, mi, p, d);
    if !ok {
      q, d' := Note(c, w, q, d', Unreachable(mi));
    }
  }

  /** Whether link `mi` gets to run. */
  method OpenLink(c: Launch, w: World, mi: nat, p: Progress, ghost d: Digest) returns (go: bool, q: Progress)
    requires mi < |c.chain| && Sound(c, w, p, d) && Clean(c, p, d) && UpTo(d, mi) && RunsBelow(d, mi)
    ensures var d' := Read(c, w, q.log);
            && Sound(c, w, q, d') && Clean(c, q, d') && RunsBelow(d', mi) && d'.runs == d.runs
            && if go then UpTo(d', mi) && MayRun(c, d', mi) else UpTo(d', mi + 1)
  {
    ghost var d';
    var skip;
    skip, q, d' := Weigh(c, w, mi, p, d);
    if skip { return false, q; }
    go, q, d' := Load(c, w, mi, q, d');
  }

  /** Before the first link: the target is derived on the first link's model, and the files are saved. */
  method Prepare(c: Launch, w: World) returns (p: Progress, derived: bool, snapshot: Option<Tree>, ghost d: Digest)
    ensures Sound(c, w, p, d) && Clean(c, p, d) && UpTo(d, 0) && RunsBelow(d, 0) && d.runs == 0
    ensures derived == Derives(c, w)
    ensures (snapshot.Some? <==> HasSnapshot(c)) && (snapshot.Some? ==> snapshot.value == Prune(c.start))
  {
    p, derived, snapshot := Progress([], c.spec, c.spec, Original, c.start, None, 1), false, None;
    d := Read(c, w, []);
    if !c.explicit {
      if Multi(c) {
        var ok;
        ok, p, d := Switch(c, w, p, d, c.chain[0]);
      }
      derived := w.derive(|p.log|);
    }
    if HasSnapshot(c) {
      var snap := SnapshotWorkdir(c.start);
      snapshot := Some(snap);
    }
  }

  /** The loop over links. */
  method RunChain(c: Launch, w: World) returns (p: Progress)
    ensures var d := Read(c, w, p.log); Sound(c, w, p, d) && Finished(c, w, d) && d.runs <= |c.chain| + c.rounds
  {
    var derived, snapshot;
    ghost var d;
    p, derived, snapshot, d := Prepare(c, w);
    for mi := 0 to |c.chain|
      invariant Sound(c, w, p, d) && UpTo(d, mi) && RunsBelow(d, mi)
      invariant d.runs <= if mi < |c.chain| then mi else mi + c.rounds
      invariant mi < |c.chain| ==> Clean(c, p, d)
    {
      var go;
      go, p := OpenLink(c, w, mi, p, d);
      d := Read(c, w, p.log);
      if !go { continue; }
      var stop;
      stop, p := RunLink(c, w, mi, derived, snapshot, p, d);
      d := Read(c, w, p.log);
      if stop { break; }
    }
  }

  /** The whole launch.  `exit` is the process exit code. */
  method ExecAgent(c: Launch, w: World) returns (exit: int, log: Log)
    ensures LogOk(c, w, log)
    ensures Read(c, w, log).runs <= |c.chain| + c.rounds
    // no false success, and no false failure
    ensures exit == 0 <==> var d := Read(c, w, log); Succeeded(d) || (d.lastCheck.None? && LastCode(d) == 0)
    ensures exit != 0 ==> exit == if LastRun(log) >= 0 && log[LastRun(log)].code != 0 then log[LastRun(log)].code else 1
    // the same in the answers of the outside world: the last check found the files in order and the judge,
    // when in use, passed them; or nothing was checked and the last run exited with 0
    ensures exit == 0 <==> Good(c, w, log)
    ensures LastRun(log) > LastCheck(log) ==> !Checkable(c, w, |log|)
    ensures RunCount(log) <= |c.chain| + c.rounds
    // no early end
    ensures Finished(c, w, Read(c, w, log)) && EndsForReason(c, w, log)
  {
    var p := RunChain(c, w);
    log := p.log;
    exit := match p.verified
      case Some(true) => 0
      case Some(false) => if p.lastCode != 0 then p.lastCode else 1
      case None => p.lastCode;
    GoodExactly(c, w, log);
    ReadTells(c, w, log);
    UncheckedEnd(c, w, log);
    ReadRuns(c, w, log);
    EndsFor(c, w, log);
  }

  // ---------------------------------------------------------------- the log in the world's own answers

  /** Where the last check, or the last run, is in the log; -1 when there is none. */
  ghost function LastCheck(log: Log): (i: int)
    ensures -1 <= i < |log| && (i >= 0 ==> log[i].Evaluated?)
    ensures forall k :: i < k < |log| ==> !log[k].Evaluated?
  {
    if log == [] then -1
    else if log[|log| - 1].Evaluated? then |log| - 1
    else
      var i := LastCheck(log[..|log| - 1]);
      assert forall k :: 0 <= k < |log| - 1 ==> log[..|log| - 1][k] == log[k];
      i
  }

  ghost function LastRun(log: Log): (i: int)
    ensures -1 <= i < |log| && (i >= 0 ==> log[i].Ran?)
    ensures forall k :: i < k < |log| ==> !log[k].Ran?
  {
    if log == [] then -1
    else if log[|log| - 1].Ran? then |log| - 1
    else
      var i := LastRun(log[..|log| - 1]);
      assert forall k :: 0 <= k < |log| - 1 ==> log[..|log| - 1][k] == log[k];
      i
  }

  ghost predicate Good(c: Launch, w: World, log: Log) {
    var i := LastCheck(log);
    if i < 0 then LastRun(log) >= 0 && log[LastRun(log)].code == 0
    else
      && InOrder(w, log[i].at, log[i].tree)
      && (!c.explicit && !w.derive(if |c.chain| > 1 then 1 else 0) ==> log[i].judged == Some(Pass))
  }

  /** The last run and the last check are read off the log, and so is what is on disk: what that run wrote,
      or what its check left. */
  ghost predicate Tells(w: World, log: Log, d: Digest) {
    var i, j := LastCheck(log), LastRun(log);
    && d.size == |log|
    && d.lastCheck == (if i < 0 then None else Some(log[i])) && (i >= 0 ==> d.evidence == i + 1)
    && d.lastRun == (if j < 0 then None else Some(log[j]))
    && (d.checkOwed <==> j > i)
    && (j > i ==> d.left == w.agent(j, log[j].prompt, log[j].tree).1)
    && (i > j ==> LeftByCheck(w, log[i].at, log[i].tree, d.left))
  }

  lemma LastAppend(past: Log, e: Event)
    ensures LastCheck(past + [e]) == if e.Evaluated? then |past| else LastCheck(past)
    ensures LastRun(past + [e]) == if e.Ran? then |past| else LastRun(past)
  {
    assert (past + [e])[..|past|] == past;
  }

  /** An event that is neither a run nor a check leaves all of that as it was. */
  lemma TellsOther(w: World, past: Log, e: Event, d: Digest)
    requires Tells(w, past, d) && !e.Evaluated? && !e.Ran?
    ensures Tells(w, past + [e], After(w, d, e))
  {
    LastAppend(past, e);
    assert forall k :: 0 <= k < |past| ==> (past + [e])[k] == past[k];
  }

  lemma TellsNew(w: World, past: Log, e: Event, d: Digest)
    requires Tells(w, past, d) && (e.Evaluated? || e.Ran?)
    ensures Tells(w, past + [e], After(w, d, e))
  {
    LastAppend(past, e);
    var log := past + [e];
    assert log[|past|] == e && forall k :: 0 <= k < |past| ==> log[k] == past[k];
  }

  lemma {:induction false} ReadTells(c: Launch, w: World, log: Log)
    ensures Tells(w, log, Read(c, w, log))
  {
    if log != [] {
      var past := log[..|log| - 1];
      ReadTells(c, w, past);
      var e := log[|log| - 1];
      if e.Evaluated? || e.Ran? {
        TellsNew(w, past, e, Read(c, w, past));
      } else {
        TellsOther(w, past, e, Read(c, w, past));
      }
      assert past + [e] == log;
    }
  }

  lemma GoodExactly(c: Launch, w: World, log: Log)
    requires LogOk(c, w, log)
    ensures var d := Read(c, w, log); Good(c, w, log) <==> Succeeded(d) || (d.lastCheck.None? && LastCode(d) == 0)
  {
    ReadTells(c, w, log);
    var i := LastCheck(log);
    if i >= 0 {
      EventAt(c, w, log, i);
    }
  }

  /** There is something to check at `at`: a target derived up front or a verifiable project, and no check
      made up for a task that has none. */
  ghost predicate Checkable(c: Launch, w: World, at: nat) {
    && ((!c.explicit && w.derive(if |c.chain| > 1 then 1 else 0)) || w.resolves(at))
    && (c.explicit || !w.hallucinated(at))
  }

  /** Only a run with nothing to check is the end without a check. */
  lemma UncheckedEnd(c: Launch, w: World, log: Log)
    requires LogOk(c, w, log) && Finished(c, w, Read(c, w, log))
    ensures LastRun(log) > LastCheck(log) ==> !Checkable(c, w, |log|)
  {
    ReadTells(c, w, log);
    if log != [] {
      EventAt(c, w, log, |log| - 1);
      LastIs(c, w, log);
    }
  }

  ghost function RunCount(log: Log): nat {
    if log == [] then 0 else (if log[0].Ran? then 1 else 0) + RunCount(log[1..])
  }

  lemma {:induction false} RunCountAppend(a: Log, e: Event)
    ensures RunCount(a + [e]) == RunCount(a) + if e.Ran? then 1 else 0
  {
    if a == [] {
      assert RunCount([e][1..]) == 0 && a + [e] == [e];
    } else {
      RunCountAppend(a[1..], e);
      assert (a + [e])[1..] == a[1..] + [e];
    }
  }

  ghost predicate Settles(e: Event, l: nat) {
    (e.Recorded? && e.link == l) || e == Unreachable(l) || e == Weighed(l, true)
  }

  lemma {:induction false} ReadRuns(c: Launch, w: World, log: Log)
    ensures Read(c, w, log).runs == RunCount(log)
  {
    if log != [] {
      var past, e := log[..|log| - 1], log[|log| - 1];
      ReadRuns(c, w, past);
      RunCountAppend(past, e);
      assert log == past + [e];
    }
  }

  ghost predicate CheckedIn(log: Log, l: nat) { exists k :: 0 <= k < |log| && log[k].Evaluated? && log[k].link == l }

  ghost predicate RecordedIn(log: Log, l: nat) { exists k :: 0 <= k < |log| && log[k].Recorded? && log[k].link == l }

  ghost predicate SettledIn(log: Log, l: nat) { exists k :: 0 <= k < |log| && Settles(log[k], l) }

  lemma InAppend(past: Log, e: Event, l: nat)
    ensures CheckedIn(past + [e], l) <==> CheckedIn(past, l) || (e.Evaluated? && e.link == l)
    ensures RecordedIn(past + [e], l) <==> RecordedIn(past, l) || (e.Recorded? && e.link == l)
    ensures SettledIn(past + [e], l) <==> SettledIn(past, l) || Settles(e, l)
  {
    var log := past + [e];
    assert log[|past|] == e && forall k :: 0 <= k < |past| ==> log[k] == past[k];
  }

  lemma AfterLinks(w: World, d: Digest, e: Event, l: nat)
    ensures var d' := After(w, d, e);
            && (l in d'.checked <==> l in d.checked || (e.Evaluated? && e.link == l))
            && (l in d'.records <==> l in d.records || (e.Recorded? && e.link == l))
            && (l in d'.tried <==> l in d.tried || Settles(e, l))
  {
  }

  /** Which links were checked, recorded or dealt with is what the log says. */
  lemma {:induction false} ReadLinks(c: Launch, w: World, log: Log, l: nat)
    ensures var d := Read(c, w, log);
            && (l in d.checked <==> CheckedIn(log, l)) && (l in d.records <==> RecordedIn(log, l)) && (l in d.tried <==> SettledIn(log, l))
  {
    if log != [] {
      var past, e := log[..|log| - 1], log[|log| - 1];
      ReadLinks(c, w, past, l);
      AfterLinks(w, Read(c, w, past), e, l);
      InAppend(past, e, l);
      assert log == past + [e];
    }
  }

  /** Where the last switch that succeeded is, or -1. */
  ghost function LastSwitch(log: Log): (i: int)
    ensures -1 <= i < |log| && (i >= 0 ==> log[i].Switched? && log[i].ok)
    ensures forall k :: i < k < |log| ==> !(log[k].Switched? && log[k].ok)
  {
    if log == [] then -1
    else
      var e := log[|log| - 1];
      if e.Switched? && e.ok then |log| - 1
      else
        var i := LastSwitch(log[..|log| - 1]);
        assert forall k :: 0 <= k < |log| - 1 ==> log[..|log| - 1][k] == log[k];
        i
  }

  /** The gateway serves the model of that switch, or what the launch began with. */
  lemma {:induction false} ReadServes(c: Launch, w: World, log: Log)
    ensures Read(c, w, log).resident == if LastSwitch(log) < 0 then c.spec else log[LastSwitch(log)].model
  {
    if log != [] {
      ReadServes(c, w, log[..|log| - 1]);
    }
  }

  /** The log ends with a success just recorded, with a run that had nothing to check, or with every link
      recorded, skipped or unreachable; every checked link has its outcome, except one whose later run had
      nothing to check. */
  ghost predicate EndsForReason(c: Launch, w: World, log: Log) {
    var i, j := LastCheck(log), LastRun(log);
    && (forall l :: CheckedIn(log, l) && !RecordedIn(log, l) ==> j > i && l == log[j].link)
    && ((i >= 0 && Good(c, w, log) && log[|log| - 1] == Recorded(log[i].link, Some(true)))
        || (j > i && !Checkable(c, w, |log|))
        || forall l: nat :: l < |c.chain| ==> SettledIn(log, l))
  }

  lemma EndsFor(c: Launch, w: World, log: Log)
    requires LogOk(c, w, log) && Finished(c, w, Read(c, w, log))
    ensures EndsForReason(c, w, log)
  {
    ReadTells(c, w, log);
    GoodExactly(c, w, log);
    UncheckedEnd(c, w, log);
    LastIs(c, w, log);
    forall l: nat {
      ReadLinks(c, w, log, l);
    }
  }

  /** A check is of what the last run wrote, by the same link; its structural half is the world's own answer,
      and the judge is asked exactly when it is in use and that answer is yes. */
  lemma CheckedExactly(c: Launch, w: World, log: Log, i: nat)
    requires LogOk(c, w, log) && i < |log| && log[i].Evaluated?
    ensures log[i].structural <==> InOrder(w, log[i].at, log[i].tree)
    ensures log[i].judged.Some? <==> InOrder(w, log[i].at, log[i].tree) && !c.explicit && !w.derive(if |c.chain| > 1 then 1 else 0)
    ensures var j := LastRun(log[..i]);
            j >= 0 && log[i].link == log[j].link && log[i].tree == w.agent(j, log[j].prompt, log[j].tree).1
    ensures Checkable(c, w, log[i].at)
  {
    EventAt(c, w, log, i);
    ReadTells(c, w, log[..i]);
  }

  /** A repair round sees what the failed check before it left, and its prompt carries that check's evidence. */
  lemma RepairSees(c: Launch, w: World, log: Log, j: nat)
    requires LogOk(c, w, log) && j < |log| && log[j].Ran? && log[j].round > 0
    ensures var i := LastCheck(log[..j]);
            && LastRun(log[..j]) < i && LeftByCheck(w, log[i].at, log[i].tree, log[j].tree) && log[j].prompt == Repair(i + 1)
            && (InOrder(w, log[i].at, log[i].tree) ==> log[i].judged in {Some(Fail), Some(Unknown)})
  {
    EventAt(c, w, log, j);
    ReadTells(c, w, log[..j]);
    var i := LastCheck(log[..j]);
    assert log[..j][..i] == log[..i];
    EventAt(c, w, log, i);
  }

  /** The first run of a link after others have run: with a snapshot it sees the original prompt, and at every
      path the original file, but for the caches at the top; without one, whatever the last check left, with
      that check's evidence in its prompt. */
  lemma FirstSees(c: Launch, w: World, log: Log, j: nat)
    requires LogOk(c, w, log) && j < |log| && log[j].Ran? && log[j].round == 0 && LastRun(log[..j]) >= 0
    ensures var i := LastCheck(log[..j]);
            LastRun(log[..j]) < i && Follows(c, w, log[i], log[j], i + 1)
  {
    var past, i := log[..j], LastCheck(log[..j]);
    FirstRunAt(c, w, log, j);
    AllChecked(c, w, past);
    LeftThenStarts(c, w, Read(c, w, past), log[i], log[j]);
  }

  lemma FirstRunAt(c: Launch, w: World, log: Log, j: nat)
    requires LogOk(c, w, log) && j < |log| && log[j].Ran? && log[j].round == 0
    ensures var d := Read(c, w, log[..j]); !d.checkOwed && log[j].prompt == FirstPrompt(c, d) && log[j].tree == FirstTree(c, d)
  {
    EventAt(c, w, log, j);
  }

  /** `e` starts from what that check left. */
  ghost predicate Follows(c: Launch, w: World, check: Event, e: Event, evidence: nat)
    requires check.Evaluated? && e.Ran?
  {
    exists left: Tree :: LeftByCheck(w, check.at, check.tree, left) && Starts(c, left, e, evidence)
  }

  lemma LeftThenStarts(c: Launch, w: World, d: Digest, check: Event, e: Event)
    requires check.Evaluated? && LeftByCheck(w, check.at, check.tree, d.left)
    requires e.Ran? && e.prompt == FirstPrompt(c, d) && e.tree == FirstTree(c, d) && d.runs > 0
    ensures Follows(c, w, check, e, d.evidence)
  {
    StartsFirst(c, d, e);
  }

  /** Somebody ran and no check is owed: what is on disk is what the last check left. */
  lemma AllChecked(c: Launch, w: World, log: Log)
    requires LastRun(log) >= 0 && !Read(c, w, log).checkOwed
    ensures var i, d := LastCheck(log), Read(c, w, log);
            LastRun(log) < i && d.evidence == i + 1 && LeftByCheck(w, log[i].at, log[i].tree, d.left) && d.runs > 0
  {
    ReadTells(c, w, log);
    RunsSeen(c, w, log);
  }

  ghost predicate Starts(c: Launch, left: Tree, e: Event, evidence: nat)
    requires e.Ran?
  {
    if |c.chain| > 1 && c.canSnapshot then e.prompt == Original && Resumes(c.start, left, e.tree)
    else e.prompt == Repair(evidence) && e.tree == left
  }

  lemma StartsFirst(c: Launch, d: Digest, e: Event)
    requires e.Ran? && e.prompt == FirstPrompt(c, d) && e.tree == FirstTree(c, d) && d.runs > 0
    ensures Starts(c, d.left, e, d.evidence)
  {
    ResumesRestored(c.start, d.left);
  }

  /** The caches of `left` at the top, and everything of `start` that is no cache. */
  ghost predicate Resumes(start: Tree, left: Tree, tree: Tree) {
    forall p :: p != [] ==>
      At(tree, p) == if Top(p) then At(left, p) else if "target" in p || ".git" in p then None else At(start, p)
  }

  lemma ResumesRestored(start: Tree, left: Tree)
    ensures Resumes(start, left, Restored(left, Prune(start)))
  {
    PruneIsCacheFree(start);
    forall p | p != []
      ensures At(Restored(left, Prune(start)), p) ==
              if Top(p) then At(left, p) else if "target" in p || ".git" in p then None else At(start, p)
    {
      PruneAt(start, p);
    }
  }

  /** What reaches the statistics: the verdict of the check just made, or nothing certain. */
  lemma RecordedExactly(c: Launch, w: World, log: Log, i: nat)
    requires LogOk(c, w, log) && i < |log| && log[i].Recorded?
    ensures i > 0 && log[i].link < |c.chain|
    ensures var e, yes := log[i - 1], log[i - 1].Evaluated? && InOrder(w, log[i - 1].at, log[i - 1].tree);
            && (e.Evaluated? ==> e.link == log[i].link)
            && (log[i].outcome == Some(true) <==> e.Evaluated? && yes && e.judged in {None, Some(Pass)})
            && (log[i].outcome == None <==> !e.Evaluated? || (yes && e.judged == Some(Unknown)))
            && (!e.Evaluated? ==> e == Switched(c.chain[log[i].link], false))
  {
    EventAt(c, w, log, i);
    LastIs(c, w, log[..i]);
    EventAt(c, w, log, i - 1);
  }

  /** Anything but a pass is recorded of a check once the rounds are used up, and only the last link has any. */
  lemma RoundsUsedUp(c: Launch, w: World, log: Log, i: nat)
    requires LogOk(c, w, log) && 0 < i < |log| && log[i].Recorded? && log[i - 1].Evaluated? && log[i].outcome != Some(true)
    ensures var j := LastRun(log[..i]);
            j >= 0 && log[j].link == log[i].link && log[j].round == if log[i].link == |c.chain| - 1 then c.rounds else 0
  {
    EventAt(c, w, log, i);
    LastIs(c, w, log[..i]);
    ReadTells(c, w, log[..i]);
  }

  lemma LastIs(c: Launch, w: World, log: Log)
    ensures Read(c, w, log).last == if log == [] then None else Some(log[|log| - 1])
  {
  }

  lemma RestoreKeepsSources(start: Tree, tree: Tree)
    ensures Prune(Prune(start)) == Prune(start) && Sources(Restored(tree, Prune(start))) == Prune(start)
  {
    PruneIsCacheFree(start);
    PruneFixpoint(Prune(start));
    RestoredParts(tree, Prune(start));
  }

  // ---------------------------------------------------------------- what a log says

  lemma {:induction false} EventAt(c: Launch, w: World, log: Log, i: nat)
    requires LogOk(c, w, log) && i < |log|
    ensures LogOk(c, w, log[..i]) && EventOk(c, w, Read(c, w, log[..i]), log[i])
  {
    if i < |log| - 1 {
      EventAt(c, w, log[..|log| - 1], i);
      assert log[..|log| - 1][..i] == log[..i];
    }
  }

  lemma AfterCounts(w: World, d: Digest, e: Event)
    ensures After(w, d, e).runs == d.runs + if e.Ran? then 1 else 0
    ensures After(w, d, e).lastRun == if e.Ran? then Some(e) else d.lastRun
    ensures After(w, d, e).records == d.records + if e.Recorded? then {e.link} else {}
  {
  }

  lemma {:induction false} RunsSeen(c: Launch, w: World, log: Log)
    ensures Read(c, w, log).runs == 0 <==> NobodyRan(log)
    ensures Read(c, w, log).lastRun.None? <==> Read(c, w, log).runs == 0
  {
    if log != [] {
      var past, e := log[..|log| - 1], log[|log| - 1];
      RunsSeen(c, w, past);
      AfterCounts(w, Read(c, w, past), e);
      NoneRan(log);
    }
  }

  ghost predicate NobodyRan(log: Log) {
    forall i :: 0 <= i < |log| ==> !log[i].Ran?
  }

  lemma NoneRan(log: Log)
    requires log != []
    ensures NobodyRan(log) <==> !log[|log| - 1].Ran? && NobodyRan(log[..|log| - 1])
  {
    assert forall i :: 0 <= i < |log| - 1 ==> log[..|log| - 1][i] == log[i];
  }

  lemma {:induction false} RecordSeen(c: Launch, w: World, log: Log, i: nat)
    requires i < |log| && log[i].Recorded?
    ensures log[i].link in Read(c, w, log).records
  {
    var past, e := log[..|log| - 1], log[|log| - 1];
    AfterCounts(w, Read(c, w, past), e);
    if i < |past| {
      RecordSeen(c, w, past, i);
    }
  }

  lemma {:induction false} UntouchedUntilRun(c: Launch, w: World, log: Log)
    requires LogOk(c, w, log) && Read(c, w, log).runs == 0
    ensures Read(c, w, log).left == c.start && !Read(c, w, log).checkOwed
  {
    if log != [] {
      RunsSeen(c, w, log[..|log| - 1]);
      UntouchedUntilRun(c, w, log[..|log| - 1]);
    }
  }

  /** At most one outcome per link reaches the statistics. */
  lemma OneOutcomePerLink(c: Launch, w: World, log: Log, i: nat, j: nat)
    requires LogOk(c, w, log) && i < j < |log| && log[i].Recorded? && log[j].Recorded?
    ensures log[i].link != log[j].link
  {
    EventAt(c, w, log, j);
    assert log[..j][i] == log[i];
    RecordSeen(c, w, log[..j], i);
  }

  lemma FirstRun(c: Launch, w: World, past: Log)
    requires LogOk(c, w, past)
    ensures var d := Read(c, w, past);
            FirstPrompt(c, d).Original? ==> FirstTree(c, d) == c.start || (HasSnapshot(c) && Sources(FirstTree(c, d)) == Prune(c.start))
  {
    var d := Read(c, w, past);
    if d.runs == 0 {
      UntouchedUntilRun(c, w, past);
    }
    RestoreKeepsSources(c.start, d.left);
  }

  /** Every agent run of a chain is on its own link's model, and starts clean: the first run of a link
      sees the original prompt exactly when there is a snapshot or nobody ran before it, and then the
      tree it sees is the original one, pruned if somebody ran before it. */
  lemma CleanStart(c: Launch, w: World, log: Log, j: nat)
    requires LogOk(c, w, log) && j < |log| && log[j].Ran?
    ensures |c.chain| > 1 ==> log[j].link < |c.chain| && log[j].resident == c.chain[log[j].link]
    ensures log[j].round <= c.rounds && (log[j].round > 0 ==> log[j].link == |c.chain| - 1)
    ensures log[j].round == 0 ==>
              (log[j].prompt.Original? <==> (|c.chain| > 1 && c.canSnapshot) || NobodyRan(log[..j]))
    ensures log[j].round == 0 && log[j].prompt.Original? ==>
              log[j].tree == c.start || (|c.chain| > 1 && c.canSnapshot && Sources(log[j].tree) == Prune(c.start))
  {
    var past := log[..j];
    EventAt(c, w, log, j);
    RunsSeen(c, w, past);
    FirstRun(c, w, past);
  }
}
