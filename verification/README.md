# Rozum: a verified model of the launcher's protocols and printers

Rozum runs coding agents against a shared local model gateway. This project models the parts of it
that keep real state, or that write something another program must read back, and proves what they
promise for every input, every schedule and every answer of the outside world.

* **The launch proxy** (`Proxy`, `ProxyRuns`, `ProxyAnswers`, `ProxyDecay`, `ProxyScenarios`, `ProxyShared`,
  `ProxyForward`). Many requests run `forward` at once and share a crash counter, a machine-wide poison
  set with a time to live, a read/write lane and an admission gate. `Proxy` is the transition system
  whose labels are single indivisible actions; `ProxyRuns` holds the theorems about all its runs;
  `ProxyAnswers` ties every reply to what the sends met, and every fall of a count to a success;
  `ProxyDecay` says exactly when a refusal can end and that nothing ever gets stuck; `ProxyScenarios`
  builds schedules that show which bounds are tight and which readings of the comments are too strong;
  `ProxyShared` is about the machine-wide file, which is read, changed and renamed into place;
  `ProxyForward` is the code of `forward` over shared fields, proved to be one thread of that system
  whatever the other threads do between its actions.
* **The admission gate** (`Admission`), a class with the source's own fields and operations, and
  `ProxyAdmission`, which shows that the proxy's transition system admits exactly as it does.
* **The verify-repair chain** (`Chain`) with its statistics (`TrackRecord`) and its snapshot and
  restore of the working directory (`WorkTree`). The agent, the checks, the judge and the gateway are
  arbitrary functions of the number of events so far; every step is logged, and the theorems speak
  about the log.
* **The service-verdict debouncer** (`Debounce`), refined to a window over the history of a service.
* **The two sandbox renderers** (`Sandbox`), each with the meaning of its target language.
* **Printers with a reader that undoes them** (`JsonString`, `CmdLauncher`, `Plist`, `Utf16`).
* **Sequence transformers** (`LaunchArgs`, `Tail`, `Spans`), with a small grammar of Rust lines
  (`RustLines`) that says what the span scanner's brace counter gets right.

`Wrappers`, `Text` and `SeqFacts` hold what these share about options, strings and sequences.

## Where the code says something else than its comments

* `src/proxy.rs:289-290` and `src/proxy.rs:655-657` expect a local refusal to decay. The local count
  is cleared only by a success of a request that carries the fingerprint and is already past the gate.
  Some run lets the fingerprint through again exactly when there is such a request that may still
  succeed; otherwise the refusal is final for the life of the proxy (`ProxyDecay.DecaysExactly`), and
  such states are reached (`ProxyScenarios.FinalIsReachable`).
* `src/proxy.rs:356-360` reads `in_use <= 1` as unambiguous attribution, and `docs/specs/shared-gateway.md:192`
  defines it so. Every launch has its own proxy with its own slots in front of the one shared daemon
  (`src/proxy.rs:4-8`), so a send of another launch that kills the daemon is not seen at all; within one
  proxy a neighbour that was sending may have hung up before the count; and a client that hangs up frees
  its slot at once while the daemon's worker goes on until it unblocks
  (`crates/rozum-gateway/src/gateway.rs:800-813`), so its crash meets whoever sends next. For a proxy that
  admits anything, attribution is unambiguous in every run exactly when it admits one request at a time,
  there is no other launch and the daemon drops a request the moment its client hangs up, which it does
  not (`ProxyScenarios.AttributionExactly`, `ProxyScenarios.BlamedForAbandoned`). Likewise a neighbour may be admitted between the read
  of `in_use` and the write of the shared set, exactly when the limit is more than one
  (`ProxyScenarios.RecordsAloneExactly`).
* `crates/rozum-core/src/share.rs:258-259` speaks of holding the file. It is not held: a neighbour that
  read it earlier writes its older copy over a new entry. Among the requests of one proxy that cannot
  happen exactly when it admits one request at a time (`ProxyShared.NoStaleCopiesExactly`); from other
  launches nothing protects an entry (`ProxyShared.ForeignWriteForgets`).
* `src/main.rs:7993-7996` promises each next model a clean restart. It gets one exactly when the
  snapshot succeeded or nobody ran before it (`Chain.CleanStart`).
* `src/main.rs:8036-8037` promises the snapshot's state back. Entries named `target` or `.git` below
  the top level are lost (`WorkTree.RestoredExactly`).
* `src/service.rs:48` calls the escaping of the property list minimal. Control characters are written as
  they are, which no XML processor accepts, and carriage returns are read as line feeds; everything else
  reads back (`Plist.DocumentReadsBackExactly`, `Plist.ReadsBackExactly`).
* `src/service.rs:194-210` guards the launcher against quotes in values. Quotes and equals signs in keys
  and line breaks anywhere are let through and do not read back (`CmdLauncher.ReadsBackExactly`).
* `scripts/rust-item-spans.py:17-21` says that braces in strings are not counted. After an escaped quote
  they are, and so are those of a `'\u{...}'` literal; these two cases are all
  (`RustLines.SafeExactly`, `RustLines.FailingLine`).
* `src/sandbox.rs:362-363` expects secrets that lie under no mount to be absent. A secret root that
  equals or contains a writable or read-only mount, or lies under a read-only one, is visible
  (`Sandbox.AgreementExactly`, `Sandbox.SecretsHiddenExactly`).

## Model

| member | source | states |
|---|---|---|
| `Proxy.InvStep` | src/proxy.rs:248-377 | Every action of every request keeps the invariant: per request the attempt budget, one identical body per send and at most one reply; in_use is the number of requests holding a slot and within the limit; the lane is free, shared by exactly the requests sending with no crash, or held by exactly one that crashed |
| `Proxy.LaneStep` | src/proxy.rs:310-323 | The lane always counts exactly the requests inside a send, shared and exclusive apart |
| `Proxy.SlotStep` | src/proxy.rs:302-305 | in_use equals the number of requests between admission and the drop of their guard, within the limit, and the big ones among them leave the reserved slot free |
| `Proxy.RepliesStep` | src/proxy.rs:324-376 | At most one reply; 429 or a connection-failure 502 only with the attempt budget spent |
| `ProxyRuns.InvReachable` | src/proxy.rs:248-377 | The invariant holds in every state any schedule can reach |
| `ProxyRuns.DegradeIsolation` | src/proxy.rs:310-323 | Whenever two requests are inside their sends at once, neither has crashed the daemon this turn; so one that has sends alone |
| `ProxyRuns.SoleSuspect` | src/proxy.rs:354-366 | The in_use test confirms a suspect if and only if it is the only holder of a slot, and then every other request is before admission or over |
| `ProxyRuns.SoleAtRecord` | src/proxy.rs:361-364 | After the test, the suspect is still alone at the write if and only if everyone admitted in between is over |
| `ProxyRuns.MeasureRun` | src/proxy.rs:285-305 | From the threshold on, crash count plus requests that can still crash never grows in a run without a clear |
| `ProxyRuns.CrashContainment` | src/proxy.rs:346-367 | Between two clears the count stays at most poison_max - 1 plus the number of requests past the gate when the threshold is reached, under every interleaving |
| `ProxyDecay.RefusalIsAbsorbing` | src/proxy.rs:281-293 | At or over the threshold with nobody left who may succeed, every later request with the fingerprint is turned away with no send, in every run, whatever becomes of the machine-wide entry |
| `ProxyDecay.DecaysExactly` | src/proxy.rs:289-345 | From any state that keeps the invariant: some run brings the count below the threshold if and only if some request with the fingerprint is queued, ready, sending, clearing, or failed with attempts left |
| `ProxyDecay.HopeClears` | src/proxy.rs:302-345 | One such request is enough: everybody else who holds a slot or the lane is brought to an end, then the request is admitted, sends, succeeds and clears the count |
| `ProxyDecay.NeverStuck` | src/proxy.rs:302-376 | No deadlock: some request can act by itself if and only if some request is not over |
| `ProxyDecay.EverybodyEnds` | src/proxy.rs:302-376 | Every run without arrivals makes at most as many moves as the ranks of its requests add up to, whatever the schedule, and no request can move any more if and only if all are over |
| `ProxyRuns.NoBreakNoCount` | src/proxy.rs:339-367 | A run whose sends meet only connect errors or headers never raises any count |
| `ProxyRuns.ReplayDiscipline` | src/proxy.rs:310-376 | At most max(1, max_attempts) sends, all of the same body, at most one reply, and 429 or a connection-failure 502 only after exactly that many sends |
| `ProxyRuns.NothingAfterReply` | src/proxy.rs:336-377 | After a reply nothing is sent and nothing more is replied, in every continuation |
| `ProxyRuns.AnsweredUnlessCancelled` | src/proxy.rs:302-377 | A request that is over has exactly one reply, unless its client hung up |
| `ProxyRuns.RequestsEnd` | src/proxy.rs:310-376 | Under every schedule a request makes a bounded number of actions of its own, so the retry loop ends |
| `ProxyAnswers.AnsweredAsMet` | src/proxy.rs:310-376 | In every run, of an answered request: a status was passed if and only if its last send met headers with exactly that status, a connection-failure 502 follows a failed send, a refusal a broken one or no send at all; every earlier send met 429 or failed; its crashes are its broken sends |
| `ProxyAnswers.FallsOnSuccess` | src/proxy.rs:336-345 | A count falls only by an action of a request with that fingerprint whose last send met a status from 200 to 299 |
| `ProxyAnswers.SuccessClears` | src/proxy.rs:336-345 | After every such status, under every schedule, the request is still about to clear its count or the count has been zero |
| `ProxyScenarios.ContainmentIsTight` | src/proxy.rs:285-305 | For every configuration, every body and every number n of requests past the gate a reachable schedule attains the containment bound: the admission limit does not cap it |
| `ProxyScenarios.FinalIsReachable` | src/proxy.rs:281-293 | For every configuration that admits anything a schedule reaches a state with a final refusal |
| `ProxyScenarios.RecordedInCompany` | src/proxy.rs:361-364 | With a limit of two or more a reachable state is about to write a new entry while another request holds a slot |
| `ProxyScenarios.RecordsAloneExactly` | src/proxy.rs:361-364 | Whoever writes a new entry is the sole holder of a slot in all runs if and only if the limit is at most one |
| `ProxyScenarios.BlamedInCompany` | src/proxy.rs:352-366 | With a limit of two or more a request can be confirmed as sole suspect although another of this proxy was sending when the daemon died |
| `ProxyScenarios.BlamedForOutsider` | src/proxy.rs:352-366 | With any limit, when there are other launches, a request can be confirmed as sole suspect although another launch was sending when the daemon died |
| `ProxyScenarios.BlamedForAbandoned` | src/proxy.rs:352-366 | With any limit, and no other launch, a request can be confirmed as sole suspect although the daemon was still at work for a client that hung up, when it does not drop such work at once |
| `ProxyScenarios.AttributionExactly` | src/proxy.rs:352-366 | Whoever is confirmed was alone in the daemon, counting the sends of all launches and the work of clients that hung up, in all runs if and only if nothing is admitted, or the limit is one, there is no other launch and the daemon drops a request as soon as its client hangs up |
| `ProxyShared.EntryLastsExactly` | crates/rozum-core/src/share.rs:251-267 | If nobody holds an older copy of the set when the entry is written, the fingerprint is poisoned for exactly the time to live, under every schedule in which nobody sets out to rewrite that entry: other records and other successes never end it early, and it expires by itself |
| `ProxyShared.ConfirmedForExactlyTtl` | src/proxy.rs:285-288 | So every request with the fingerprint is refused at the machine-wide gate for exactly that time and passes it afterwards |
| `ProxyShared.StaleWriteForgets` | crates/rozum-core/src/share.rs:231-275 | With a limit of two or more, and other launches on the machine, for any two small bodies a schedule reaches a state in which one request is about to write its entry and the other an older copy without it |
| `ProxyShared.Forgotten` | crates/rozum-core/src/share.rs:238-248 | From such a state the two writes leave the fingerprint unrefused at the very moment it was confirmed |
| `ProxyShared.OwnStaleCopy` | crates/rozum-core/src/share.rs:231-275 | With a limit of two or more a proxy has an older copy of its own while an entry is written, even with no other launch |
| `ProxyShared.NoStaleCopiesExactly` | crates/rozum-core/src/share.rs:258-275 | Among the requests of one proxy none ever holds an older copy while another writes an entry if and only if the limit is at most one |
| `ProxyShared.ForeignWriteForgets` | crates/rozum-core/src/share.rs:238-248 | Whatever the limit, one write of another launch ends an entry at once |
| `ProxyForward.ProxyState.Forward` | src/proxy.rs:248-377 | The whole request as code: it is a thread of the transition system for arbitrary interference, replies once or is blocked on a slot that does not fit it or on the lane, keeps its fingerprint and body, and gives 429 or a connection-failure 502 only with the budget spent; the reply is what its last send met, a status being the daemon's own, and every earlier send met 429 or failed |
| `ProxyForward.ProxyState.RetryLoop` | src/proxy.rs:310-377 | The loop over attempts ends with one reply or blocked on the lane; attempts and sends agree at every turn, and the reply is what the last send met |
| `ProxyForward.ProxyState.OneTurn` | src/proxy.rs:310-374 | One turn of the loop: another round only after 429 or a failure with budget left, and otherwise the reply is the daemon's own status, a 502 after a failure or a refusal after a crash |
| `ProxyForward.ProxyState.SendOnce` | src/proxy.rs:313-323 | One send under the right lane, with other requests acting during it; its outcome alone decides between another round, the daemon's own status, a clear from 200 to 299, and a failure |
| `ProxyForward.ProxyState.AfterFailure` | src/proxy.rs:346-374 | A failed send is refused only if the connection was up, given up only with the budget spent, and otherwise retried |
| `ProxyForward.ProxyState.GiveUpOrRetry` | src/proxy.rs:368-373 | A connection-failure 502 if and only if the attempt budget is spent, else another round |
| `ProxyForward.ProxyState.Refuse` | src/proxy.rs:355-366 | At the threshold the request ends refused, whether or not it was confirmed machine-wide |
| `ProxyForward.ProxyState.PassGate` | src/proxy.rs:281-293 | Passes to the queue or ends refused, on the machine-wide set first and the local count second |
| `ProxyForward.ProxyState.TakeSlot` | src/proxy.rs:302-305 | Admitted, or blocked because the limit is reached or only the reserved slot is left |
| `ProxyForward.ProxyState.BumpPoison` | src/proxy.rs:157-167 | Adds one and decides between suspect and retry |
| `ProxyForward.ProxyState.ClearPoison` | src/proxy.rs:339-345 | Clears the local count, then reads the machine-wide set and writes it back without the entry if it was there, with others acting in between, and commits the reply |
| `ProxyForward.ProxyState.RecordPoison` | crates/rozum-core/src/share.rs:260-267 | Reads the set, and with others acting in between writes back exactly what was alive when it was read, and the new entry |
| `ProxyForward.ProxyState.WriteBack` | crates/rozum-core/src/share.rs:238-248 | The set is exactly the copy read before, whatever was written since; then the reply is formed |
| `ProxyAdmission.FitsIsGrant` | src/proxy.rs:200-220 | A queued request may be granted in the transition system if and only if the scheduler can admit it, the fast-lane rule included |
| `ProxyAdmission.AdmitIsGrant` | src/proxy.rs:302-305 | Asking the scheduler is the grant of the transition system or joining the queue, never shedding; counters and the requests behind the waiters agree afterwards |
| `ProxyAdmission.ReleaseIsEnd` | crates/rozum-core/src/concurrency.rs:419-440 | Dropping the guard of a request that ends is a run of the transition system: that end, then one grant for each woken waiter in the order of the scheduler; counters and the requests behind the waiters agree afterwards |
| `ProxyAdmission.GrantAll` | crates/rozum-core/src/concurrency.rs:394-417 | Grants for distinct waiting requests that fit together are a run, in their order, and change nobody else |
| `Admission.AdmissionScheduler.constructor` | crates/rozum-core/src/concurrency.rs:262-280 | Limit at least one, nobody admitted, nobody waiting |
| `Admission.AdmissionScheduler.BestAdmittable` | crates/rozum-core/src/concurrency.rs:222-238 | Nobody exactly when no waiter fits; otherwise one that fits, such that every other that fits is after it: by the fast lane, then by the shorter job, then by arrival |
| `Admission.AdmissionScheduler.TakeOut` | crates/rozum-core/src/concurrency.rs:395-400 | Nobody disconnected is left or taken; the waiter taken out fits and nobody left is preferred to it |
| `Admission.AdmissionScheduler.Take` | crates/rozum-core/src/concurrency.rs:202-210 | Issues a new live guard and leaves everything else as it was; the counters stay the number of live guards and go past neither the limit nor the reserved slot |
| `Admission.AdmissionScheduler.PutBack` | crates/rozum-core/src/concurrency.rs:212-218 | Retires exactly that guard and leaves everything else as it was; the saturating subtraction never saturates |
| `Admission.AdmissionScheduler.PumpOnce` | crates/rozum-core/src/concurrency.rs:394-416 | One turn: every waiter is left, served, disconnected, or the one best waiter whose hand-over failed; nobody disconnected is left or served; the guard issued is new and all others are as before; the queue shrinks or nobody fits; neither limit nor reserved slot is passed, and a limit already exceeded is not exceeded further |
| `Admission.AdmissionScheduler.Pump` | crates/rozum-core/src/concurrency.rs:394-417 | Ends with nobody parked who fits or was disconnected at the last turn; every waiter is still parked, served once, disconnected by a turn that was made, or the one waiter of a turn whose hand-over failed; nobody left behind is preferred to anybody served or refused; each is served before anybody it is preferred to; every guard held before is still held and the new ones are those handed out; the guards held never pass the limit or the reserved fast slot, and where a lowered limit is already exceeded nobody is admitted past it |
| `Admission.AdmissionScheduler.PumpLoop` | crates/rozum-core/src/concurrency.rs:394-417 | The loop as a record of its laps, one per turn: what each took out, served and left; the limit and the reserved slot are never passed |
| `Admission.BestFirstAt` | crates/rozum-core/src/concurrency.rs:222-238 | Of any two waiters served by one wake-up, the later one is not preferred to the earlier one |
| `Admission.AdmissionScheduler.Admit` | crates/rozum-core/src/concurrency.rs:287-325 | Grants exactly when a slot is free, sheds exactly when the bounded queue is full, never with queue_max 0, and otherwise parks at the end of the queue with a number larger than all before it; earlier guards and waiters are untouched |
| `Admission.AdmissionScheduler.Release` | crates/rozum-core/src/concurrency.rs:419-440 | Retires exactly this guard and no other, and wakes in order; no wakeup and no waiter is lost; while a lowered limit is still exceeded the guards drain and nobody is admitted |
| `Admission.AdmissionScheduler.Trip` | crates/rozum-core/src/concurrency.rs:330-334 | Lowers the limit by one, floor one, without waking anybody and without losing a wakeup |
| `Admission.AdmissionScheduler.RecoverStep` | crates/rozum-core/src/concurrency.rs:338-343 | Raises the limit towards the capacity and wakes in order, never past the new limit or the reserved slot, losing neither waiters nor guards |
| `Admission.AdmissionScheduler.SetLimit` | crates/rozum-core/src/concurrency.rs:347-351 | Moves the limit, floor one, and wakes in order, never past the new limit or the reserved slot, losing neither waiters nor guards |
| `Admission.AdmissionScheduler.SetCeiling` | crates/rozum-core/src/concurrency.rs:359-368 | Moves limit and capacity together, floor one, and wakes in order, never past the new ceiling or the reserved slot, losing neither waiters nor guards |
| `Admission.AdmissionScheduler.ParkedMeansBusy` | crates/rozum-core/src/concurrency.rs:282-325 | Whenever somebody is parked, somebody holds a guard whose release will wake the queue |
| `WorkTree.CopyTreeContents` | src/main.rs:8057-8074 | In whatever order entries are read: succeeds exactly when no file meets a directory, and then gives the merge of the trees without cache names: at every path what the source has there if no name on it is a cache's, else what was there before |
| `WorkTree.SnapshotWorkdir` | src/main.rs:8029-8034 | The snapshot is the tree without any entry named target or .git at any depth: at every path with such a name nothing, at every other what the tree has |
| `WorkTree.RestoreWorkdir` | src/main.rs:8038-8054 | The later tree's top-level caches plus the pruned snapshot, for every tree and snapshot, path by path |
| `WorkTree.SnapshotThenRestore` | src/main.rs:8029-8074 | For every original and later tree: caches of the later tree untouched, everything else the pruned original, equal to the original's sources if and only if none of them has a nested cache name; and what every path holds afterwards |
| `WorkTree.PruneFixpoint` | src/main.rs:8062-8064 | Pruning changes nothing if and only if no entry at any depth is named like a cache |
| `WorkTree.RestoredExactly` | src/main.rs:8029-8074 | The exact condition under which no source is lost |
| `WorkTree.RestoredParts` | src/main.rs:8038-8054 | Sources come from the snapshot and caches from the later tree |
| `WorkTree.RestoreTwice` | src/main.rs:8038-8054 | Two restores in a row leave what one leaves, for every tree and every snapshot |
| `WorkTree.RestoreForgets` | src/main.rs:8038-8054 | Only the top-level caches of the tree before a restore matter |
| `Chain.ExecAgent` | src/main.rs:7755-8023 | For all answers of the outside world: exit code 0 if and only if the last check found the files in order, outright or once healed, and the judge, when in use, said Pass, or nothing was checked and the last agent run exited 0, and otherwise the agent's own code or 1; at most links + rounds runs; the chain ends only on a success that has just been recorded as a pass, on a run with nothing to check, or with every link recorded, skipped or unreachable; every checked link has its outcome, except one whose later run had nothing to check; and the log keeps every promise of `Chain.EventAt` |
| `Chain.EventAt` | src/main.rs:7809-8008 | Every event of a log is what the outside world answered and obeys the rules: a run sees exactly the prompt, tree and resident model due to it and never follows a success or an unchecked run; a check is of the last run's files with the judge exactly when it is in use; a middle link runs only if its record was weighed and found fine, and only middle links are weighed; an outcome is that of the check just made once the rounds are spent |
| `Chain.CheckedExactly` | src/main.rs:7872-7939 | A check is of what the last run wrote, made only when there is something to check; its structural half is yes if and only if the first check says so or the manifest was healed and the second does; the judge is asked if and only if that is yes and no target was derived or given |
| `Chain.FirstSees` | src/main.rs:7976-8005 | The first run of a link after others have run: with a snapshot it sees the original prompt and, at every path, the original files beside the caches left at the top; without one, exactly what the last check left, with that check's evidence in its prompt |
| `Chain.RepairSees` | src/main.rs:7952-7976 | A repair round sees what the failed check before it left, the healed manifest included, with that check's evidence in its prompt |
| `Chain.RecordedExactly` | src/main.rs:7940-7986 | A pass is recorded if and only if the check just made found the files in order and the judge, when asked, said Pass; nothing certain if and only if the judge said Unknown or the executor could not be restored; otherwise a failure |
| `Chain.RoundsUsedUp` | src/main.rs:7840-7986 | Anything but a pass is recorded of a check only in the last round allowed, which is the first one of every link but the last |
| `Chain.RunChain` | src/main.rs:7809-8008 | The loop over links keeps transcript and launcher variables in step and ends for one of the three reasons |
| `Chain.Prepare` | src/main.rs:7764-7808 | The target is derived on the first link when the switch succeeds; the snapshot exists exactly for multi-link chains that could take one, and is the pruned tree |
| `Chain.OpenLink` | src/main.rs:7810-7833 | A link that is skipped or unreachable changes neither files nor prompt and counts as dealt with |
| `Chain.Weigh` | src/main.rs:7816-7823 | The leader and the last link are never dropped by track record, whatever the statistics say |
| `Chain.Load` | src/main.rs:7824-7833 | A link runs only with the gateway on its model; one that cannot be loaded is passed over |
| `Chain.RunLink` | src/main.rs:7840-8007 | One run unless it is the last link, up to all rounds if it is; it ends the chain for a reason or leaves a clean start to the next link |
| `Chain.Attempt` | src/main.rs:7859-7976 | One run and its check; the run stays unchecked only when there is no gate |
| `Chain.BringBack` | src/main.rs:7842-7858 | After a judge took over, the executor is back or the link is recorded without a verdict |
| `Chain.RunAgent` | src/main.rs:7859-7871 | Each agent run is on its link's own model, with the tree and prompt that are logged |
| `Chain.Settle` | src/main.rs:7895-7976 | A pass is recorded at once as the last event; a failure becomes the evidence of the next prompt and records nothing |
| `Chain.Evaluate` | src/main.rs:7895-7953 | A check passes only if the structural half does and the judge, when in use, says Pass; the verdict stays until the next check, and the files are what the check left |
| `Chain.Judge` | src/main.rs:7910-7939 | The verdict is the judge's own, Unknown if it could not be loaded, and the gateway may stay on its model |
| `Chain.IndependentJudge` | src/main.rs:7015-7017 | The last link that is not the executor, none exactly when all are |
| `Chain.Switch` | src/main.rs:7826-7832 | The launcher's idea of the resident model changes exactly when the switch succeeds |
| `Chain.EnsureResident` | src/main.rs:7842-7858 | On success the gateway serves the link's model; a failure is a failed switch to it |
| `Chain.Record` | src/main.rs:7978-7986 | Adds the link's one outcome and settles the link |
| `Chain.HandOver` | src/main.rs:7976-8005 | Records the exhausted link and stops on the last one, else leaves a clean start |
| `Chain.Restart` | src/main.rs:7993-8003 | With a snapshot: the original prompt and the restored tree; without: the repair prompt and the files as they are |
| `Chain.OneOutcomePerLink` | src/main.rs:7940-7986 | At most one outcome per link reaches the statistics |
| `Chain.CleanStart` | src/main.rs:7809-7858 | Every run of a multi-link chain is on its own link's model; rounds above 0 only on the last link; a link's first run sees the original prompt if and only if there is a snapshot or nobody ran before, and then the original tree or its pruned restoration |
| `TrackRecord.UnknownChangesNothing` | src/main.rs:7093-7098 | An Unknown outcome never changes the skip decision |
| `TrackRecord.FailureNeverUnskips` | src/main.rs:7045-7051 | A failure never turns skip into keep, saturation included |
| `TrackRecord.PassNeverSkipsExactly` | src/main.rs:7045-7051 | A pass never turns keep into skip if and only if min_pass_pct times the larger of 1 and min_samples is at most 100, saturation included |
| `TrackRecord.DefaultsAreTight` | src/main.rs:7043-7051 | The defaults 5 and 20 meet that bound with equality |
| `TrackRecord.DroppedExactly` | src/main.rs:7045-7098 | After any history of outcomes a model is dropped if and only if at least min_samples of them are verified and a hundred times the passes are less than min_pass_pct times the verified, and fit 64 bits |
| `TrackRecord.FailuresDrop` | src/main.rs:7045-7051 | With a floor above zero enough failures in a row drop any model, with the exact number it takes |
| `TrackRecord.OnlyTheRate` | src/main.rs:7045-7051 | With samples enough, any number of copies of the evidence decides as one does |
| `TrackRecord.RecordsOne` | src/main.rs:7102-7123 | If nobody writes in between, recording adds exactly one outcome to its key and changes no other key |
| `TrackRecord.DroppedByItsHistory` | src/main.rs:7043-7123 | After any sequence of launches one after another, the rule applied to the file is the rule applied to the outcomes of that key alone |
| `TrackRecord.RacesStayHonest` | src/main.rs:7102-7123 | passes never exceed attempts for any key, however launches interleave load and write, lost files included |
| `TrackRecord.RacesNeverInvent` | src/main.rs:7102-7123 | Races may lose evidence but the file never shows more outcomes than were recorded |
| `TrackRecord.SerialLosesNothing` | src/main.rs:7102-7123 | Without races it shows exactly as many, so the bound is attained |
| `Debounce.EntryRoundTrip` | src/doctor.rs:206-212 | The stored posted, pending and streak text reads back exactly |
| `Debounce.Refines` | src/doctor.rs:226-261 | For any confirm >= 1 and any history: a line at a tick if and only if the last confirm statuses are equal and differ from what was last told; the stored text means told status and run length |
| `Debounce.StoredAlone` | src/doctor.rs:196-268 | What the file says of a service, and whether a line is due for it, depends on the history of that service alone |
| `Debounce.ServiceRefines` | src/doctor.rs:196-268 | The same for each service of a whole roster over any sequence of ticks, read from and written to the persisted map |
| `Debounce.CurrentExactly` | src/doctor.rs:213-218 | Considered are exactly the services that this machine knows and the report has, each with the last status reported for it |
| `Debounce.ReportedService` | src/doctor.rs:196-268 | For any sequence of reports: a known service reported at every tick gets a line exactly by the window of its reported statuses, over what was told before, and the file keeps its text |
| `Debounce.StrangersAreSilent` | src/doctor.rs:213-218 | A service the machine does not know is never in the file |
| `Debounce.DetailOfFirst` | src/doctor.rs:250-255 | The detail of a line is that of the first check with the name |
| `Debounce.ToldIsLastLine` | src/doctor.rs:234-260 | The before of a line is the after of the previous line |
| `Debounce.ToldIsBaseline` | src/doctor.rs:230-235 | Before any line it is the first status on a first run, and unknown for a service that appears later |
| `Debounce.FlappingIsSilent` | src/doctor.rs:243-249 | With confirm >= 2 no line at any tick whose status differs from the tick before, so alternation stays silent forever |
| `Debounce.RunLengthIsWindow` | src/doctor.rs:245-246 | The streak reaches confirm if and only if the last confirm statuses are equal |
| `Debounce.LinesExactly` | src/doctor.rs:224-261 | The lines of a tick are exactly those that are due, one per service, in name order |
| `Debounce.SortedNames` | src/doctor.rs:224-225 | The names in order, each once |
| `Debounce.Visit` | src/doctor.rs:226-261 | The loop over names computes the lines and the next state together |
| `Debounce.Announcer.Transitions` | src/doctor.rs:196-268 | One tick of the persisted machine: the new state and the lines in name order, for exactly the services that are known and reported |
| `Sandbox.ToSeatbeltRules` | src/sandbox.rs:231-280 | Under last match wins: writable exactly under a writable root or a device and under no secret; readable exactly under no secret |
| `Sandbox.DevicesExactly` | src/sandbox.rs:246-267 | The device nodes are the six by name and /dev/ttys with a decimal number behind it, no others |
| `Sandbox.ToDockerMounts` | src/sandbox.rs:346-370 | The mounts are exactly the writable roots read-write, the read-only roots not at or under a writable one, and a mask for each secret root strictly under a writable one |
| `Sandbox.RoNeverShadows` | src/sandbox.rs:352-360 | A read-only mount is never more specific than a writable one covering the same path |
| `Sandbox.Agreement` | src/sandbox.rs:346-370 | With no secret root equal to or above a writable one, the most specific mount makes a path writable exactly where the policy does |
| `Sandbox.AgreementExactly` | src/sandbox.rs:346-370 | That condition is necessary too |
| `Sandbox.RenderBoth` | src/sandbox.rs:231-370 | The two renderings of one policy agree on every path but device nodes if and only if that condition holds, for every policy |
| `Sandbox.SecretsHiddenExactly` | src/sandbox.rs:346-370 | The mounts hide every secret from reading if and only if no secret root equals or contains a writable one and none meets a read-only mount outside the writable ones |
| `Sandbox.SbplRoundTrip` | src/sandbox.rs:618-622 | A quoted path reads back exactly and ends at its own quote, whatever follows |
| `JsonString.Print` | src/proxy.rs:686-702 | The loop prints the escaped form of the string between quotes |
| `JsonString.RoundTrip` | src/proxy.rs:686-702 | A reader of section 7 of RFC 8259, surrogate pairs included, gives the string back, for all strings |
| `CmdLauncher.FirstQuoted` | src/service.rs:221-229 | Finds a value with a double quote if and only if program, arguments, environment values or log path have one |
| `CmdLauncher.WindowsLauncherCmd` | src/service.rs:215-250 | Refused if and only if one of those has a double quote; otherwise the text of the launcher |
| `CmdLauncher.ScriptRoundTrip` | src/service.rs:231-249 | Under that condition environment, program, arguments and log read back exactly |
| `CmdLauncher.ReadsBackExactly` | src/service.rs:215-250 | Reading the launcher back gives what it was made from if and only if program, arguments, log and environment values fit on one line without a quote and keys have no quote, line break or equals sign either |
| `CmdLauncher.EqualsInKeyIsAmbiguous` | src/service.rs:232-238 | An equals sign in a key is accepted and makes two different launches print the same text, so the condition on keys is needed |
| `Plist.EscapeOnce` | src/service.rs:49-53 | The three replacement passes are one substitution: no entity is escaped twice |
| `Plist.LaunchdPlist` | src/service.rs:57-98 | Prints the document for program, arguments, environment and log |
| `Plist.DocumentRoundTrip` | src/service.rs:57-98 | For any well-formed fixed text, every argument, environment pair and both log paths read back, for all strings of characters that section 2.2 of XML 1.0 allows without carriage returns |
| `Plist.DocumentReadsBackExactly` | src/service.rs:57-98 | With line ends normalised first, as section 2.11 of XML 1.0 prescribes, everything reads back if and only if every value is such a string |
| `Plist.GatewayRoundTrip` | src/service.rs:74-97 | The same exact condition for the whole document this program writes for the gateway |
| `Plist.ReadsBackExactly` | src/service.rs:49-53 | With line ends normalised as section 2.11 of XML 1.0 prescribes, a value reads back if and only if it is made of allowed characters and has no carriage return |
| `Utf16.Encode` | src/service.rs:270-276 | Byte-order mark, then little-endian code units |
| `Utf16.RoundTrip` | src/service.rs:270-276 | Decoding gives the string back, surrogate pairs included |
| `LaunchArgs.ReorderLaunchArgs` | src/main.rs:3114-3172 | The loop pulls the program's own flags, each with its value, and nothing else up behind the first launch, in their order, and leaves the rest in its own; the first flag stands right behind launch with its value at its side; other argument lists are left alone |
| `LaunchArgs.FlagMoves` | src/main.rs:3143-3167 | The first own flag moves up behind launch: one of the five with a value together with the argument behind it, whatever that is; flag=value and each of the seven without a value alone; everything else is as if they had not been there |
| `LaunchArgs.NothingMoves` | src/main.rs:3143-3167 | Arguments that are none of these stay where they are, and so does everything behind a separator |
| `LaunchArgs.OnlyOwnPulled` | src/main.rs:3117-3167 | Only own flags and the values behind them are pulled, and none is left except behind a separator |
| `LaunchArgs.StablePartition` | src/main.rs:3143-3167 | The pulled and the remaining arguments are each in original order and together are the tail |
| `LaunchArgs.Permutation` | src/main.rs:3114-3172 | Nothing is lost, added or duplicated, for every argument list |
| `LaunchArgs.VerbatimSuffix` | src/main.rs:3144-3149 | Everything from the first separator that is not a flag's value ends the result unchanged |
| `LaunchArgs.ReorderIdempotent` | src/main.rs:3114-3172 | Reordering twice is reordering once, a dangling value flag included |
| `Tail.ReadAfterIsSuffix` | crates/rozum-meeting/src/meeting/store.rs:1602-1627 | Reading after a cursor gives exactly the suffix of the log past it |
| `Tail.Follow` | src/main.rs:4899-4920 | Across read errors, missing rooms and appends, what is printed is every message after the starting cursor, once and in order |
| `Tail.StartUp` | src/main.rs:4887-4895 | Shows the last count messages; whatever the log grows to, what follows the cursor is exactly what the last start-up read had not seen |
| `Tail.RunTail` | src/main.rs:4869-4921 | With a given message: everything past it. Without: always a suffix of the log, and everything from the first message shown on if and only if something was shown or nothing was appended between the two start-up reads |
| `Spans.Braces` | scripts/rust-item-spans.py:16-44 | For every line of simple tokens the counts are those of its code, without strings, character literals and comment; for every line those of what the scanner takes for code |
| `RustLines.LineSeen` | scripts/rust-item-spans.py:16-44 | On lines whose strings hold no quote and whose character literals are one character or one escape, the scanner takes for code exactly what is code |
| `RustLines.SafeExactly` | scripts/rust-item-spans.py:16-44 | A token is read right in front of every simple line if and only if it is no string with an escaped quote and no character literal with a longer escape |
| `RustLines.FailingLine` | scripts/rust-item-spans.py:27-28 | A line that is one string, with an escaped quote and a brace in it, on which a brace is counted |
| `Spans.BodyEnd` | scripts/rust-item-spans.py:55-64 | The first line where opened braces are matched, or a brace-less item ends with a semicolon, or one past the end of the file |
| `Spans.LeadStart` | scripts/rust-item-spans.py:65-67 | The longest run of comment and attribute lines above the header |
| `Spans.FindSpans` | scripts/rust-item-spans.py:50-75 | Bodies are in range, disjoint and increasing, each ends where it should, and every wanted header line is reported or lies inside a reported body |
| `Spans.OverlapExactly` | scripts/rust-item-spans.py:65-72 | Two spans with leading lines overlap if and only if every line from the earlier item's last one to the later header starts like a comment or attribute |

## Left out

- HTTP transport, header copying, streamed bytes, the debug tap and the room-activity note: the body that is sent is one opaque value per request.
- Wall-clock time: sleeps, jitter, back-off lengths, health and window polls are delays of any length; the clock of the poison set is an arbitrary number that other processes may move.
- The poison file: reading it and renaming a new one into place are one action each, and other processes may replace its contents at any point; two writers of one process mixing up their common temporary file is not modelled.
- Widths: crash and attempt counters are unbounded, so a wrap of a 32-bit count, or of a 64-bit statistic, is not modelled; the saturating products of the skip rule are.
- The order of admission inside the proxy's transition system: any queued request that fits may be granted, which covers every order; the order itself is proved in `Admission`.
- Inert admission guards at shutdown, mutex poisoning and the observability counters of the scheduler.
- `src/main.rs` before the gate: the ungated launch, argument setup, prompts, hints and log wording; the background manifest healer is taken to be off, the in-loop heal is an oracle.
- The JSON of the judge's reply and of the derived target: the verdict is an oracle with Pass, Fail and Unknown.
- A failed gateway switch is taken to leave the resident model as it was.
- Symbolic links, I/O failures and partial copies: trees are finite and the snapshot lies outside the working directory.
- Statistics keys and their JSON text; a file that no longer parses is read as empty, as the source does.
- The wording of debouncer lines; writing the state file always succeeds.
- Sandbox network rules, limits, process rules, environment-derived paths and the canonicalisation of paths: a policy is given as component sequences. Docker refusing two mounts on one path is not modelled.
- `cmd.exe` beyond literals: the reader of launchers knows quotes and doubled percent signs, no delayed expansion.
- Debounce.EntryRoundTrip: covers statuses without a bar and streaks of 32 bits, which is what the program ever stores.
- `systemd_unit`, which joins arguments with spaces and has no inverse, and the meeting daemon's plist, which differs in fixed text only.
- `parse_msg_id`; message dates are ordered numbers, as the day files' names order.
- The item pattern of the span scanner is an arbitrary function of the line; white space is the ASCII kind; raw strings, byte strings, block comments and literals over several lines are not in the grammar of lines: braces in a block comment are counted, and the grammar takes them for code.
- The command line, service installs, model download, configuration tables and service probes: lookups and calls of external programs.
