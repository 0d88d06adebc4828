# Sin90: the reconciler, the proposal gate, the engine ladder and the text it lets through

Sin90 is a personal operating system's daemon. Four of its parts carry promises that no single
function can keep, and this project models those parts and proves the promises.

* **The outbox reconciler.** Routine edits and Review finalizations are mirrored into versioned
  outbox rows; a pump sends them to a remote kernel, one call in flight. `Outbox` is the store side,
  `Protocol` the conversation as a state machine in which edits, corrections, lost replies and
  restarts may come at every point, `Reconciler.Daemon` the code as it runs. Every method of the
  daemon ensures that what it did is a run of the state machine, so what `ProtocolSafety` proves of
  all runs holds of the code. `FullReconcile` and `Convergence` are the comparison against the
  kernel's list and where it leads. `PumpTick` is the loop that drains and compares: its whole life
  is one run too (`PumpTick.LoopIsRun`). `StoreLaws`, `ProtocolLaws` and `PumpLaws` say what single
  writes, sends, replies and passes do, in the tables themselves.
* **The proposal gate.** `Gate` is the batch validator with its overlay, `StoreApply` the snapshot it
  reads and what applying writes, `GateTheorems` the proof that the overlay is the sequential truth,
  `GateHistory` what can become of a task over any sequence of accepted proposals. `GateMeaning` says
  which batches those are and what a refusal means, `ApplyLaws` what accepting writes. `ProposeReply`,
  `Ordering`, `Proposing`, `ProposeReads`, `ProposeSettles` and `ProposeLaws` are the scheduling
  generator, whose batches the gate accepts and the store can apply.
* **The engine ladder.** `Ladder` is one item's way down the engines over the state a run shares,
  `LadderTheorems` what holds of whole runs against a model that answers anything at any time,
  `LadderFailures` what each answer and failure does to the item and to the run.
* **Text and choice.** `Text`, `TitleSpacing`, `Facts`, `Narrative`, `NarrativeSafety` and `NarrativeTheorems` are the
  weekly narrative: a tokenizer, renderer and flattener whose output holds no number the program did
  not write. `TextLaws` says what cleaning keeps, `FactsReading` which number stands where,
  `NarrativeAccepts` which narratives are accepted and what they become. `Summarizing` is the run around
  it, `SummarizeLaws` its bodies read back line by line. `Reflexes` is the rule that matches titles by
  words and character pairs, `ReflexLaws` how a title is read and who is chosen.

The modules named after laws, meanings and readings state results in the data and with literal values,
not through the functions that compute them, so that a function that computed something else would not
satisfy them.

Code that changes state is imperative here too: `Reconciler.Daemon`, `PumpTick.Pump`, `Gate.Working`,
`Ladder.RunState` and `Proposing.Sink` are classes whose methods are tied to specification functions,
and the lemmas are about those functions. `dafny verify dfyconfig.toml` checks everything.

## Assumptions

* One pump. The kernel executes calls in the order it receives them, and a call whose reply was lost
  has either landed or never will by the time the pump makes its next one. Nobody else writes a
  memory with one of Sin90's markers, and no other client edits schedules under Sin90's prefix, except
  that the human may suspend a schedule and the system may disable one. A success reply, and "not
  found" in answer to a delete, are truthful.
* Store operations are atomic. Rows are kept in creation order, and a row's id is its position.
* Ids are upper-case ASCII, as ULIDs are (`Canonical`); the kernel's keys hold no upper-case letter
  (`LowerKey`). `KernelKey.CaseOnlyIdsCollide` shows what the first of these rules out.
* The digest of a body is a function; nothing is assumed of it but, where stated, that it prints as 64
  lower-case hex characters.
* `char::is_numeric` is a parameter; the proofs use only that the line end and the two full-width signs
  that replace `<` and `&` are not numeric (`NumericClass`).

## Where the code and its comments differ

The model follows the code.

* The backoff is the documented schedule only as long as the 32-bit cast does not matter:
  `Protocol.BackoffSchedule` is the exact condition, `Protocol.BackoffWraps` a case outside it.
* A full pass that fails after the first success is not backed off: `PumpTick.FailureIsDueAgain`.
  `PumpTick.StartupBacksOff` is the case where it is.
* Reading the parking bit once per batch differs from reading it before every operation in one case,
  which `GateHistory.ParkingBitExact` states exactly and `GateHistory.ParkingBitLags` exhibits.
* `sanitize_inline` is documented to collapse all whitespace to one space. It leaves single spaces
  exactly for the titles in which, as their reader sees them, no line end has whitespace beside it:
  `TitleSpacing.SingleSpacedExactly`. `TitleSpacing.SpacesCanDouble` gives two titles that do not.

## Model

| member | source | states |
|---|---|---|
| KernelKey.KeyRoundTrip | src/store/repo.rs:765-773 | a kernel key under the prefix gives back the id it was made from, and the id the key |
| KernelKey.RoutineKeyInjective | src/store/repo.rs:765-773 | different upper-case ids never share a schedule |
| KernelKey.CaseOnlyIdsCollide | src/store/repo.rs:765-773 | ids that differ in letter case only do: why the alphabet matters |
| Cron.NormalizeCronExact | src/adapter_agent24/reconciler.rs:798-803 | two expressions compare equal exactly if their words do, letter case aside |
| Cron.NormalizeCronStable | src/adapter_agent24/reconciler.rs:798-803 | normalizing twice changes nothing more |
| Outbox.UpsertOutboxEffect | src/store/repo.rs:857-899 | a write leaves exactly one live row for its key, holding its payload, and touches no other row |
| Outbox.RoutineWritesKeepInv | src/store/repo.rs:1833-2236 | creating, editing and moving a Routine keep every live row equal to what its Routine now says |
| Outbox.OtherWritesKeepInv | src/store/repo.rs:3624-3713 | so do finalizing a Review and rows of other layers |
| Outbox.CorrectionsKeepInv | src/store/repo.rs:2330-2420 | so do both full-reconcile corrections, however stale the list they were decided on |
| StoreLaws.CreateStores | src/store/repo.rs:1833-1930 | creating stores an active Routine with the given cron and zone and queues its upsert |
| StoreLaws.UpdateStores | src/store/repo.rs:2006-2152 | an edit that changes something stores the new cron and zone, and queues them |
| StoreLaws.MoveStores | src/store/repo.rs:2161-2236 | which status changes are legal, what each stores, and that retiring queues a delete |
| StoreLaws.FinalizeStores | src/store/repo.rs:3624-3713 | a Review is finalized once; one whose body is not blank is queued with its summary, a blank one is not |
| StoreLaws.CorrectionsQueue | src/store/repo.rs:2330-2420 | which corrections queue a row, and with what |
| StoreLaws.WriteBacks | src/store/repo.rs:2437-2541 | what the three guarded write-backs change, and that they change nothing at another version |
| Protocol.BackoffSchedule | src/adapter_agent24/reconciler.rs:339-343 | the wait is 2^(n-1) seconds up to 300 if and only if the 32-bit cast does not matter |
| Protocol.BackoffWraps | src/adapter_agent24/reconciler.rs:339-343 | a count for which it does: the wait falls back to one second |
| Protocol.DueFrom | src/store/repo.rs:2255-2278 | the batch is every due pending row once, oldest first, with what it held when read |
| Protocol.AnswerKeepsInv | src/adapter_agent24/reconciler.rs:499-728 | settling a row by any reply keeps the whole invariant |
| Protocol.ReplyPolicy | src/adapter_agent24/reconciler.rs:635-728 | which replies stop the batch or the pump, which fail a row for good, and when it is tried again; a row that moved on is not touched |
| ProtocolLaws.OnlyCurrentIsSent | src/adapter_agent24/reconciler.rs:499-634 | over any run: what a begun call sends is the row as it is at that moment, at its version, and for a Routine what its Routine says now; a row not pending at the version read sends nothing and changes nothing |
| ProtocolLaws.BeginSends | src/adapter_agent24/reconciler.rs:499-634 | which rows lead to which call, by kind and grant |
| ProtocolLaws.BeginWritesHere | src/adapter_agent24/reconciler.rs:509-558 | an unreadable row fails for good; a row of an unknown kind waits an hour |
| ProtocolLaws.BatchIsDue | src/store/repo.rs:2255-2278 | a batch holds no row before its time, and every pending row whose time has come |
| ProtocolLaws.ReplyOutcomes | src/adapter_agent24/reconciler.rs:635-728 | what each reply writes to its row: done, failed and why, or retried, and when |
| ProtocolLaws.ReplyMoves | src/adapter_agent24/reconciler.rs:635-759 | which replies go on with the batch, end it, or stop the pump for good |
| ProtocolLaws.RecallOutcomes | src/adapter_agent24/reconciler.rs:302-332 | what each recall page concludes, and where the next one starts |
| ProtocolLaws.LandingDoes | src/adapter_agent24/reconciler.rs:560-634 | what executing a call does to the kernel: its own key or one memory, and which flags |
| ProtocolSafety.EnvKeepsInv | src/adapter_agent24/reconciler.rs:416-446 | so does anything another task writes at any moment of a call |
| ProtocolSafety.EnvKeepsReviews | src/store/repo.rs:3624-3713 | a Review has one row ever, nobody but the pump writes it again, and any memory with its marker holds its summary |
| ProtocolSafety.StepKeepsInv | src/adapter_agent24/reconciler.rs:499-759 | every event keeps the invariant |
| ProtocolSafety.RunKeepsInv | src/adapter_agent24/reconciler.rs:499-759 | every run does |
| ProtocolSafety.NoLostUpdate | src/adapter_agent24/reconciler.rs:416-446 | after any run, a Routine with nothing pending or failed is in the kernel exactly as it is now, or absent if retired |
| ProtocolSafety.AtMostOneMemory | src/adapter_agent24/reconciler.rs:85-117 | over any run with lost replies, restarts and retries, at most one memory carries a Review's marker, it holds the summary of the Review's row, and a done row names it |
| ProtocolSafety.NoStaleIntent | src/adapter_agent24/reconciler.rs:11-37 | a live scheduler row always says what its Routine says now; no retired Routine is queued for upsert, no other for delete |
| ProtocolSafety.DoneMeansAccepted | src/adapter_agent24/reconciler.rs:635-664 | over any run, a row turns done only in a step where the kernel holds, or remembers word for word, exactly the payload it has at exactly this version |
| ProtocolSafety.DrainDiscipline | src/adapter_agent24/reconciler.rs:499-759 | at any point of any run the pump writes only the row whose turn it is; a lost connection or revocation writes nothing; only unclassified failures count towards 20 |
| ProtocolSafety.DrainSettlesPrefix | src/adapter_agent24/reconciler.rs:745-759 | at any point of a drain, with anything interleaved, a prefix of the batch is settled in order and no row behind it was written |
| Reconciler.Daemon.WriteOutbox | src/store/repo.rs:857-899 | the table after a collapsing write is the specification's |
| Reconciler.Daemon.StoreRoutine | src/store/repo.rs:779-797 | a Routine and the row mirroring it are written together |
| Reconciler.Daemon.AddRoutine | src/store/repo.rs:1833-1930 | creating a Routine queues its upsert |
| Reconciler.Daemon.EditRoutine | src/store/repo.rs:2006-2152 | an edit that changes nothing, or of a retired Routine, writes nothing |
| Reconciler.Daemon.MoveRoutine | src/store/repo.rs:2161-2236 | a legal transition queues an upsert, or a delete on retirement |
| Reconciler.Daemon.CloseReview | src/store/repo.rs:3624-3713 | a Review is finalized once, and queued unless its body is blank |
| Reconciler.Daemon.EnqueueUpsertForRoutine | src/store/repo.rs:2330-2362 | re-reads the Routine; leaves a retired one, or one already queued, alone |
| Reconciler.Daemon.EnqueueDeleteForOrphan | src/store/repo.rs:2382-2420 | its counterpart for a kernel key without a Routine |
| Reconciler.Daemon.SetHeld | src/store/repo.rs:2559-2579 | the column of suspended Routines is cleared and then set for exactly the given ids |
| Reconciler.Daemon.FindMarker | src/adapter_agent24/reconciler.rs:302-332 | finds the newest memory with the marker in a scanned range, or none |
| Reconciler.Daemon.CollectDue | src/store/repo.rs:2255-2278 | the loop over the table collects exactly the due batch |
| Reconciler.Daemon.SettleRow | src/adapter_agent24/reconciler.rs:635-728 | the reply's class decides the row and the batch, guarded by id, status and version |
| Reconciler.Daemon.CallScheduler | src/adapter_agent24/reconciler.rs:560-634 | one call, with anything happening around it, is a run of the protocol |
| Reconciler.Daemon.ReadPage | src/adapter_agent24/reconciler.rs:302-332 | a page that is not the last settles nothing: only a scan to the end says absent |
| Reconciler.Daemon.PreCheck | src/adapter_agent24/reconciler.rs:302-332 | a `remember` is allowed only after the whole history was scanned |
| Reconciler.Daemon.RememberOnce | src/adapter_agent24/reconciler.rs:302-332 | finds or writes one memory, or is inconclusive; always a run of the protocol |
| Reconciler.Daemon.Dispatch | src/adapter_agent24/reconciler.rs:499-634 | the re-check before sending, the kinds, the missing grants; a row that is not pending at the version read is not sent and nothing changes |
| Reconciler.Daemon.ApplyOne | src/adapter_agent24/reconciler.rs:499-728 | one row, whatever happens around it, is a run of the protocol; with a healthy kernel it lands; if the row has moved on by the re-check, nothing happens but what others did |
| Reconciler.Daemon.DrainPending | src/adapter_agent24/reconciler.rs:745-759 | one drain is a run of the protocol; with a healthy kernel every due row lands |
| FullReconcile.Compare | src/adapter_agent24/reconciler.rs:870-930 | a local Routine needs correcting exactly if its schedule is missing, or not suspended and disabled, not a cron, of other words, in another zone or wrongly enabled; reports what the human suspended |
| FullReconcile.SpecMatchesExact | src/adapter_agent24/reconciler.rs:805-818 | the comparison is of words up to case and of zones up to space around them, for crons with a zone only |
| FullReconcile.QueueUpserts | src/adapter_agent24/reconciler.rs:870-940 | the first loop queues every mismatch and nothing else |
| FullReconcile.QueueDeletes | src/adapter_agent24/reconciler.rs:930-970 | the second queues every orphan under the prefix and nothing else |
| FullReconcile.ReconcileFull | src/adapter_agent24/reconciler.rs:832-970 | the whole pass, with edits between any two steps, is a run of the protocol; undisturbed it queues exactly what differs; the column is rebuilt from the snapshot it compared |
| Convergence.LandRowEffect | src/adapter_agent24/reconciler.rs:499-728 | landing a row settles it and moves its own schedule only |
| Convergence.LandAllEffect | src/adapter_agent24/reconciler.rs:745-759 | draining a batch puts every payload in force and moves nothing else |
| Convergence.AllConverges | src/adapter_agent24/reconciler.rs:975-982 | what one quiet pass and one healthy drain leave behind |
| Convergence.LandAllRemembers | src/adapter_agent24/reconciler.rs:745-759 | a healthy drain remembers every Review that was due |
| Convergence.ReconcileOnce | src/adapter_agent24/reconciler.rs:975-982 | afterwards every unsuspended local Routine has a cron with its words and zone, enabled as it says and not disabled; what differed is exactly what was corrected; every orphan is gone, every foreign key as it was, and the column names exactly the Routines held suspended |
| Convergence.SecondPassIsIdle | src/adapter_agent24/reconciler.rs:870-970 | from there a second full pass queues nothing and writes nothing but the column |
| PumpTick.Drain | src/adapter_agent24/reconciler.rs:1045-1049 | the drain of a tick; with a healthy kernel every due row lands |
| PumpTick.FullPass | src/adapter_agent24/reconciler.rs:1051-1086 | the pass of a tick: its three endings, and undisturbed every mismatch queued |
| PumpTick.Pump.Note | src/adapter_agent24/reconciler.rs:1057-1086 | what a pass that succeeds, fails or is revoked does to the books |
| PumpTick.Pump.DoTick | src/adapter_agent24/reconciler.rs:1039-1089 | a tick is a run of the protocol that drains first and, exactly if its books make a pass due, runs the full pass on what the drain left, whatever became of the drain short of revocation |
| PumpTick.Pump.Loop | src/adapter_agent24/reconciler.rs:1112-1132 | each tick goes on where the one before left store, kernel and books, until the ticks run out or the kernel revokes |
| PumpTick.LoopIsRun | src/adapter_agent24/reconciler.rs:1112-1132 | the whole life of a pump is one run of the protocol |
| PumpTick.LoopIsSpaced | src/adapter_agent24/reconciler.rs:1051-1132 | the passes of that life are spaced by the interval after a success and by the backoff before the first |
| PumpTick.PassesAreSpaced | src/adapter_agent24/reconciler.rs:1051-1085 | over any run, a pass that follows a success starts an interval or more after it; until the first success each waits out the backoff |
| PumpTick.FailureIsDueAgain | src/adapter_agent24/reconciler.rs:1051-1085 | after the first success a failed pass is due again on every tick |
| PumpTick.StartupBacksOff | src/adapter_agent24/reconciler.rs:1051-1085 | before it, exactly when its backoff has passed |
| PumpLaws.PassExactly | src/adapter_agent24/reconciler.rs:1039-1132 | over any life of the pump: a tick makes a pass if and only if its drain did not stop the pump and the passes made so far make one due; and what stops the pump |
| Transitions.Left | src/core/transitions.rs:121-147 | no change is left exactly in the terminal statuses |
| Gate.DupesIff | src/core/proposal.rs:715-726 | passes exactly the lists without repetition; the refusal names the first repeated entry |
| Gate.RejectDupes | src/core/proposal.rs:715-726 | the loop over a growing set is that check |
| Gate.CheckAlloc | src/core/proposal.rs:737-764 | the allocation loop with its saturating sum |
| Gate.AllocExact | src/core/proposal.rs:737-764 | accepts exactly the non-empty lists of shares from 1 to 100, one per direction, that total at most 100 |
| Gate.Working.constructor | src/core/proposal.rs:357-380 | an empty overlay stands for the snapshot itself |
| Gate.Working.TaskStatusOf | src/core/proposal.rs:381-386 | reads the status the overlay stands for |
| Gate.Working.TaskDirectionOf | src/core/proposal.rs:390-395 | reads the direction the overlay stands for |
| Gate.Working.ReviewBodyHash | src/core/proposal.rs:401-406 | reads the digest the overlay stands for |
| Gate.Working.SetTask | src/core/proposal.rs:387-389 | changes one status in what the overlay stands for |
| Gate.Working.SetTaskDirection | src/core/proposal.rs:396-398 | changes one direction |
| Gate.Working.SetReviewHash | src/core/proposal.rs:407-409 | changes one digest |
| Gate.Working.ValidateOp | src/core/proposal.rs:448-679 | every arm: the plain check on the state the overlay stands for, and exactly its effect |
| Gate.Working.ValidateAssign | src/core/proposal.rs:546-627 | the five checks on assigning a direction, in order |
| Gate.Working.ValidateDraft | src/core/proposal.rs:629-676 | the seven checks on a review body, in order |
| Gate.Validate | src/core/proposal.rs:433-446 | the batch verdict is that of checking and applying in turn |
| GateMeaning.AcceptedExactly | src/core/proposal.rs:433-713 | a batch is accepted if and only if every operation is in order where it stands: readable titles, open weeks, legal moves, top-level parents, shares, inbox tasks, fitting bodies |
| GateMeaning.RefusedFor | src/core/proposal.rs:433-764 | a refusal names the first operation that is not in order, and says truly what is wrong with it |
| GateMeaning.ClosedWeekIsRefused | src/core/proposal.rs:697-713 | a batch whose first bad operation targets a closed week is refused for that |
| GateMeaning.Utf8Exact | src/core/proposal.rs:152-158 | the size of a body is that of its UTF-8 encoding |
| StoreApply.BuildSnapshot | src/store/repo.rs:3772-3899 | the rows loaded agree with the store on everything the batch's checks look at |
| GateTheorems.CheckLocal | src/core/proposal.rs:448-679 | a check looks at its own rows only |
| GateTheorems.ValidateStored | src/store/repo.rs:3097-3107 | the verdict on the loaded rows is the verdict on the whole store |
| GateTheorems.ApplyTracks | src/store/repo.rs:3974-4517 | what the gate works out for an accepted operation is what applying it writes |
| GateTheorems.RecheckNeverFires | src/store/repo.rs:4395-4445 | the re-checks under the write lock never fire on an operation the gate accepted |
| ApplyLaws.MoveWrites | src/store/repo.rs:4521-4555 | a status change is written exactly if it is legal and its week open, and changes the status alone |
| ApplyLaws.CarryWrites | src/store/repo.rs:3974-4517 | carrying closes the task where it was and puts a planned copy, with its direction and parent, in the target week |
| ApplyLaws.AssignWrites | src/store/repo.rs:4395-4445 | an assignment stores the direction and who parked it, if it parks |
| ApplyLaws.CreationWrites | src/store/repo.rs:3974-4517 | each new task in its place in the week, with its direction |
| ApplyLaws.ReorderWrites | src/store/repo.rs:3974-4517 | the given tasks get the given places, and nothing else moves |
| ApplyLaws.OthersWrite | src/store/repo.rs:3974-4517 | what the remaining operations write and when they fail |
| ApplyLaws.ParkedAre | src/store/repo.rs:3767-3899 | which tasks count as parked by the classifier, and whose proposals as the user's own |
| GateTheorems.OverlayIsSequential | src/core/proposal.rs:352-446 | the verdict and first error on a batch are those of checking each operation against the store the earlier ones left |
| GateTheorems.InTurnConcat | src/core/proposal.rs:433-446 | a batch is its first part and then its second on the state the first leaves |
| GateTheorems.ValidateConcat | src/core/proposal.rs:433-446 | so for non-empty parts the whole passes exactly if both do, with the same first error |
| GateHistory.ParkingBitExact | src/core/proposal.rs:594-610 | the stale parking bit matters exactly for a classifier batch that reassigns a task it parked itself |
| GateHistory.ParkingBitLags | src/core/proposal.rs:594-610 | such a batch |
| GateHistory.TaskHistory | src/core/transitions.rs:121-147 | over any sequence of accepted proposals: at most three status changes, terminal is final, directions only go none, parked, one real one |
| Ladder.Plan | src/ai/ladder.rs:35-53 | the steps of a capability |
| Ladder.RunState.constructor | src/ai/ladder.rs:94-105 | twenty calls, six hundred seconds |
| Ladder.RunState.CallModel | src/ai/ladder.rs:242-315 | one call: its record, and what its answer does to the run |
| Ladder.RunState.RunItem | src/ai/ladder.rs:151-322 | one item; each call has one record, written unless it produced and returned if it did |
| LadderFailures.WhenFailed | src/ai/ports.rs:261-316 | what each failure does: the item deferred and models off, the run aborted, the engine shut out, or the next step tried |
| LadderFailures.WhenAnswered | src/ai/ladder.rs:242-315 | what each answer does: produced, refused for privacy, or rejected |
| LadderFailures.FailureRules | src/ai/ladder.rs:151-322 | over any run: after a busy engine the item is deferred and every later one held back; after a lost connection all are aborted and nothing is called; an engine that is shut out is never called again |
| LadderFailures.BusyHoldsBack | src/ai/ladder.rs:233-308 | with a busy, rate-limited or unready engine every later item of the run is decided by the decisive rule or deferred |
| LadderFailures.OthersFallThrough | src/ai/ladder.rs:295-322 | any other failure leaves the next step to be tried |
| LadderTheorems.RunAll | src/ai/classify.rs:913-938 | the loop over items, sharing one run state |
| LadderTheorems.RunAccounting | src/ai/ladder.rs:77-105 | over any run, calls made and left add up to 20; none starts at or after the deadline, after an abort or a defer, or on an open circuit |
| LadderTheorems.ItemAccounting | src/ai/ladder.rs:107-149 | a record names the last engine that failed or was passed over; only the last can be good; "deterministic" and the privacy switch mean what they say |
| LadderTheorems.StickyDefer | src/ai/ladder.rs:233-241 | once models are off, every later item is decided by the decisive rule or deferred |
| LadderTheorems.ExecutiveOnlyIfAllowed | src/ai/ladder.rs:30-53 | the executive engine is called only with a port, remote access and the switch |
| LadderTheorems.ItemUsage | src/ai/ladder.rs:242-290 | one record per call, in order, carrying exactly the usage of the replies received |
| LadderTheorems.ProducedFrom | src/ai/ladder.rs:151-322 | a produced value is the parser's or the rule's, of this item |
| Reflexes.FinalizeWord | src/ai/classify.rs:164-170 | keeps a run as a word exactly if it is long enough and holds a letter |
| Reflexes.Tokenize | src/ai/classify.rs:172-193 | exactly the maximal runs that are words, lower-cased, and all adjacent CJK pairs |
| Reflexes.R2Reflex | src/ai/classify.rs:105-159 | decides if and only if one candidate alone has the highest overlap and clears the threshold |
| Reflexes.OrderDoesNotMatter | src/ai/classify.rs:105-159 | the decision is independent of the candidates' order |
| ReflexLaws.ChoosesExactly | src/ai/classify.rs:105-159 | the choice is the candidate that shares strictly more words and pairs with the title than any other, and at least one word or two pairs; none otherwise |
| ReflexLaws.OneStretch | src/ai/classify.rs:164-193 | a stretch of letters and digits is one word in lower case, if three long with a letter, else none |
| ReflexLaws.WordsApart | src/ai/classify.rs:172-193 | any other character separates: words on either side are read on their own |
| ReflexLaws.PairsCons | src/ai/classify.rs:172-209 | a character adds its pair with the next one, if both are CJK, and no other |
| ReflexLaws.CandidateReads | src/ai/classify.rs:105-130 | a candidate is read as its title and its area, with nothing across the two |
| Reflexes.R1Reflex | src/ai/classify.rs:84-92 | decides exactly if there is a history and all of it agrees |
| Reflexes.ParseClassifyReply | src/ai/classify.rs:407-466 | exactly which replies name a direction, which decline with which confidence, and which are bad output |
| Ordering.ReorderReflex | src/ai/propose.rs:200-214 | a stable sort by tier, share and age |
| Ordering.StableSortUnique | src/ai/propose.rs:200-214 | there is only one |
| Ordering.ReorderIsFixed | src/ai/propose.rs:200-214 | the rule leaves its own answer alone |
| ProposeLaws.OrderSays | src/ai/propose.rs:179-214 | in the order of the rule, started before planned before backlog, then the larger share, then the older |
| ProposeLaws.ShareIs | src/ai/propose.rs:200-214 | a task's share is that of the first allocation of its direction |
| ProposeReply.CleanIsTidy | src/ai/propose.rs:466-509 | cleaned text is one line of visible characters with single spaces inside |
| ProposeReply.KeyedAreDistinct | src/ai/propose.rs:90-100 | no two candidates share a key |
| ProposeReply.DedupeOrBadOutput | src/ai/propose.rs:354-362 | passes exactly the lists without repetition |
| ProposeReply.ParseProposeReply | src/ai/propose.rs:371-446 | exactly which replies are usable, and what they decide |
| ProposeReply.OrderIsComplete | src/ai/propose.rs:393-409 | the order is a permutation of the week's tasks, the model's first and the rest as they were |
| ProposeReply.ChosenIsDistinct | src/ai/propose.rs:383-391 | no task is carried twice, and only candidates are |
| ProposeLaws.UsableExactly | src/ai/propose.rs:371-446 | a reply is usable if and only if it repeats no key, names only what was offered, and keeps to its limits |
| ProposeLaws.CarrySays | src/ai/propose.rs:383-391 | the n-th "p" key carries the n-th candidate |
| ProposeLaws.OrderKeySays | src/ai/propose.rs:393-409 | the n-th "w" key puts the n-th task of the week in its place |
| ProposeLaws.NewTaskSays | src/ai/propose.rs:410-446 | a new task has the cleaned title and the direction of its key |
| ProposeLaws.CleanKeepsWords | src/ai/propose.rs:466-509 | cleaning keeps the words of what is seen; only what takes up no room is lost |
| Proposing.CarryReflex | src/ai/propose.rs:171-177 | exactly the planned and started tasks are carried |
| Proposing.GapDirections | src/ai/propose.rs:132-164 | exactly the allocated, open, unparked directions without a task in the week, each once |
| Proposing.RuleDecision | src/ai/propose.rs:738-749 | the rule carries everything carryable, orders by the stable sort and starts nothing |
| ProposeLaws.CandidatesSay | src/ai/propose.rs:921-1006 | which tasks are on offer to be carried, and which to be ordered, in what order |
| ProposeLaws.OfferSays | src/ai/propose.rs:132-164 | for which directions a new task is offered: none that a pending proposal serves |
| Proposing.ReadTurns | src/ai/propose.rs:720-737 | each step of the ladder is given the parse of its own reply |
| Proposing.Sink.SubmitOne | src/ai/propose.rs:640-689 | a proposal and its row go in together, or only a row that says whether the dry run refused it or the store failed |
| Proposing.Split | src/ai/propose.rs:762-870 | which sub-proposals are attempted, skipped or refused, and the row of each |
| ProposeLaws.AttemptsSay | src/ai/propose.rs:755-781 | which sub-proposals a decision leads to, in which order, with which operations |
| ProposeLaws.RowsSay | src/ai/propose.rs:640-689 | the row of each: whose reply, whose usage, and what it says of a refusal |
| ProposeLaws.OutcomeSays | src/ai/propose.rs:782-910 | what a run reports, records and submits for each outcome of its item |
| Proposing.AttemptUsage | src/ai/propose.rs:640-663 | over any number of attempts a reply's usage is counted once |
| Proposing.ParsedIsOk | src/ai/propose.rs:371-446 | what a reply can decide stays within the candidates, and its new tasks have tidy titles and offered directions |
| Proposing.AttemptsPass | src/ai/propose.rs:755-781 | every batch of a decision passes the gate on the snapshot it was computed from |
| Proposing.ProposeDecide | src/ai/propose.rs:692-910 | one decision down the ladder on the parse of each step's own reply and the rule's one answer; what is attempted, recorded and reported follows from its outcome, and the rows sum to the usage of the replies received |
| Proposing.RunPropose | src/ai/propose.rs:921-1062 | the whole run: its offer, its rule, its one item of the ladder, and everything it writes and reports; and the early return that changes nothing |
| Proposing.NothingToAttempt | src/ai/propose.rs:991-1006 | where it returns early, no decision at all would have been submitted |
| Proposing.SubmittedPass | src/ai/propose.rs:921-1062 | every proposal a run submits passes the gate while its reads are still true |
| ProposeReads.ReadsAreTrue | src/ai/propose.rs:921-1006 | what a run reads from a store is true of that store when the gate looks |
| ProposeReads.SubmittedPassWhereRead | src/ai/propose.rs:921-1062 | every proposal a run submits passes the gate on the store the run read |
| ProposeReads.SubmittedApply | src/store/repo.rs:3974-4517 | and, accepted there, is applied to its last operation: no relation that only applying checks stands in its way |
| ProposeSettles.ReorderSettles | src/ai/propose.rs:762-773 | an accepted reorder, read back, is an order the rule asks nothing of |
| Decimal.ReadPrint | src/ai/summarize.rs:283-295 | a printed number reads back |
| Decimal.PrintRead | src/ai/summarize.rs:283-295 | digits without a leading zero are the printed form of what they read as |
| Text.Normalize | src/ai/summarize.rs:164-179 | the one-pass loop is its specification |
| Text.NormalizedIsNormal | src/ai/summarize.rs:164-179 | no format characters, and within a line no two spaces |
| Text.SanitizeInline | src/ai/summarize.rs:185-210 | the loops are their specification |
| Text.SanitizedIsInert | src/ai/summarize.rs:181-210 | a title can put no tag, entity, unit or title bracket, line end or control into a body |
| TextLaws.SanitizedReads | src/ai/summarize.rs:164-210 | a title's inline form, its escapes read back, is the title on one line with its markup replaced, no visible character lost, added or moved |
| TextLaws.TitleKeepsWords | src/ai/summarize.rs:164-210 | and it keeps the words of what is legible in it |
| TitleSpacing.SingleSpacedExactly | src/ai/summarize.rs:181-210 | a title comes out with single spaces only if and only if, as its reader sees it, no line end has whitespace beside it |
| TitleSpacing.SpacesCanDouble | src/ai/summarize.rs:181-210 | two titles that come out with a double space |
| Facts.BuildFacts | src/ai/summarize.rs:72-95 | every number of the draft as one keyed fact, in order |
| FactsReading.FactsSay | src/ai/summarize.rs:62-95 | read back: hours and minutes of each area and direction, the tasks done, and how often each routine fired and was completed, each under its own words and name |
| Facts.KeysDistinct | src/ai/summarize.rs:72-95 | every fact is found under its own key |
| Facts.ParseKeyExact | src/ai/summarize.rs:283-295 | accepts exactly the canonical decimal keys the program prints |
| Facts.FactsAreInner | src/ai/summarize.rs:72-100 | no caption or number can end its unit early |
| Narrative.CheckLiteral | src/ai/summarize.rs:254-280 | the scan over runs of numerals is its specification |
| Narrative.PlainLine | src/ai/summarize.rs:297-308 | trimming in turn until nothing changes drops all leading markers and spaces |
| Narrative.TakePiece | src/ai/summarize.rs:330-352 | the text up to the next placeholder, checked |
| Narrative.Flatten | src/ai/summarize.rs:354-365 | lines to paragraphs |
| Narrative.FillNarrative | src/ai/summarize.rs:311-365 | the whole function, loop over placeholders included |
| NarrativeSafety.FlattenOfToks | src/ai/summarize.rs:297-365 | splitting, trimming and re-joining never cuts a rendered unit |
| NarrativeSafety.AheadIsEnough | src/ai/summarize.rs:254-280 | three characters of lookahead decide what the whole rest would |
| NarrativeSafety.RunsAreClean | src/ai/summarize.rs:254-280 | after a passing scan no numeral is followed by a measure word |
| NarrativeSafety.RenderedSound | src/ai/summarize.rs:311-352 | nor across the boundaries of placeholders, nor after a unit |
| NarrativeTheorems.NarrativeIsSafe | src/ai/summarize.rs:311-365 | a stored narrative is clean literal characters and the spans of its placeholders in order, and obeys the measure rule |
| NarrativeTheorems.NumberProvenance | src/ai/summarize.rs:62-72 | every numeric character lies inside a byte-identical unit of the draft or a sanitized title |
| NarrativeTheorems.UnitsReadBack | src/ai/summarize.rs:98-100 | reading the brackets back gives exactly the units of the placeholders, in order |
| NarrativeTheorems.NarrativeIsPlain | src/ai/summarize.rs:297-308 | no line opens with a block marker and no tag or entity can start |
| NarrativeTheorems.KeysRoundTrip | src/ai/summarize.rs:283-295 | every printed key resolves to what it was printed for, and nothing else resolves |
| NarrativeAccepts.AcceptedExactly | src/ai/summarize.rs:311-365 | a narrative is accepted if and only if, as a text with slots, it is fine as a whole and in every part; it becomes its text with every slot filled, flattened; a refusal names something wrong with it |
| NarrativeAccepts.EveryTextReads | src/ai/summarize.rs:330-352 | every text is a text with slots, the last possibly left open |
| NarrativeAccepts.LiteralExactly | src/ai/summarize.rs:245-280 | a literal passes if and only if it holds no number, no bracket of the program's, and no numeral before a measure word |
| NarrativeAccepts.FlattenedIs | src/ai/summarize.rs:297-365 | flattening takes the lead off each line, makes its openers inert and joins what is left by blank lines: nothing else is lost or moved |
| Summarizing.RenderFacts | src/ai/summarize.rs:109-115 | the facts block, line by line |
| Summarizing.ReadTurns | src/ai/summarize.rs:655-672 | each step of the ladder is given the parse of its own reply; the rule always answers without a narrative |
| Summarizing.ProducedSaid | src/ai/summarize.rs:655-672 | a produced narrative is the filled form of what one of the replies said |
| Summarizing.RunSummarize | src/ai/summarize.rs:602-735 | a body a human touched is left alone before anything starts; otherwise a rewrite is submitted exactly if the item produced a different body, whose narrative is the filled form of one of the replies, and the rows carry their usage |
| SummarizeLaws.RunSays | src/ai/summarize.rs:674-735 | when a rewrite is submitted, against which digest, what is reported, and what the last row says |
| SummarizeLaws.TurnSays | src/ai/summarize.rs:502-513 | each step counts with its own turn; a reply that cannot be read or filled is bad output |
| SummarizeLaws.RewritableExactly | src/ai/summarize.rs:374-392 | a body may be rewritten if and only if it is blank or one of the program's own, up to space at its end |
| SummarizeLaws.BlockReads | src/ai/summarize.rs:109-115 | the facts block read back by lines |
| SummarizeLaws.BodyReads | src/ai/summarize.rs:366-372 | a body with a narrative read back by lines: the facts block first, the narrative last |
| Summarizing.RewritePasses | src/core/proposal.rs:629-676 | the gate accepts such a rewrite of an unchanged draft if and only if it fits the size limit |
| Summarizing.FactsOnlyIsFixed | src/ai/summarize.rs:389-392 | a facts-only body stays rewritable, and only a narrative changes it |
| Summarizing.NarrativeIsKept | src/ai/summarize.rs:389-392 | a body with a narrative is rewritable if and only if it reads like the automatic draft |

## Left out

- Reconciler.Daemon.RememberOnce: the client library's own paging code is not part of this model; a page is a range scan of the memory log that may fail, the page limit is a parameter of at least one, and the kernel's substring match is taken to be equality of markers.
- Reconciler.Daemon.SetHeld: the column holds a time in the source, here only whether it is set.
- ProtocolSafety.DoneMeansAccepted: of a memory's body the model holds the marker and the summary, not the review's kind, period and time.
- PumpTick.Pump.DoTick: a store that fails halfway through a drain or a pass is not modelled; one that cannot be read at the start of either is.
- Cron.NormalizeCronExact: letter case is folded for ASCII only, the alphabet of cron expressions; the source folds all of Unicode.
- Cron.NormalizeCronStable: likewise.
- FullReconcile.QueueUpserts: the source visits Routines in table order; here the order is arbitrary, which proves more.
- LadderTheorems.RunAccounting: a failed write of a call record is not modelled; the source logs it and goes on.
- Proposing.RunPropose: failed reads are not modelled; the source treats each as an empty list, which is one of the inputs here.
- StoreApply.BuildSnapshot: the gate's `area_exists` query is never asked and has no counterpart.
- Ordering.ReorderReflex: the standard library's sort is not part of this model; an insertion sort stands for it, and there is only one stable result.
- SQL, transactions, JSON, prompts, HTTP, logging, event records, wall-clock formatting and SHA-256: inputs arrive parsed, time is an integer, a transaction is one step.
- Routine and task titles, kinds, energy and estimates: no rule modelled here reads them.
- The transition matrices of areas, schedule blocks and proposals: finite tables with nothing resting on them here.
- `submit_proposal`'s idempotent replay, the claim of a pending proposal, and rejection: one status comparison each.
- The classification run's parking fallback and its evaluation records, and title normalization for history lookups.
- Rationale texts, `digit_runs` and the fences around a model's JSON: display and plumbing.
