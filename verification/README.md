# A Dafny model of the Oasis SDK

The model covers the parts of the Oasis SDK whose correctness does not show in any one function: the
nested block state of a runtime and the batch dispatcher on top of it, the submission manager and the
block notifier of ROFL applications, the passes of the ROFL scheduler, multisig signing in the Go
client, and the maps kept in contract storage. `dafny verify dfyconfig.toml` checks all of it.

- `Storage`, `State`, `StateCell` - overlay stores and the stack of states that open, commit and roll
  back over them. `State` is the state as a value; `StateCell` is the object updated in place.
- `Programs`, `Thread` - runtime modules as arbitrary programs (interaction trees: every operation may
  be followed by anything, depending on its response, and a response without a continuation is a
  panic), with nested transactions and subcalls. `Exec` says what a program does; `Thread` runs it in
  place on a `StateCell` and a subcall stack and is proved to do what `Exec` says.
- `Guards`, `Transactions`, `Reference`, `Observations` - which levels a panic leaves open; what a
  transaction leaves behind; an interpreter that copies on open and restores on rollback, which the
  block state refines; safety of every run.
- `Dispatcher`, `Batches`, `Blocks`, `Conservation`, `Fates`, `Limits`, `Rounds`, `HostQueue`, `Node`,
  `Disagreement` - transactions, batches and blocks; where events end up; what becomes of every offered
  transaction; message and gas limits; messages across rounds; the host's queue; the dispatcher as the source writes it, in place from the
  root store to the result; and runtimes in which proposer and validator disagree.
- `Submission`, `Notifier`, `Scheduler`, `Decisions` - concurrent parts as state machines whose steps are
  the turns of the loops, with the loops themselves as methods, and what a pass of the scheduler decides
  about each instance.
- `Multisig`, `MapKeys` - signing and verifying; length-prefixed keys and the maps built on them.

## What holds only under a condition

Some laws that one would like to hold unconditionally do not. Each is proved with its condition,
which is exact where "if and only if" is said, and the members named show where it fails.

- Proposer and validator execute the same transactions with the same outcome if and only if every
  included transaction decodes, in the state before the first one, to what the proposer decoded it to:
  the validator decodes and prefetches the whole batch up front, the proposer decodes each transaction
  when it gets there, and both whether and what a transaction decodes to may depend on the store
  (`ProposerAndValidatorAgree`). Otherwise the validator may fail the batch (`ValidatorsCanDisagree`)
  or accept it with other results (`ValidatorsCanDiffer`).
- A pre-schedule transaction leaves no trace if and only if its options carry neither a transaction
  nor local entropy, or the RNG was already disabled: initialisation writes to the RNG before setting
  it aside (`PreScheduleLeavesNoTrace`, `PreScheduleTraceExample`). The dispatcher's own pre-schedule
  transactions carry neither (`PreScheduleIsInvisible`).
- A run that panics is back at its level if and only if no bare transaction was open at the panic: the
  guard rolls back only at its own level, so that a panic inside a bare transaction leaves that level
  and all guarded ones around it open (`LevelsAreRestored`, `BarePanicLeaks`). Over all programs this is
  so if and only if bare transactions are not used (`GuardsAreExact`).
- The message bound holds if and only if transactions claim no more slots than the block has: those
  that modules open themselves (`ClaimsBoundIsExact`) and those that a validator executes
  (`ValidatorClaimsAreExact`). Both are over arbitrary modules: a validator's dispatcher, unlike a
  proposer's, does not look at the claims, and leaves it to the core module's hook to refuse the call.
- Positions cast to 32 bits are exact if and only if there are at most 2^32 of them
  (`PositionsAreExact`).
- Fetching from a finite host queue moves on, and so ends, if and only if no hash is in it twice
  (`AdvancesExactly`, `QueueEndsExactly`); otherwise the loop can go on for ever
  (`RepeatedHashesNeverEnd`).
- Accepted instances fit the capacity if and only if it is safe: at its type's maximum a field lets
  saturation defeat the check (`CapacityIsExact`).
- Maps of a contract can disturb each other if and only if one identifier is a prefix of the other
  (`CollisionsArePrefixes`); with fixed key types of one component also their lengths have to allow it
  (`FlatMapsCollide`); two key types under one identifier can collide (`TypesCollide`).

## Model

| member | source | states |
|---|---|---|
| Storage.GetReadsView | runtime-sdk/src/storage/overlay.rs:75-83 | a lookup through any stack of overlays returns what the merged content holds |
| Storage.UpdatesChangeView | runtime-sdk/src/storage/overlay.rs:85-99 | insert and remove on an overlay change the merged content exactly like a map, and keep every pending value recorded as dirty |
| Storage.CommitKeepsView | runtime-sdk/src/storage/overlay.rs:31-44 | after a commit the parent shows exactly the content the overlay showed |
| Storage.CommitOverlay | runtime-sdk/src/storage/overlay.rs:31-44 | writing back pending values and then deleting what is still dirty, in any order of keys, gives the committed parent |
| BlockState.Root | runtime-sdk/src/state.rs:753-797 | an entered root is valid, at level zero, shows the root content and has emitted nothing |
| BlockState.OpenedIsValid | runtime-sdk/src/state.rs:349-378 | opening and initialising keeps ownership of store and RNG at the top and goes one level up |
| BlockState.ClosedIsValid | runtime-sdk/src/state.rs:380-469 | the unchecked cast is always on an overlay when a valid state is closed, and closing gives a valid state one level down |
| Transactions.ReachableStatesAreValid | runtime-sdk/src/state.rs:349-469 | in every state reachable by calls in any order only the top holds store and RNG and overlays nest; the only faults are closing or hiding on the root |
| StateCells.ExtendTags | runtime-sdk/src/state.rs:414-422 | extending tags key by key, in any order, appends the child's values after the parent's under every key |
| StateCells.StateCell.constructor | runtime-sdk/src/state.rs:753-797 | the new object holds a valid root state over the given content |
| StateCells.StateCell.HideBlockValues | runtime-sdk/src/state.rs:490-500 | block values are set aside once, a second hiding keeps the first |
| StateCells.StateCell.DisableRng | runtime-sdk/src/state.rs:629-639 | the RNG is set aside once and replaced by an invalid one |
| StateCells.StateCell.InitMode | runtime-sdk/src/state.rs:309-318 | a given mode is set; pre-schedule and simulation also doom the state and hide the block values |
| StateCells.StateCell.InitTx | runtime-sdk/src/state.rs:320-325 | a given transaction goes into the RNG and the environment |
| StateCells.StateCell.InitInternal | runtime-sdk/src/state.rs:327-332 | a given internal flag is set, and internal states hide the block values |
| StateCells.StateCell.InitEntropy | runtime-sdk/src/state.rs:334-337 | local entropy goes into the RNG if asked for |
| StateCells.StateCell.Init | runtime-sdk/src/state.rs:308-346 | the object is configured as the specification of initialisation says, in the source's order |
| StateCells.StateCell.Open | runtime-sdk/src/state.rs:349-378 | the object becomes the child; its old value becomes the parent without store, block values and RNG |
| StateCells.StateCell.PutBackFrom | runtime-sdk/src/state.rs:424-442 | hidden block values and a hidden RNG come back, otherwise those in use survive |
| StateCells.StateCell.Rollback | runtime-sdk/src/state.rs:445-469 | the object becomes the parent with its own store; validity is kept |
| StateCells.StateCell.Commit | runtime-sdk/src/state.rs:393-443 | the object becomes the parent with store, messages and events propagated, or rolls back if doomed; validity is kept |
| StateCells.StateCell.DropGuard | runtime-sdk/src/state.rs:687-697 | the guard rolls back exactly at its own level |
| StateCells.StateCell.EmitMessage | runtime-sdk/src/state.rs:534-548 | a message is queued exactly when the count over all levels is below the limit in force |
| StateCells.StateCell.EmitEvent | runtime-sdk/src/state.rs:556-564 | the event is appended under its key and nothing else changes |
| StateCells.StateCell.EmitUnconditionalEvent | runtime-sdk/src/state.rs:569-573 | the event is appended to the separate set and nothing else changes |
| StateCells.StateCell.TakeAllEvents | runtime-sdk/src/state.rs:576-596 | per key the regular events, then the unconditional ones; both sets are emptied |
| StateCells.StateCell.UseStore | runtime-sdk/src/state.rs:603-613 | store operations act on the overlay of the top state alone |
| StateCells.StateCell.UseQueues | runtime-sdk/src/state.rs:534-596 | emitting and taking events and messages, in place |
| StateCells.StateCell.UseBlockValues | runtime-sdk/src/state.rs:475-480 | reading, setting and taking block values, in place |
| StateCells.StateCell.UseLocalValues | runtime-sdk/src/state.rs:484-487 | reading, setting and taking local values, in place |
| StateCells.StateCell.Perform | runtime-sdk/src/state.rs:475-660 | every operation a module can issue, performed in place, gives the response and the state of the specification |
| Programs.Step | runtime-sdk/src/state.rs:475-660 | no operation changes the level, what lies below, the environment or hidden values |
| Programs.EnteredChild | runtime-sdk/src/state.rs:349-378 | a closure starts on an empty overlay over its parent's store with no events, messages or local values |
| Programs.LeftIsFramed | runtime-sdk/src/state.rs:960-982 | a transaction as a whole keeps everything its closure keeps of the child: levels, parents and the subcall stack |
| Programs.FirstRejection | runtime-sdk/src/subcall.rs:85-90 | there is no rejection exactly when every stacked validator accepts; otherwise it is that of the outermost validator that rejects |
| Programs.Exec | runtime-sdk/src/state.rs:960-982 | any program leaves the subcall stack, the level and everything below as they were; only a panic can leave levels open |
| Programs.Transact | runtime-sdk/src/state.rs:960-982 | a transaction around any closure restores the level unless the closure panics below an open bare transaction |
| Programs.DispatchCall | runtime-sdk/src/dispatcher.rs:191-216 | a dispatched call keeps level, parents and subcall stack whatever the modules do |
| Programs.Subcall | runtime-sdk/src/subcall.rs:109-190 | the subcall stack on exit equals the one on entry, on success, failure and unwinding, over every tree of subcalls |
| Threads.SubcallStack.Push | runtime-sdk/src/subcall.rs:77-79 | the entry is on top of the unchanged stack |
| Threads.SubcallStack.Pop | runtime-sdk/src/subcall.rs:81-83 | exactly the top entry goes |
| Threads.SubcallStack.RunValidators | runtime-sdk/src/subcall.rs:85-90 | the loop returns the first rejection, and none exactly when all accept |
| Threads.SubcallStack.Admit | runtime-sdk/src/subcall.rs:115-135 | a subcall is admitted exactly when its own validator, the depth and all stacked validators allow it, each refusal in that precedence; a refused one leaves the stack alone |
| Threads.Thread.constructor | runtime-sdk/src/state.rs:753-797 | a thread starts at a valid root with an empty subcall stack |
| Threads.Thread.Run | runtime-sdk/src/state.rs:918-982 | every program run in place on the state object and the subcall stack does exactly what `Exec` says |
| Threads.Thread.Enter | runtime-sdk/src/state.rs:965-969 | the state object becomes the configured child of what it was |
| Threads.Thread.Leave | runtime-sdk/src/state.rs:972-981 | commit, rollback or guard, as the closure ended |
| Threads.Thread.WithTransaction | runtime-sdk/src/state.rs:960-982 | open, run, then commit, roll back or leave it to the guard, in place, for any closure |
| Threads.Thread.DispatchCall | runtime-sdk/src/dispatcher.rs:191-216 | call, after-call hook and read-only check, in place, for any modules |
| Threads.Thread.Subcall | runtime-sdk/src/subcall.rs:109-190 | admission, transaction, gas and the pop of the stack entry, in place, for any call |
| Threads.Thread.Admitted | runtime-sdk/src/subcall.rs:137-190 | an admitted subcall runs in a transaction of its own with its caller's message limit, and its stack entry is popped however it ends |
| Transactions.EnteredEnvironment | runtime-sdk/src/state.rs:308-346 | the exact environment, RNG, hidden RNG, block values and rollback flag for all combinations of options |
| Transactions.DiscardRestores | runtime-sdk/src/state.rs:393-469 | leaving a pre-schedule or simulation transaction restores everything but the RNG, whatever ran inside and however it ended |
| Guards.LevelsAreRestored | runtime-sdk/src/state.rs:687-697 | every run of every program ends at the level it started at if and only if no panic strikes while a bare transaction is open that it, or a subcall of it, has opened |
| Guards.SubcallRestores | runtime-sdk/src/subcall.rs:167-190 | the same of a subcall |
| Guards.GuardedNeverLeaks | runtime-sdk/src/state.rs:960-982 | code that opens no bare transaction leaves no level open, panics included, through all nested transactions and subcalls |
| Guards.BarePanicLeaks | runtime-sdk/src/state.rs:687-697 | a bare transaction that panics inside a guarded one leaves both levels open |
| Guards.GuardsAreExact | runtime-sdk/src/state.rs:687-697 | over all programs levels are restored if and only if bare transactions are not used |
| Transactions.DiscardingTransaction | runtime-sdk/src/state.rs:960-982 | for every closure: all but the RNG is restored unless a panic strikes inside an open bare transaction, and then levels stay open; for pre-schedule the RNG differs by what initialisation noted |
| Transactions.PreScheduleLeavesNoTrace | runtime-sdk/src/state.rs:308-346 | for every closure, panicking ones included: nothing at all changes if and only if no panic strikes inside an open bare transaction and the options name no transaction and no entropy or the RNG was invalid |
| Transactions.GuardedCodeIsDiscarded | runtime-sdk/src/state.rs:308-346 | of code without bare transactions a discarding transaction leaves nothing but the RNG changed, and pre-schedule without transaction and entropy nothing at all, even on a panic |
| Transactions.PreScheduleTraceExample | runtime-sdk/src/state.rs:321-326 | a committed pre-schedule transaction that does leave a trace in the RNG |
| Reference.TagsHoldValues | runtime-sdk/src/state.rs:556-573 | grouping a log into tags loses and invents nothing: per key the logged values in order |
| Reference.TagsOfConcat | runtime-sdk/src/state.rs:414-422 | merging tags key by key is concatenating the logs |
| Reference.StepRefines | runtime-sdk/src/state.rs:475-660 | every operation answers like the copying interpreter and keeps the correspondence |
| Reference.EnterRefines | runtime-sdk/src/state.rs:308-378 | opening with any options is taking a copy |
| Reference.LeaveRefines | runtime-sdk/src/state.rs:393-469 | committing joins the result to the original, rolling back restores the copy; block values and RNG survive either way unless hidden at that level |
| Reference.RunRefines | runtime-sdk/src/state.rs:349-469 | every run of every program, with nested transactions and subcalls, answers and ends like the interpreter that copies on open and restores on rollback |
| Reference.CallRefines | runtime-sdk/src/dispatcher.rs:191-216 | a dispatched call behaves like its copying counterpart, read-only violations included |
| Reference.SubcallRefines | runtime-sdk/src/subcall.rs:109-190 | a subcall behaves like its copying counterpart, refusals and gas included |
| Reference.RootStands | runtime-sdk/src/state.rs:753-797 | the correspondence holds at an entered root |
| Observations.NestingKeepsCount | runtime-sdk/src/state.rs:504-511 | a child starts with its parent's message count and leaving it never raises the count |
| Observations.StepKeepsBound | runtime-sdk/src/state.rs:534-548 | no operation takes the count beyond the limit |
| Observations.RunsAreFine | runtime-sdk/src/state.rs:504-548 | at every step of every run the count over all levels is within the block's maximum, and every dispatched subcall passed all validators, is within its depth limit and finds itself in an internal environment of its caller's mode whose transaction is its own call, by the caller named, with its gas and its caller's message limit |
| Observations.SubcallIsFine | runtime-sdk/src/subcall.rs:115-160 | the same for a subcall and everything it dispatches |
| Observations.SubcallIsOnBehalf | runtime-sdk/src/subcall.rs:138-165 | the environment in which a subcall is dispatched: internal, in the same mode, with the internal transaction on behalf of the caller named, of zero size, index and hash |
| Observations.EmittingCounts | runtime-sdk/src/state.rs:534-548 | emitting as many messages as the limit in force leaves succeeds, reaches that count and is observed |
| Observations.OverclaimingOverflows | runtime-sdk/src/state.rs:520-548 | from any state within the bound a program that claims just one slot more than a block has is observed to exceed it |
| Observations.ClaimsBoundIsExact | runtime-sdk/src/state.rs:504-548 | from any state within the bound, all programs whose transactions claim at most `cap` slots stay within it if and only if `cap` is at most the block's maximum |
| Observations.SubcallKeepsBlockValues | runtime-sdk/src/subcall.rs:167-190 | block values are the same after a subcall, committed or rolled back |
| Dispatching.RunTx | runtime-sdk/src/dispatcher.rs:279-325 | running a transaction's call keeps level, parents and subcall stack |
| Dispatching.DispatchTx | runtime-sdk/src/dispatcher.rs:264-336 | dispatching any transaction keeps level, parents and subcall stack |
| Batches.DecodeAll | runtime-sdk/src/dispatcher.rs:639-660 | decoding a batch succeeds exactly when every transaction is acceptable in the given state, with what each decodes to there; a failure is one of two errors |
| Batches.DecodingFailsAtTheFirst | runtime-sdk/src/dispatcher.rs:639-660 | when a batch does not decode, its first transaction that is not acceptable decides whether it is malformed or cannot be prefetched for |
| Batches.DecodingReproduces | runtime-sdk/src/dispatcher.rs:639-660 | decoding the raw batch again gives the same transactions if and only if each decodes to what it was and can be prefetched for |
| Batches.ExecuteAll | runtime-sdk/src/dispatcher.rs:665-671 | executing a batch keeps level, parents and subcall stack and gives one result per transaction |
| Batches.PreScheduled | runtime-sdk/src/dispatcher.rs:743-785 | a check keeps level, parents and subcall stack whatever the modules do |
| Batches.PreScheduleIsInvisible | runtime-sdk/src/dispatcher.rs:743-785 | checking a candidate leaves the whole machine, RNG included, exactly as it was, whatever the modules do, unless it panics |
| Batches.GuardedCheckIsInvisible | runtime-sdk/src/dispatcher.rs:743-785 | with modules that open no bare transaction a check leaves the machine exactly as it was even when it panics |
| Batches.ExecutedReplays | runtime-sdk/src/dispatcher.rs:787-788 | executing one more transaction keeps the proposer where plain execution of its batch would be |
| Batches.ConsiderReplays | runtime-sdk/src/dispatcher.rs:701-789 | so does considering a transaction, whatever is decided |
| Batches.ScheduleReplays | runtime-sdk/src/dispatcher.rs:693-812 | over every run of the scheduling loop, for any host answers, the proposer is where executing the transactions as it decoded them leads from the start, with the same results |
| Batches.ScheduleDecodes | runtime-sdk/src/dispatcher.rs:693-812 | whatever a proposer includes is what its bytes decode to in some state |
| Batches.ConsiderExtends | runtime-sdk/src/dispatcher.rs:701-789 | a considered transaction gets exactly one fate and the lists grow by exactly that |
| Batches.ScheduleAccounts | runtime-sdk/src/dispatcher.rs:693-812 | what was offered is the initial batch followed by every batch fetched; each of it is included, rejected once or left; the batch is the in-order subsequence of the included ones, within the count limit and aligned with the results |
| Blocks.HandlingNeedsAPermutation | runtime-sdk/src/dispatcher.rs:462-500 | handling succeeds exactly when the reported indices are a permutation of the saved positions, and then every saved handler was invoked once with its own payload and event; it fails for a handler not invoked exactly when the reports are distinct and short of the positions, and otherwise for a report without a handler |
| Blocks.Begun | runtime-sdk/src/dispatcher.rs:577-587 | what precedes the batch ends in a valid state at the root level |
| Blocks.PositionsAreExact | runtime-sdk/src/dispatcher.rs:502-508 | every handler is saved under its position exactly up to 2^32 messages |
| Blocks.FinishedSavesHandlers | runtime-sdk/src/dispatcher.rs:594-600 | a finished block reports the body of every message at its position, leaves each message's own handler in the root store under its position, and otherwise leaves the content at the end of the block |
| Blocks.ValidatedBlockFollowsMessages | runtime-sdk/src/dispatcher.rs:503-507 | of a validator's successful block: reported bodies and saved handlers are, index by index, those of the messages emitted up to its end |
| Blocks.ProposedBlockFollowsMessages | runtime-sdk/src/dispatcher.rs:590-600 | the same of a proposer's block |
| Rounds.BlockMessagesFit | runtime-sdk/src/dispatcher.rs:590-600 | a finished block reports all its messages and they are within the block's maximum |
| Rounds.BlocksConnect | runtime-sdk/src/dispatcher.rs:462-600 | across two rounds: a proposer's block emits at most the maximum of messages and reports and saves each under its position; the next round's handling succeeds exactly when the reported indices are a permutation of the positions, and then every result is handled by the handler of the message it is reported for |
| Blocks.ProposerAndValidatorAgree | runtime-sdk/src/dispatcher.rs:628-820 | a validator replaying a successful proposer's batch executes the same transactions with the same results, messages, tags, store, block values and RNG if and only if each of them decodes up front to what the proposer decoded it to and can be prefetched for; if one is not even acceptable up front the validator fails the batch |
| Blocks.AgreementByBytes | runtime-sdk/src/dispatcher.rs:628-820 | where transactions decode by their bytes alone, the two agree if all included ones are acceptable up front, and otherwise the validator fails the batch |
| Conservation.TxRefines | runtime-sdk/src/dispatcher.rs:279-325 | a transaction gives the result, with tags, of the copying interpreter and leaves a state that stands for the interpreter's |
| Conservation.DispatchRefines | runtime-sdk/src/dispatcher.rs:264-336 | so does its dispatch with authentication, after-dispatch hook and aborts |
| Conservation.BatchRefines | runtime-sdk/src/dispatcher.rs:666-671 | so does a whole batch, so that each of its transactions starts in a state that stands for a snapshot |
| Conservation.RefRunTx | runtime-sdk/src/dispatcher.rs:279-325 | in the interpreter no transaction leaves an entry in the log around it |
| Conservation.EventsAreConserved | runtime-sdk/src/dispatcher.rs:279-325 | every transaction of a batch, dispatched with its own size, position and hash, reports, per key, all events of its call that were not rolled back, regular before unconditional, if it is executed and succeeds, the unconditional ones if it fails or is read-only, and none if its authentication fails or it is only checked |
| Conservation.ValidatedBlockRefines | runtime-sdk/src/dispatcher.rs:550-674 | a validator's whole block is the interpreter's block over the transactions it executes |
| Conservation.ProposedBlockRefines | runtime-sdk/src/dispatcher.rs:550-820 | a proposer's whole block is the interpreter's block over the transactions it includes |
| Fates.CheckIsRuled | runtime-sdk/src/dispatcher.rs:743-785 | the check accepts a transaction if and only if authentication and dispatch in a pre-schedule copy succeed with a successful result, skips it if and only if authentication reports a future nonce, rejects it on any other failure of either, and aborts the batch if and only if the call asks for it |
| Fates.RoomIsScreened | runtime-sdk/src/dispatcher.rs:704-737 | in terms of exact sums: the block is full if the count is reached or the minimal gas does not fit under the limit, and a transaction does not fit if its gas or its messages do not |
| Fates.ConsideredIsRuled | runtime-sdk/src/dispatcher.rs:701-789 | a considered transaction is included, rejected or left exactly as the rule over the interpreter says; it ends the run exactly if it is oversized, its check panics or aborts, or it passes and its execution does not succeed; it changes machine and batch only if included |
| Fates.ScheduleIsRuled | runtime-sdk/src/dispatcher.rs:693-812 | over the whole loop and any answers of the host: every offered transaction has the fate it deserves in the snapshot that the included ones before it lead to, and the results are those of the interpreter |
| Fates.OffersAreMade | runtime-sdk/src/dispatcher.rs:791-808 | more is asked for exactly after a batch that is not empty and at least as long as requested, and everything offered is considered unless the block is full |
| Fates.ProposedBlockIsRuled | runtime-sdk/src/dispatcher.rs:682-820 | of a proposer's successful block: all fates are deserved, everything on offer was considered if there is room left at the end, the results are the interpreter's and the rejected hashes are those of the rejected transactions, in order |
| Conservation.BatchIsChained | runtime-sdk/src/dispatcher.rs:666-671 | over a batch the log outside transactions is handed from hook to hook, and no transaction in between changes it |
| Conservation.BlockIsChained | runtime-sdk/src/dispatcher.rs:577-599 | so over a whole block, from the migrations to the end |
| Conservation.LogIsAdditive | runtime-sdk/src/state.rs:556-596 | a program that takes no events away does the same whatever was logged before it, and adds to the log what it logs by itself |
| Conservation.ValidatedTagsAreHookEvents | runtime-sdk/src/dispatcher.rs:594-599 | in a validator's block no transaction's event is in the block's tags: they are, per key, the log that the programs outside transactions hand on to each other, regular before unconditional, which is what each of them has logged if none takes events away |
| Conservation.ProposedTagsAreHookEvents | runtime-sdk/src/dispatcher.rs:594-599 | the same of a proposer's block |
| Disagreement.ValidatorsCanDisagree | runtime-sdk/src/dispatcher.rs:628-820 | a runtime and a queue for which the proposer succeeds and the validator fails the batch |
| Disagreement.ValidatorsCanDiffer | runtime-sdk/src/dispatcher.rs:160-184 | a runtime and a queue for which every included transaction is acceptable up front and the validator accepts the batch with another result |
| HostQueue.IndexOf | runtime-sdk/src/schedule_control.rs:19-24 | the first place of a hash in the queue, or its length |
| HostQueue.FetchAdvances | runtime-sdk/src/schedule_control.rs:19-24 | in a queue without repeated hashes a fetch leaves strictly less ahead |
| HostQueue.AdvancesExactly | runtime-sdk/src/schedule_control.rs:19-24 | every fetch, after any batch and for any limit, moves on if and only if no hash is repeated in the queue |
| HostQueue.QueueEndsExactly | runtime-sdk/src/dispatcher.rs:693-812 | for a finite queue the number of fetches is bounded, over all batches and batch sizes, if and only if no hash is repeated in it |
| HostQueue.QueueRunsAreScheduledRuns | runtime-sdk/src/dispatcher.rs:693-812 | for a finite queue without repeated hashes the loop terminates, after at most as many fetches as transactions, and is a run covered by the results above |
| HostQueue.RepeatedHashesNeverEnd | runtime-sdk/src/dispatcher.rs:693-812 | for any queue with a repeated hash and nothing in it that decodes there is a batch size with which the loop is still going after any number of the queue's answers, having rejected the same transaction each time |
| Limits.RunTxIsFine | runtime-sdk/src/dispatcher.rs:279-325 | within a transaction the message bound and the subcall demands hold at every step |
| Limits.CheckIsFine | runtime-sdk/src/dispatcher.rs:743-785 | so they do within a pre-schedule check |
| Limits.ScheduleIsFine | runtime-sdk/src/dispatcher.rs:693-812 | throughout any scheduling run, checks included, messages over the whole stack never exceed the block's maximum |
| Limits.ProposalIsFine | runtime-sdk/src/dispatcher.rs:550-820 | so throughout a proposer's whole block, from its migrations and last round's handlers to its end |
| Limits.ValidationIsFine | runtime-sdk/src/dispatcher.rs:550-674 | so throughout a validator's whole block if no transaction that it executes claims more slots than a block has |
| Limits.ValidatorClaimsAreExact | runtime-sdk/src/dispatcher.rs:628-674 | validators of all runtimes stay within the bound on batches whose transactions claim at most `cap` slots if and only if `cap` is at most the block's maximum |
| Limits.ScheduleStaysSolvent | runtime-sdk/src/dispatcher.rs:701-736 | if transactions use at most the gas they paid for, the batch gas is never overdrawn |
| Nodes.Node.constructor | runtime-sdk/src/state.rs:753-797 | a node starts at a valid root over the given store |
| Nodes.Node.Conclude | runtime-sdk/src/dispatcher.rs:289-325 | the end of the transaction closure takes events and metadata from the state object as specified |
| Nodes.Node.RunTx | runtime-sdk/src/dispatcher.rs:279-325 | a transaction run in place is the specified one |
| Nodes.Node.DispatchTx | runtime-sdk/src/dispatcher.rs:264-336 | so is its dispatch |
| Nodes.Node.PreCheck | runtime-sdk/src/dispatcher.rs:746-781 | the pre-schedule closure in place, with its verdicts |
| Nodes.Node.PreSchedule | runtime-sdk/src/dispatcher.rs:743-785 | a check in place leaves state object and subcall stack exactly as they were, unless it panics |
| Nodes.Node.HandleLastRound | runtime-sdk/src/dispatcher.rs:462-500 | removing each event's handler from the map and running it in place gives the specified machine and ending |
| Nodes.Node.SaveHandlers | runtime-sdk/src/dispatcher.rs:502-516 | the handlers are stored keyed by their cast position |
| Nodes.Node.Begin | runtime-sdk/src/dispatcher.rs:577-587 | migrations, last round's results and begin-block hooks, in place |
| Nodes.Node.Finish | runtime-sdk/src/dispatcher.rs:590-608 | end-block hooks, messages, tags, handlers and the commit of the root store, in place |
| Nodes.Node.DecodeBatch | runtime-sdk/src/dispatcher.rs:639-660 | the loop gives what the whole batch decodes to up front, or the first transaction's error |
| Nodes.Node.ExecuteItems | runtime-sdk/src/dispatcher.rs:666-671 | executing in order, stopping at the first failure, in place |
| Nodes.Proposer.ConsiderOne | runtime-sdk/src/dispatcher.rs:701-789 | one iteration of the drain loop moves the lists and the state as specified |
| Nodes.Proposer.TryOne | runtime-sdk/src/dispatcher.rs:740-788 | check and execution of a transaction that fits |
| Nodes.Proposer.Drain | runtime-sdk/src/dispatcher.rs:701-789 | the drain loop |
| Nodes.Proposer.Schedule | runtime-sdk/src/dispatcher.rs:693-812 | the whole scheduling loop, for any answers of the host, failures included |
| Nodes.ExecuteBatch | runtime-sdk/src/dispatcher.rs:628-674 | a validator's block, computed in place on fresh objects, is the one of the agreement result |
| Nodes.ScheduleAndExecuteBatch | runtime-sdk/src/dispatcher.rs:677-820 | a proposer's block, computed in place on fresh objects, is the one of the agreement result |
| Submission.ScanStarts | rofl-app-core/src/client.rs:489-520 | what a scan starts is pairwise disjoint and disjoint from what was pending; what it defers conflicts with what is pending |
| Submission.ScanPartitions | rofl-app-core/src/client.rs:489-520 | a scan splits the queue into started and deferred, losing nothing and keeping the order |
| Submission.ScanIsOrderly | rofl-app-core/src/client.rs:489-520 | within a scan no command overtakes one whose signers it includes |
| Submission.CompletionFreesOwnKeys | rofl-app-core/src/client.rs:480-484 | a completion frees the command's own keys and none that another holds |
| Submission.StepKeepsInv | rofl-app-core/src/client.rs:474-520 | every turn keeps exclusion, numbering, order and the conflict of everything queued |
| Submission.SubmissionsAreSafe | rofl-app-core/src/client.rs:469-522 | over every run: disjoint signer sets in flight whose union is the pending set, no overtaking of a subset, and something in flight while anything is queued |
| Submission.Manager.Turn | rofl-app-core/src/client.rs:474-520 | a turn of the loop updates queue and pending as the scan says |
| Notifier.StepKeepsInv | rofl-app-core/src/notifier.rs:81-121 | every step keeps callbacks, reports under way and the running flag in balance and rounds rising |
| Notifier.NotificationsAreSafe | rofl-app-core/src/notifier.rs:81-121 | over every run: at most one callback, strictly increasing rounds, and the newest round received after registration delivered whenever nothing runs |
| Notifier.Task.Handle | rofl-app-core/src/notifier.rs:89-119 | handling a notification updates the flags and spawns a callback as the step relation says |
| Notifier.Processor.ProcessRuntimeBlock | rofl-app-core/src/processor.rs:151-168 | only rounds that move forward are recorded and forwarded |
| Scheduler.CommandsDecide | rofl-scheduler/src/manager.rs:500-545 | the last deploy or terminate command decides the deployment; wipes and restarts add up over all commands |
| Scheduler.VisitedBooks | rofl-scheduler/src/manager.rs:470-472 | what a pass recognises is struck from the unmatched set and the counters, and nothing else |
| Scheduler.PassQueuesEachIdOnce | rofl-scheduler/src/manager.rs:448-666 | no id is queued for both start and stop, or twice for either |
| Scheduler.PassReconciles | rofl-scheduler/src/manager.rs:470-666 | once its jobs are done a pass has every instance accepted here running exactly what is wanted, nothing of what it wiped, and the rest as it was |
| Scheduler.BooksAreKept | rofl-scheduler/src/manager.rs:650-666 | over all passes a counter is the number of completed passes that saw the instance unmatched since it was last known or wiped |
| Scheduler.WipeAfterElevenMisses | rofl-scheduler/src/manager.rs:650-666 | an instance is wiped as unknown exactly in the eleventh such pass |
| Scheduler.AddingSaturates | rofl-scheduler/src/config.rs:97-104 | adding step by step with saturation is saturating the exact total |
| Scheduler.DiscoveryAccounts | rofl-scheduler/src/manager.rs:490-493 | the resources in use are the saturated exact sum over the accepted instances |
| Scheduler.EvaluationIsSound | rofl-scheduler/src/manager.rs:699-797 | so they stay while pending instances are evaluated, and any acceptance leaves them within capacity |
| Scheduler.AcceptedFitsCapacity | rofl-scheduler/src/manager.rs:699-797 | if a pass accepts anything, the exact sum of every resource over all accepted instances is within a capacity below its type's maximum |
| Scheduler.SafePassFits | rofl-scheduler/src/manager.rs:699-797 | with a safe capacity a pass that accepts anything keeps the exact sums within it |
| Scheduler.UnsafeCapacityOverflows | rofl-scheduler/src/config.rs:97-121 | for every capacity that is not safe, be it for instances, memory, cpus or storage, a pass accepts too much |
| Scheduler.CapacityIsExact | rofl-scheduler/src/config.rs:97-121 | all passes keep the exact sums within the capacity if and only if it is safe: no field at its type's maximum, except that a capacity of at most one instance needs nothing of the others |
| Scheduler.Manager.DesiredState | rofl-scheduler/src/manager.rs:500-545 | the loop over the queued commands gives the folded desired state |
| Scheduler.Manager.VisitAccepted | rofl-scheduler/src/manager.rs:470-648 | visiting an instance accepted here updates the local state as specified, failing exactly on a failed command query |
| Scheduler.Manager.Count | rofl-scheduler/src/manager.rs:651-653 | every unmatched instance's counter goes up by one and no other changes |
| Scheduler.Manager.Wipe | rofl-scheduler/src/manager.rs:654-666 | the instances over the delay leave the counters and are each queued once for a wiping stop |
| Scheduler.Manager.Discover | rofl-scheduler/src/manager.rs:355-679 | a pass fails, leaving the counters alone, when one of its first queries fails, and otherwise exactly on a failed command query; it leaves the counters and the local state of the specification |
| Scheduler.Manager.DiscoverInstances | rofl-scheduler/src/manager.rs:448-679 | the loop over the instances and the counting after it |
| Scheduler.Manager.ProcessPending | rofl-scheduler/src/manager.rs:683-800 | the loop accepts and removes as the evaluation in order says |
| Scheduler.Manager.Turn | rofl-scheduler/src/manager.rs:306-350 | a turn of the main loop acts exactly on a discovered, newer round whose instances can be listed; it then holds the jobs and decisions of that pass, and whatever is accepted fits the capacity with everything accepted before; the round is done with once its jobs are |
| Decisions.VisitServes | rofl-scheduler/src/manager.rs:470-648 | visiting an instance queues exactly the jobs it calls for and none for another |
| Decisions.PassServes | rofl-scheduler/src/manager.rs:470-666 | for every instance accepted here a completed pass queues: if paid for, one start if something is wanted and it is not running, runs something else or a command restarts it, with the last deployment named, or one stop if it runs and nothing is wanted, wiping exactly if some command wipes; if not paid for, one wiping stop exactly if it runs |
| Decisions.VisitedKeeps | rofl-scheduler/src/manager.rs:450-493 | discovery keeps exactly the instances accepted here and paid for, and puts up for removal exactly the cancelled ones and those accepted here but not paid for |
| Decisions.UsedIsLoad | rofl-scheduler/src/manager.rs:490-775 | at the turn of every instance the resources in use are the saturated exact sum over the kept instances and those accepted before it |
| Decisions.PassAccepts | rofl-scheduler/src/manager.rs:699-797 | an instance is accepted if and only if it is created, or accepted on another node to take over from, is acceptable, and fits the capacity together with all that is kept and accepted before it; it is up for removal if and only if it is cancelled, unpaid here, or created and not accepted |
| Decisions.PassAcceptsInOrder | rofl-scheduler/src/manager.rs:775-780 | every accepted instance is accepted once, in the order of the market |
| Multisig.ValidateBasic | client-sdk/go/types/crypto.go:130-154 | no error exactly for a positive threshold that positive weights with a 64-bit sum can reach; each error names its cause |
| Multisig.BatchMultisig | client-sdk/go/types/crypto.go:158-180 | success exactly when the natural sum of signed weights reaches the threshold, so the unchecked 64-bit sum never wraps; the signatures are those present, in order |
| Multisig.Batch | client-sdk/go/types/transaction.go:472-481 | success exactly when the proof has the shape and weight the specification asks for; a pair is malformed exactly when they have no kind of authentication in common |
| Multisig.Verify | client-sdk/go/types/transaction.go:59-102 | success exactly when the body decodes, the version and counts match and every proof fits and holds only genuine signatures; the result is the encoded transaction; each error about the transaction as a whole, and a bad signature, is returned exactly when the checks before it pass and its own does not |
| Multisig.TransactionSigner.PrepareForSigning | client-sdk/go/types/transaction.go:254-261 | a signer over the encoding of the transaction with no proofs yet |
| Multisig.TransactionSigner.AllocateProofs | client-sdk/go/types/transaction.go:151-163 | proofs come into being once, empty and with a slot per multisig signer |
| Multisig.TransactionSigner.PutSlot | client-sdk/go/types/transaction.go:197 | exactly one slot of one proof gets the signature |
| Multisig.TransactionSigner.SignSlots | client-sdk/go/types/transaction.go:184-198 | every slot of the signer's key gets the signature, up to the one at which the signer fails, and no other |
| Multisig.TransactionSigner.SignInfo | client-sdk/go/types/transaction.go:171-202 | a signer info is signed where it asks the key to, a single signature having precedence over a multisig, up to the place at which the signer fails |
| Multisig.TransactionSigner.AppendSign | client-sdk/go/types/transaction.go:168-207 | the signature goes wherever the key is asked to sign before the first malformed specification, up to the place at which the signer fails; no error exactly when it is asked somewhere, signs everywhere and nothing is malformed |
| Multisig.RunCollects | client-sdk/go/types/transaction.go:168-207 | after any attempts in any order, failing anywhere, every proof in reach holds the last signature produced at each of its places |
| Multisig.SignedVerifies | client-sdk/go/types/transaction.go:59-207 | for any attempts, partial ones included, and any transaction, malformed ones included, verification succeeds exactly when the attempts authorise every signer info |
| Multisig.HonestSigning | client-sdk/go/types/transaction.go:59-207 | with signers that sign everywhere or nowhere under the context only the set of keys matters: every single key has signed and every valid multisig has the natural weight |
| Multisig.SignAndVerify | client-sdk/go/types/transaction.go:59-261 | prepare, sign in any order, verify: the original transaction comes back exactly when it is authorised |
| ContractMaps.BigEndianIsExact | contract-sdk/storage/src/map.rs:137-195 | big-endian bytes of one width tell integers apart |
| ContractMaps.ComponentsAreExact | contract-sdk/storage/src/map.rs:69-195 | components tell keys of one type apart, nested tuples and signed integers included |
| ContractMaps.EncodePath | contract-sdk/storage/src/map.rs:198-222 | the buffer is front, length-prefixed middle, back; a panic exactly when a middle component is over 255 bytes |
| ContractMaps.MiddleIsExact | contract-sdk/storage/src/map.rs:198-222 | length prefixes tell paths with the same number of components apart |
| ContractMaps.PathIsExact | contract-sdk/storage/src/map.rs:38-45 | within a map different keys have different paths |
| ContractMaps.TypesCollide | contract-sdk/storage/src/map.rs:38-45 | a pair and a single key can share a path under one identifier |
| ContractMaps.PairsNest | contract-sdk/storage/src/map.rs:104-114 | a key with a first component of its own is kept where the rest of it is kept in a map under the identifier followed by that component and its length, and is encodable exactly if both are |
| ContractMaps.TriplesFlatten | contract-sdk/storage/src/map.rs:116-127 | a triple is kept where the nested pairs of its components are, in either nesting |
| ContractMaps.CollisionsArePrefixes | contract-sdk/storage/src/map.rs:38-60 | two maps can collide, under some key types, if and only if one identifier is a prefix of the other |
| ContractMaps.BytesAreNumbers | contract-sdk/storage/src/map.rs:137-195 | all byte strings of a width are big-endian numbers of that width |
| ContractMaps.FlatMapsCollide | contract-sdk/storage/src/map.rs:38-134 | for fixed key types of one component: two maps collide if and only if one identifier is a prefix of the other and their paths can be equally long |
| ContractMaps.OthersAreKept | contract-sdk/storage/src/map.rs:38-60 | no change under one identifier is seen by a map whose identifier is apart from it |
| ContractMaps.Cell.Get | contract-sdk/storage/src/cell.rs:39-43 | absent, the decoded value, or a panic if it cannot be decoded |
| ContractMaps.Cell.Set | contract-sdk/storage/src/cell.rs:51-53 | exactly the cell's key holds the encoded value |
| ContractMaps.Cell.Clear | contract-sdk/storage/src/cell.rs:24-26 | exactly the cell's key is gone |
| ContractMaps.StorageMap.KeyPath | contract-sdk/storage/src/map.rs:38-45 | the path of a key, or a panic |
| ContractMaps.StorageMap.Get | contract-sdk/storage/src/map.rs:48-50 | where the store represents a mathematical map, a lookup is a lookup in it |
| ContractMaps.StorageMap.Insert | contract-sdk/storage/src/map.rs:53-55 | the represented map gains the pair and nothing outside the identifier changes |
| ContractMaps.StorageMap.Remove | contract-sdk/storage/src/map.rs:58-60 | the represented map loses the key and nothing outside the identifier changes |
| ContractMaps.RunsRefineMaps | contract-sdk/storage/src/map.rs:38-60 | every run over maps with identifiers apart treats each as a mathematical map of its own |

## Left out

- Modules of a runtime (core, accounts, rofl, market, EVM, contracts): arbitrary programs here, so their own arithmetic and storage layouts are not modelled.
- The hooks and call-format decoding inside a call (runtime-sdk/src/dispatcher.rs:218-261) are one handler program, and result encoding, priority and sender metadata values are dropped: they only pass values on.
- Decoding reads nothing but the bytes and the store.
- Prefetching has no effect other than that it may fail.
- `check_batch`, queries and EnclaveRPC: they discard what they do and would only add easier members.
- The iterator of overlay stores and the byte size of pending updates.
- Thread-local storage, re-entry panics of `RefCell` and panics on values of another type: the state is one explicit object, values are integers by name.
- Observations.RunsAreFine: says nothing of programs that claim more slots than a block has, for which the bound is false; the exact condition is `ClaimsBoundIsExact`.
- HostQueue.QueueRunsAreScheduledRuns: says nothing of queues in which a hash repeats, for which the loop need not end; the exact condition is `QueueEndsExactly`.
- Nodes.Proposer.Schedule: covers the fetches that `answers` lists, which may be a first part of an endless run.
- Programs.Exec: says of a panic only that no level below is lost; which levels stay open is `LevelsAreRestored`. A program that panics stops where it is; code after a caught panic is not modelled.
- Limits.ScheduleStaysSolvent: assumes that executing a transaction uses at most its gas limit and does not lower the batch gas limit, which is up to the core module.
- Cryptography, CBOR and hashes are ideal: a signature names its key, context and body, and decoding inverts encoding.
- Multisig.ValidateBasic: does not model the rejection of repeated keys, because it compares Go interface identities, which never coincide in a decoded transaction.
- Single-signature address specifications without any key, on which the Go client dereferences nil.
- Submission order among overlapping but incomparable signer sets: the source promises neither first-in-first-out nor freedom from starvation.
- Bounded channels, task scheduling and errors of the submitted transactions: sends do not block and completions are always reported.
- Scheduler: bundle pulling, metadata and instance updates, payment claims and removal timestamps; ids in the market's list are taken to be distinct, and both queries of a pass see the same list.
- Scheduler.AcceptedFitsCapacity: says nothing about a pass that accepts nothing, in which instances accepted earlier may exceed a capacity that was lowered.
- Confidential stores: they differ from public ones only in encryption.
- HTTP clients, compose parsing, firewalls, configuration files, the TypeScript, Python and Rust clients and procedural macros.
