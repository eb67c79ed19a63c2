# A verified model of dbstore

dbstore hands out named, throttled, closable clients to code that runs in many
goroutines. This project models its four most intricate parts in Dafny and proves
what the documentation promises about them, and a few things it does not say:

1. the lifecycle and execution protocol of `internal/store`, as a step machine over
   any number of concurrent calls, as goroutines whose frames unwind through their
   deferred calls when a callback or `fn` panics, and as classes that one goroutine
   calls;
2. the Prometheus observer, as a fold over the callbacks that protocol delivers;
3. the generator `cmd/dbstore-gen`: import aliases, the import table, and a whole
   run over the files of a package;
4. the row and byte budget of the `query` tool in `mcpserver`.

`dafny verify dfyconfig.toml` checks everything.

## Modules

- `Basics`, `Sorting`, `Numerals`, `Json`: names and identities, sorted names,
  decimal numerals, JSON text and its size in bytes.
- `Registry`: the atomic registry, a map from names to entry identities plus a closed
  flag, with what each operation may answer and what it does.
- `Protocol`: the step machine. `Counting`, `Shape`, `Counters`, `Lifecycle`,
  `Draining`, `Linearity`, `Callbacks`, `Brackets`, `Metrics`, `Rollback`, `Ending`:
  one part of the invariant each, with a lemma for every group of steps. `Invariant`
  puts the parts together.
- `Histories`, `Alternation`, `Answers`: consequences for every legal history of the
  registry, and the registry told by its history alone.
  `Safety`: consequences in every reachable state. `Runs`: consequences over whole
  runs. `Provenance`: the register, the driver and the limit behind each entry.
  `Contexts`: Runs whose context has ended. `Guards`: what the guards of single steps
  achieve. `Deadlock`, `Termination`: progress. `Completeness`: what the atomic registry
  can do the protocol can do. `Transparency`: an observer changes nothing and takes nothing
  away.
- `Frames`: the control flow of one goroutine: frames, deferred calls, panics, recover.
  `Positions`, `Deliveries`: where a Run and a delivery of callbacks can be, frame by
  frame, and every step from there. `Unwinding`: the step machine with such goroutines.
  `Unwound`, `Recovery`: it refines the protocol. `Patterns`: which callbacks panic
  makes no difference. `Cleanup`: what deferred calls achieve. `Execution`: every run of
  the protocol is carried out by goroutines. `Progress`: deadlock freedom, a bound and
  completion with goroutines. `Safeguards`: what is lost without `safeObserve` or without
  `defer`.
- `Throttling`, `Observing`, `Driving`, `Directories`, `Executors`, `Adapters`: the
  objects of `internal/store`, updated in place.
- `Aliases`, `Importing`, `Formatting`, `Naming`: import tables, import blocks and paths
  of the generator. `Generating`: a run of it. `Requests`: the backends it is asked for.
  `Regenerating`, `Scaffolds`: what one run changes, writes and says.
  `Rerunning`: what a second run does. `Instances`: runs with the plainest tools, on which
  a second run fails or changes files.
- `Querying`: the query's rows and their budget.

## The step machine

A state holds every call with its program counter, the two mutexes `mu` and
`observerMu`, the map, the closed flag, the `openings` count, a record per entry
(limit, tokens, in-flight count), the driver builders, and history information that
no step reads: operations in the order they took effect, callbacks as delivered,
clients as opened and closed. Entry and client identities are natural numbers.

- `RegisterFirst`, `OpenSucceeds`, `OpenFails`, `RegisterSecond`, `DiscardClient`,
  `FinishRegister`: `register`, internal/store/directory.go:74-130. The driver's Open
  lies between two critical sections, so the second one checks again.
- `TakeObserverLock`, `Deliver`, `Unlock`: `beginLifecycleNotification` and the
  callbacks, internal/store/directory.go:48-53, 120-128, 218-226. A call at `Handover`
  has mutated and still holds `mu` while it waits for `observerMu`. Taking
  `observerMu` and letting go of `mu` are one step.
- `RemoveFirst`, `Swap`, `Pick`, `Drained`, `CloseClient`, `DrainDone`, `OpeningsDone`:
  `removeEntry` and `RemoveAll`, internal/store/directory.go:161-211. `Swap` fixes the
  order of the callbacks at once; the source fixes it while it holds `observerMu`.
- `Admit`, `CheckContext`, `Grant`, `GiveUp`, `ObserveRefused`, `ObserveGranted`,
  `FnReturns`, `ObserveComplete`, `ReturnToken`, `WgDone`: `Run`, `runSource` and
  `runEntry`, internal/store/executor.go:27-75, with the throttle of
  internal/store/throttle.go:9-40. With a token ready and the context ended both
  `Grant` and `GiveUp` are open, as they are to `select`.
- `StartConfigure`, `Continue`: `Configure`, internal/store/adapter.go:91-112, one
  register or one rollback removal after another, in any order of the map.
- `Start`, `Cancel`, `Read`, `AddDriver`: a new call, an ended context, `Sources` and
  `NewSource`, and driver registration.

Removal and admission take effect at their critical section, a register that fails
to open at the failure.

In `Protocol` a panic of `fn` is one of its outcomes, and callbacks do not panic.
`Unwinding` is the same machine with the control flow put back: from its admission on a
Run is a goroutine that runs the code of `runEntry`, internal/store/executor.go:46-75,
and so is a call that delivers lifecycle callbacks under `observerMu`,
internal/store/directory.go:95-129 and 218-226. A goroutine is a stack of frames with
the code and the deferred calls they have left. A callback or `fn` may panic at will; a
panicking frame drops its code and makes its deferred calls, last one first;
`safeObserve` and the deferred complete callback recover. Nothing else cleans up. Each
step of this machine is a step of the protocol or none (`Recovery.FineStepRefines`), and
each run of the protocol is carried out by it under any pattern of observer panics
(`Execution.EveryRunCarried`). So what is proved of every reachable state and every run of
the protocol holds with panics; that a run can go on and comes to an end is proved again for
the goroutines, in `Progress`.

In the classes a wait of the source, for a token, for the Runs inside an entry or for
the registers under way, is a loop in which the others come to their end, one by one.
What an observer hears there is what the modelled call makes it hear, not the callbacks
of the Runs it waits for.

## Assumptions

Driver `Open`, `ApplyPoolConfig` and `Close`, `fn` and observer callbacks return or,
for `fn` and observers, panic; they do not call `runtime.Goexit` and do not call back
into the Directory or into the same throttle. `Open` returns a client that was not
returned before, and an entry's identity is not reused while somebody holds it. A
client without `Close` has a close step that does nothing.

## Where code and documentation differ

- dbstore's README.md:444-445 says that an observer that calls back into its Directory panics
  on purpose. `sync.Mutex` does not panic: such a call waits for a lock its own
  goroutine holds, as README.md:480-483 says.
- A second run of the generator does not always succeed, and it can change files.
  `Rerunning.RunAgain` says what it does, by what was there before the first run. The first
  run overwrites the file at the output path, so what counts for a backend are the methods
  it had outside that file. If it had some but not all there, the second run fails and names
  the missing ones. If all its methods were in the output file, the first run took it for
  implemented, wrote no stub and lost them; the second run adds the stub, or fails if
  something is in the stub's place. If it had no methods, it got a stub, and the second run
  must find it again: the interface has a method, the stub's file is a production file (the
  backend's name is not `test` and does not end in `_test`) and it is not the output file.
- So, where stubs render, a second run changes the files exactly when its check passes for
  all backends and one of them was lost that way (`Rerunning.RunAgainChanges`).
  `Instances.RunAgainMayChange` is this for a backend written by hand in `user_gen.go`, with
  the default output path, `Instances.RunAgainMayFail` the failure for one backend in a
  package with its source file only. Once a second run has succeeded no later one changes a
  file (`Rerunning.ThirdRunKeeps`).
- A stub does not import every package that its interface mentions: for a type of dbstore
  itself the import is missing, unless the backend's adapter is that package
  (`Formatting.StubImportsComplete`, cmd/dbstore-gen/generator.go:194-208 and
  template.go:150-156). All the others are there, under the names the types are written with.
- The generator says existing fixtures are never overwritten. With the default output
  path a fixture of a backend called `compliance_gen`, and the stubs of backends called
  `gen` and `compliance_gen_test`, are files of the generator's own and do not survive
  (`Regenerating.CollisionsOverwritten`, `Naming.Collisions`).
- Backend names that differ only in the case of their first letter pass the
  duplicate check and share one struct name (`Naming.SameStruct`).
- The final size check of `query` never fires for a source name that escaping lengthens
  by at most 46 bytes, such as any name of nine characters; then the loop alone decides
  (`Querying.LoopDecides`). It can for longer ones (`Querying.FinalCheckFires`, with an
  instance in `Querying.FinalCheckMayFire`).
- "Concurrent opens of one name: exactly one wins" (README.md:437) holds once some
  driver Open has succeeded, with no removal of the name and no close meanwhile;
  `Runs.ExactlyOneWins` carries these conditions.

## Model

| member | source | states |
|---|---|---|
| Invariant.StepInv | internal/store/directory.go:74-266 | every step of every call keeps the whole invariant: locks, counters, places of entries and clients, history, callbacks, metrics, Configure's bookkeeping |
| Invariant.RunInv | internal/store/directory.go:26-38 | the invariant holds in every state of every run over any number of calls |
| Invariant.InitInv | internal/store/directory.go:55-61 | a new Directory satisfies it |
| Safety.Linearizable | internal/store/directory.go:74-130 | every answered operation is one event of a legal history of the atomic registry, with the answer it was given, and replaying the history gives the map and the closed flag |
| Runs.TakesEffectInside | internal/store/directory.go:161-211 | that event lies between the call and the answer |
| Runs.RealTimeOrder | internal/store/directory.go:239-262 | an operation answered before another is unanswered precedes it in the history |
| Runs.Refines | internal/store/directory.go:74-266 | refinement: each step of the protocol leaves the atomic registry alone or is exactly one legal operation of it, by the call that moves |
| Answers.LegalIsFollowing | internal/store/directory.go:74-266 | a history is legal exactly when each answer follows from the operations before it: which register a name means now, whether there was a RemoveAll, which entries were published |
| Guards.HistoryTells | internal/store/directory.go:74-266 | in every reachable state map and closed flag are what the operations so far make them, and every answer follows from those before it |
| Completeness.EveryHistoryRuns | internal/store/directory.go:74-266 | the other way: every such history of calls that come one after another, with known drivers, is the history of a run that ends with all of them returned |
| Completeness.CallersMay | internal/store/directory.go:66-68 | any operation may be called and any context may end at any time; a driver may be added until the builders are frozen |
| Completeness.AnyConfiguration | internal/store/adapter.go:91-100 | any configuration may be given to Configure, and any name of it may come first |
| Completeness.DriversMay | internal/store/driver.go:52-64 | an opening may fail, and with a known driver it may give any new client |
| Completeness.RunsMay | internal/store/throttle.go:28-33 | fn may return a value, an error or its context's error, or panic; a select whose context has ended may give up, and one with a token may take it, ended or not |
| Linearity.RegisterLinear | internal/store/directory.go:74-130 | each register step takes effect as the atomic operation does, or leaves map, flag and history alone; a failed register leaves the map unchanged |
| Linearity.RemoveLinear | internal/store/directory.go:161-211 | the same for removals |
| Linearity.RunLinear | internal/store/directory.go:239-262 | the same for admissions |
| Deadlock.NoDeadlock | internal/store/directory.go:48-53 | while any call has not returned, some call can take a step, through mu, observerMu, tokens, both WaitGroups and fn |
| Deadlock.UnblockedCanStep | internal/store/executor.go:46-75 | a call that waits for neither a lock, a token nor a WaitGroup always has a step |
| Deadlock.WaitsForRun | internal/store/directory.go:180-180 | a removal that waits for an entry waits for a Run that is inside that entry |
| Deadlock.WaitsForOpening | internal/store/directory.go:210-210 | a RemoveAll that waits for openings waits for a register between Add and Done |
| Deadlock.WaitsForToken | internal/store/throttle.go:28-33 | a Run that waits for a token of an entry waits for a Run that holds one of the same entry |
| Guards.MuExcludes | internal/store/directory.go:48-53 | while a call holds mu nothing is registered, removed, admitted or listed; openings may fail |
| Guards.OpensOnlyAbsent | internal/store/directory.go:75-95 | a register goes to its driver only from an open Directory without such a name, and counts among the openings from then on |
| Termination.StepSpends | internal/store/directory.go:97-129 | every step of the calls already made lowers a measure |
| Termination.Bounded | internal/store/directory.go:177-210 | no schedule of finitely many calls is longer than the measure of its first state |
| Termination.CompletesOrGoesOn | internal/store/executor.go:46-75 | a schedule has returned every call or can go on; with the bound, it completes |
| Termination.Completes | internal/store/directory.go:187-211 | from any reachable state every schedule can be completed, all calls returned |
| Safety.NoUseAfterClose | internal/store/directory.go:180-181 | while a Run is admitted to an entry, and so while it is in fn, the entry's client is open, its in-flight count is positive and nobody is at its close |
| Draining.RunRests | internal/store/directory.go:239-266 | an entry's count grows only while the entry is in the map |
| Counters.KeepCounted | internal/store/directory.go:246-265 | every entry's count is the number of Runs admitted to it, openings the number of registers between Add and Done |
| Safety.ClientConservation | internal/store/directory.go:97-120 | every opened client is in exactly one place: held by its opener, in the map, owned by a remover, or closed exactly once |
| Safety.OneOwner | internal/store/directory.go:187-204 | no two removers own one entry, and an owned entry is not in the map |
| Safety.OnlyOpenedClose | internal/store/directory.go:19-24 | only opened clients are closed |
| Safety.AllClosedAtTheEnd | internal/store/directory.go:187-211 | when all calls have returned and one was RemoveAll, every client is closed exactly once |
| Safety.RemovalFinished | internal/store/directory.go:177-181 | when a removal returns, all it took is drained, closed once, and in no Run's hands |
| Safety.TerminalClose | internal/store/directory.go:187-211 | when RemoveAll returns the Directory is closed and empty, no register is between Add and Done, and every unpublished client is closed |
| Runs.ClosedForGood | internal/store/directory.go:88-95 | from the step that sets closed the map stays empty and openings never rise |
| Histories.ClosedIsTerminal | internal/store/directory.go:78-82 | after a RemoveAll no register succeeds; each is told that the Directory is closed, or failed to open |
| Safety.TokenConservation | internal/store/throttle.go:9-40 | tokens in the channel and Runs holding one make up the entry's limit, and at most that many fns run at once |
| Provenance.LimitConfigured | internal/store/directory.go:113-120 | every entry has one successful register of its name, by the call that published it; with that register's MaxConcurrency positive, tokens and holders make it up and at most that many fns run at once, otherwise no Run ever waits |
| Contexts.OnlyEndedGivesUp | internal/store/throttle.go:20-34 | only a Run whose context has ended is refused by the throttle |
| Contexts.EndedNeverRuns | internal/store/throttle.go:21-24 | a Run whose context ends before its Acquire never gets through, limit or no limit, and never calls fn |
| Safety.ReleaseNeverBlocks | internal/store/throttle.go:36-40 | a Run giving its token back finds room in the channel |
| Safety.TokensBackWhenClosed | internal/store/executor.go:61-74 | once a client is closed all its tokens are back and its count is zero, after panics too |
| Safety.CallbackOrder | internal/store/directory.go:48-53 | delivered callbacks, then those pending at the holder of observerMu, then those pending at the holder of mu, are the mutation log; for each name the delivered ones alternate |
| Alternation.MutationsAlternate | internal/store/directory.go:171-178 | in every legal history a name's mutations strictly alternate, and end with a registration exactly while the name is present |
| Alternation.NetIsSize | internal/store/directory.go:188-199 | registrations minus removals is the number of sources |
| Safety.FailedConfigureLeavesNothing | internal/store/adapter.go:101-108 | after Configure has returned an error no entry it published is in the map, whatever ran beside it |
| Safety.RollbackTakesOwn | internal/store/adapter.go:104-106 | in every interleaving a call of Configure takes only its own entries out of the map, never a replacement or an earlier source |
| Safety.SucceededConfigurePublished | internal/store/adapter.go:100-112 | a successful Configure has published an entry for each configured name and for no other |
| Provenance.PublishedAsAsked | internal/store/adapter.go:100-109 | in every interleaving whatever a call of Configure has published has the limit, and a known driver, that its configuration gives under that name |
| Provenance.ConfiguredAsAsked | internal/store/adapter.go:100-112 | so a successful Configure has published a source for each name as the configuration says |
| Guards.RollsBackInOrder | internal/store/adapter.go:104-106 | a rollback goes through what was published in that order: what it has passed is out of the map |
| Guards.EmptyNameRefused | internal/store/adapter.go:92-94 | a configuration with an empty name fails before any operation is begun |
| Safety.SourceKeepsIdentity | internal/store/source.go:14-24 | a Source's Run only ever uses the entry captured at construction; a Source without one never runs |
| Runs.NeverAdmittedAgain | internal/store/directory.go:253-262 | once an entry is out of the map no later admission yields it, and every Run of a Source bound to it is refused, even if the name is registered again |
| Histories.RemovedNeverAdmits | internal/store/directory.go:253-262 | the same for every legal history |
| Histories.SafeRemoval | internal/store/directory.go:161-182 | after a name is removed every Run of it is refused until it is registered again |
| Histories.Visibility | internal/store/directory.go:239-248 | a Run by name is admitted to the entry of the latest successful register of that name, with no removal since |
| Histories.OpenBalance | internal/store/directory.go:102-120 | successful registers of a name minus its removals is 1 while it is present and 0 while it is not |
| Histories.ExactlyOneOpens | internal/store/directory.go:83-112 | among registers of an absent name with no removal of it, one succeeds and only one, as soon as one gets past Open |
| Runs.ExactlyOneWins | internal/store/directory.go:83-120 | the same over runs of the protocol |
| Runs.OpensShareBuilders | internal/store/driver.go:32-57 | all driver opens of a run resolve against one builders map |
| Provenance.OpenedByDriver | internal/store/driver.go:52-64 | in every run a register that succeeded opened its client while its driver was in the builders, and these have not changed since |
| Provenance.UnknownDriverFails | internal/store/driver.go:54-59 | an opening whose driver is unknown can only be answered that it failed |
| Guards.DriversStay | internal/store/driver.go:32-42 | a driver once registered stays the one under its name |
| Runs.BuildersFrozen | internal/store/driver.go:44-50 | once frozen the builders never change |
| Transparency.StepBlind | internal/store/directory.go:218-226 | every step with an observer is the same step without one, or changes nothing but what was delivered |
| Transparency.RunBlindly | internal/store/directory.go:48-53 | every run with an observer has one without that ends with the same registry, clients, answers, outcomes and panics of fn |
| Transparency.RunSighted | internal/store/directory.go:218-226 | the other way: every run without an observer is what some run with one looks like without it, each call delivering all it has to tell before it lets go of observerMu |
| Positions.SafeExec | internal/store/observer.go:66-69 | inside safeObserve: whatever the observer does, the frame comes back to its caller not panicking, by way of its deferred recover |
| Positions.RunExec | internal/store/executor.go:46-75 | every step of a Run's frames from every position, whichever callbacks and fn panic |
| Deliveries.TellExec | internal/store/directory.go:218-226 | the same for a delivery under observerMu, registers with openings.Done still deferred included |
| Frames.ExecAccounts | internal/store/executor.go:47-73 | whatever panics, a deferred call once registered has been made once or is still to be made |
| Recovery.FineStepRefines | internal/store/executor.go:46-75 | each step with goroutines, callbacks and fn panicking at will, is a step of the protocol or leaves its state alone |
| Cleanup.FineRefines | internal/store/directory.go:74-266 | so every run with goroutines and panics stands for a run of the protocol, and what holds in its states holds here |
| Patterns.PanicsDoNotMatter | internal/store/observer.go:59-69 | for every run and every other pattern of observer panics there is a run of that pattern that is the same in every state: tokens, counts, locks, registry, clients, outcomes and callbacks made |
| Cleanup.EveryDeferRuns | internal/store/executor.go:47-73 | a goroutine at its end has made each deferred call it registered exactly once; a Run's come in their fixed order, and it panics on exactly when fn panicked |
| Cleanup.EveryDeferOwed | internal/store/executor.go:47-73 | in every state before that, made and outstanding deferred calls are those registered |
| Cleanup.NothingHeld | internal/store/executor.go:47-61 | once no goroutine is inside an entry all its tokens are back and its count is zero, whatever panicked |
| Cleanup.NobodyTells | internal/store/directory.go:214-219 | observerMu is held only while a goroutine delivers callbacks under it |
| Cleanup.NeverStuck | internal/store/executor.go:46-75 | nothing keeps a goroutine from unwinding but the wait for a token |
| Recovery.LeftFalls | internal/store/executor.go:46-75 | and each of its steps lowers the number it has left |
| Execution.EveryRunCarried | internal/store/executor.go:46-75 | every run of the protocol is carried out by goroutines, with callbacks that panic by any pattern given beforehand |
| Cleanup.NoneTheWiser | internal/store/observer.go:59-69 | every run with goroutines, observers and panics ends as some run without an observer does |
| Execution.AnyPanics | internal/store/observer.go:59-69 | every run without an observer has, for every pattern of panics, one with an observer that ends alike |
| Progress.FineNoDeadlock | internal/store/executor.go:46-75 | whatever panicked, while a call has not returned or a goroutine has not unwound, some call or goroutine has a step, other than that a context ends |
| Progress.FineSpends | internal/store/executor.go:46-75 | every step of the calls already made, the protocol's own or one inside a goroutine, lowers one measure |
| Progress.FineBounded | internal/store/directory.go:177-219 | from each state there is one bound on all schedules, whichever callbacks and fns panic in them |
| Progress.FineCompletes | internal/store/executor.go:46-75 | every schedule can be completed: all calls returned, all goroutines unwound |
| Safeguards.BareCallback | internal/store/executor.go:58-61 | were the acquire callback not inside safeObserve, its panic would lose the token, as Release is deferred only after it |
| Safeguards.PlainRelease | internal/store/executor.go:61-73 | were Release called after fn instead of deferred, a panic of fn would lose the token |
| Safety.RunBracketed | internal/store/executor.go:46-75 | a returned Run made no callback if it was not admitted, one failed acquire if it gave up, else one granted acquire and then one complete with the outcome it returned |
| Safety.NoOutcomeWithoutAdmission | internal/store/executor.go:27-33 | a Run has no outcome exactly when its name was not found |
| Metrics.Conservation | adapters/prometheus/observer.go:127-153 | over any callbacks granted waits equal completed runs of every status plus inflight, and sources_active equals registered minus removed |
| Metrics.CountersCount | adapters/prometheus/observer.go:116-153 | each labelled histogram has counted exactly the callbacks with its labels |
| Metrics.RunsByStatus | adapters/prometheus/observer.go:116-153 | "error" counts the Runs that failed or panicked, "canceled" those whose context had ended, "ok" the others |
| Metrics.WaitsByStatus | adapters/prometheus/observer.go:142-147 | of the waits "ok" counts those let through, "canceled" the others, "error" none |
| Metrics.EventsCount | adapters/prometheus/observer.go:128-137 | the two lifecycle counters count the registrations and the removals |
| Safety.StatusesAgree | adapters/prometheus/observer.go:150-153 | in every run of the protocol "ok" counts the Runs that returned a value, "canceled" those that returned their context's error, "error" those that failed or panicked |
| Safety.InflightAgrees | adapters/prometheus/observer.go:142-153 | inflight of a name is the number of Runs between their two callbacks, so never negative |
| Safety.ActiveAgrees | adapters/prometheus/observer.go:127-137 | sources_active plus the net of pending callbacks is the size of the map |
| Metrics.Observer.ObserveSourceRegistered | adapters/prometheus/observer.go:127-131 | updates the metrics in place as the fold does |
| Metrics.Observer.ObserveSourceRemoved | adapters/prometheus/observer.go:133-137 | the same for a removal |
| Metrics.Observer.ObserveAcquire | adapters/prometheus/observer.go:142-147 | the same for an acquire, counting inflight only when granted |
| Metrics.Observer.ObserveComplete | adapters/prometheus/observer.go:150-153 | the same for a complete |
| Throttling.Throttle.constructor | internal/store/throttle.go:9-18 | a positive limit gives a full channel, any other no channel |
| Throttling.Throttle.Acquire | internal/store/throttle.go:20-34 | grants exactly when the context had not ended and there is no limit, or a token that select picks; a refusal takes nothing |
| Throttling.Throttle.Release | internal/store/throttle.go:36-40 | puts one token back, needing room for it |
| Observing.SafeObserve | internal/store/observer.go:66-69 | the observer is told, and no panic leaves |
| Observing.MultiObserve | internal/store/observer.go:76-100 | every member is told as often as it is listed, whichever members panic |
| Observing.MultiObserveAll | internal/store/observer.go:71-100 | over any sequence every member receives all of it in order, each callback as often as the member is listed |
| Observing.EachOnce | internal/store/observer.go:71-100 | so a member listed once receives the sequence itself |
| Driving.DriverRegistry.Register | internal/store/driver.go:32-42 | panics exactly when frozen or taken, and changes the builders only otherwise |
| Driving.DriverRegistry.Open | internal/store/driver.go:52-72 | opens one new client exactly when the driver is in the builders and its Open succeeds |
| Directories.Directory.BeginRegister | internal/store/directory.go:78-95 | the first critical section: refusals, freezing, and one more opening |
| Directories.Directory.Publish | internal/store/directory.go:102-129 | the second: in any state the client is published under the atomic operation's rules or closed, never both and never neither |
| Directories.Directory.Register | internal/store/directory.go:74-130 | is the atomic register, with any Runs inside other entries and any registers under way; each refusal in its order, OpenFailed for an unknown driver or one that fails, and otherwise an entry with the driver and the limit asked for, all its tokens there; the callback comes exactly with a success; openings is what it was |
| Directories.Directory.RemoveEntry | internal/store/directory.go:161-182 | is the atomic removal with or without an expected identity, with any Runs inside; it closes exactly the client it removed, after every Run has left that entry and every token is back, and waits for no other entry |
| Directories.Directory.RemoveAll | internal/store/directory.go:187-211 | is the atomic RemoveAll, with any Runs inside and any registers under way; it closes each client of the map and of those registers exactly once, whatever the map's order, and leaves none under way |
| Directories.Directory.Acquire | internal/store/directory.go:239-248 | admits to the entry of that name and counts it |
| Directories.Directory.AcquireSource | internal/store/directory.go:253-262 | admits only to the identity captured, and counts nothing otherwise |
| Directories.Directory.SourceEntry | internal/store/directory.go:231-235 | the identity behind a name, without admission |
| Directories.Directory.Sources | internal/store/directory.go:134-149 | lists every source once, with its driver and limit, sorted by name, whatever the map's order |
| Sorting.AscendingUnique | internal/store/directory.go:147-147 | the sorted order is settled by the names alone |
| Sorting.BeforeIs | internal/store/directory.go:147-147 | and it is the order of strings: a name comes before another exactly when it is a proper prefix or has the smaller character at the first difference |
| Executors.Executor.Unwind | internal/store/executor.go:47-73 | the deferred calls are made last one first, each once, and a panic goes on exactly if there was one, with the complete callback's recover in between |
| Executors.Executor.RunEntry | internal/store/executor.go:46-75 | for every outcome of fn, every observer and any other Runs inside: result, client passed, token and count given back, callbacks in pairs; where it has to wait for a token exactly one other Run has left |
| Executors.Executor.Run | internal/store/executor.go:27-33 | the whole Run by name, in any valid Directory |
| Executors.Executor.RunSource | internal/store/executor.go:36-42 | the whole Run by identity, in any valid Directory |
| Executors.NewSource | internal/store/source.go:14-16 | captures the identity behind the name at construction |
| Executors.Source.Run | internal/store/source.go:22-24 | runs exactly while the name means the captured entry; passes fn its client or nothing |
| Adapters.Adapter.Configure | internal/store/adapter.go:91-112 | succeeds exactly when no name is empty and each is absent from an open Directory and has a known driver that opens; then the map is the old one plus exactly the configured names, each with its driver and limit; otherwise the map is restored and each client the call opened is closed exactly once; the observer hears of each name published, in turn, and after a failure of its removal, in the same order; for every order of the configuration |
| Adapters.Adapter.Rollback | internal/store/adapter.go:104-106 | takes away exactly what was published, in the order in which it was, and closes exactly its clients |
| Driving.IssuedOnce | internal/store/adapter.go:81-90 | the clients closed by a failed Configure are those it opened, once each |
| Aliases.ImportTable.UniqueAlias | cmd/dbstore-gen/parser.go:193-205 | the unbounded search ends, with the name itself or with the least number from 2 on that makes it free |
| Aliases.Pigeonhole | cmd/dbstore-gen/parser.go:198-204 | a table of n aliases blocks at most n candidates |
| Aliases.CandidatesDiffer | cmd/dbstore-gen/parser.go:199-199 | name, name2, name3 and so on are all different |
| Numerals.DecimalMeans | cmd/dbstore-gen/parser.go:199-199 | a numeral means its number and has no idle zeros |
| Aliases.GrownSound | cmd/dbstore-gen/parser.go:155-160 | an import added keeps the table injective and the reserved names reserved |
| Importing.ParseImports | cmd/dbstore-gen/parser.go:142-161 | over all packages met: one alias for each foreign package, none shared, none reserved, and what was written for a type stays right to the end |
| Importing.BuildImports | cmd/dbstore-gen/generator.go:160-208 | the import block lists each path once, sorted, without the reserved ones; no two names are alike; every alias in a type or a backend means its package; the result does not depend on any map's order |
| Importing.BindsOne | cmd/dbstore-gen/generator.go:194-207 | in such a block an alias means one package |
| Importing.AllShown | cmd/dbstore-gen/generator.go:172-192 | each backend name is shown once, with the alias of its package |
| Formatting.FormattedKeeps | cmd/dbstore-gen/generator.go:239-253 | sorting a run of import lines and collapsing the repeated ones keeps every line, once, in order |
| Formatting.StubImportsDistinct | cmd/dbstore-gen/template.go:142-156 | a written stub imports what its template lists, each line once, and no two packages share a name, also when the interface mentions the backend's own package; exactly when that package is not context, which backend resolution refuses |
| Formatting.GenImportsDistinct | cmd/dbstore-gen/generator.go:194-208 | the same for the generated file |
| Formatting.StubImportsComplete | cmd/dbstore-gen/generator.go:194-208 | a stub imports a package its interface mentions, under the alias its types use, exactly when that package is not dbstore or the backend's adapter is dbstore |
| Naming.BaseNameOf | cmd/dbstore-gen/generator.go:54-60 | Repository goes from the end of a longer name, and nothing else goes |
| Naming.StructIs | cmd/dbstore-gen/generator.go:183-191 | a backend's struct is the backend's name, its first letter raised, then the interface's base, then Backend |
| Naming.WrapperIs | cmd/dbstore-gen/generator.go:121-128 | the wrapper is the base, its first letter lowered, then Repo |
| Naming.SameStruct | cmd/dbstore-gen/generator.go:183-191 | two backends share a struct exactly when their names agree up to the case of the first letter |
| Naming.WrapperApart | cmd/dbstore-gen/generator.go:121-128 | the wrapper's name is never a backend struct's |
| Naming.Collisions | cmd/dbstore-gen/main.go:121-170 | exactly which backend names make two generated paths one |
| Naming.StubScanned | cmd/dbstore-gen/implementation.go:22-27 | a stub is read by the next run exactly when its name is not test and does not end in _test |
| Generating.SpecRoundTrip | cmd/dbstore-gen/main.go:190-205 | a name without a colon and an adapter, joined by a colon, parse back to themselves, and a name alone stands for name:name |
| Requests.SpecIs | cmd/dbstore-gen/main.go:190-205 | a spec is taken exactly when it is a non-empty name without a colon, alone or with a non-empty adapter, and gives these |
| Requests.Builtins | cmd/dbstore-gen/main.go:180-188 | the built-in adapters stand for their packages, sqlite, mysql, postgres and sqlx for one, and any other for itself |
| Requests.ResolveIs | cmd/dbstore-gen/main.go:80-98 | every spec is read, new and resolved and gives its backend, or the first that is not is blamed, for that reason |
| Generating.ReceiverIs | cmd/dbstore-gen/implementation.go:48-61 | in whatever pointers and type arguments a receiver's type is wrapped, it goes by the name inside, and by none if there is none |
| Generating.MethodsAre | cmd/dbstore-gen/implementation.go:26-43 | the methods of a type are those that some production file declares on it, however wrapped |
| Generating.Workspace.InspectBackend | cmd/dbstore-gen/implementation.go:17-46 | finds exactly the methods that production files declare for the type, on itself, on pointers and on instances, and fails exactly when one does not parse |
| Generating.NoneMissing | cmd/dbstore-gen/implementation.go:74-82 | nothing is missing exactly when every wanted method is there |
| Generating.Workspace.Run | cmd/dbstore-gen/main.go:34-178 | the run, with its loops and early returns, is the function the next rows are about |
| Regenerating.PreflightPasses | cmd/dbstore-gen/main.go:104-127 | the check lets a run write exactly when every backend is complete or has neither methods nor a file in its stub's place |
| Regenerating.FailsBeforeWriting | cmd/dbstore-gen/main.go:77-127 | a run that fails for anything but a rendering leaves every file unchanged |
| Scaffolds.RunMakes | cmd/dbstore-gen/main.go:129-175 | successful or not, a run changes or adds a file only by the template that belongs at its path: generated file, suite, a backend's fixture, registry, a backend's stub |
| Scaffolds.RunLeaves | cmd/dbstore-gen/main.go:129-175 | after a successful one all of these are there; where a backend has no stub file it has methods |
| Scaffolds.RunEnds | cmd/dbstore-gen/main.go:77-175 | how a run ends: the first spec that is refused, else the first backend that is neither complete nor free of methods and of a file in its stub's place, with what is wrong, else success or a template that did not render |
| Scaffolds.CheckSays | cmd/dbstore-gen/main.go:106-127 | what is said of a backend: an unparsable file, the interface's methods it lacks, or its stub's place taken |
| Scaffolds.MissingIs | cmd/dbstore-gen/implementation.go:74-82 | the missing methods are those wanted and not there |
| Scaffolds.MissingSplits | cmd/dbstore-gen/implementation.go:74-82 | in the order in which they are wanted |
| Regenerating.OthersUntouched | cmd/dbstore-gen/main.go:129-175 | no run, successful or not, changes an existing file other than its output and the fixture registry |
| Regenerating.OwnedFilesKept | cmd/dbstore-gen/main.go:207-229 | with the default output path suite, fixtures, stubs and production files other than the one at that path are never changed, the collision names apart; what is at the output path is overwritten, hand-written methods included |
| Regenerating.GeneratorFilesWin | cmd/dbstore-gen/main.go:129-161 | after a successful run the output file and the fixture registry hold what the generator rendered, whatever was there; if they are one file, it is the registry |
| Regenerating.CollisionsOverwritten | cmd/dbstore-gen/main.go:147-161 | with the default output path so do the files of the collision names: the stub of gen, and with tests the fixture of compliance_gen and the stub of compliance_gen_test |
| Rerunning.MethodsAgain | cmd/dbstore-gen/main.go:100-177 | the methods a second run finds are those outside the output file, for a backend implemented before, and otherwise exactly the interface's, where a stub with that struct is read |
| Rerunning.CheckAgain | cmd/dbstore-gen/main.go:104-127 | what the second run says to each backend, told from the files before the first run: passed, the methods it misses, or a stub's place taken |
| Rerunning.RunAgain | cmd/dbstore-gen/main.go:100-177 | a second run with the same input either stops at the first such complaint and leaves the files alone, or keeps every file and adds exactly the stubs of the backends whose methods were all in the output file |
| Rerunning.RunAgainChanges | cmd/dbstore-gen/main.go:100-177 | where stubs render it changes the files exactly when no backend gives cause for complaint and some backend's methods were all in the output file |
| Rerunning.ThirdRunKeeps | cmd/dbstore-gen/main.go:100-177 | once a second run has succeeded the next changes nothing |
| Rerunning.RunAgainKeeps | cmd/dbstore-gen/main.go:100-177 | with no backend method at the output path a second run changes nothing, and succeeds exactly when every backend was implemented before or has a stub that declares something where it is looked for |
| Rerunning.RunAgainSucceeds | cmd/dbstore-gen/main.go:100-177 | with the default output path, at least one method and collision-free names, it succeeds and changes nothing exactly when every implemented backend has all its methods outside the output file |
| Instances.RunAgainMayFail | cmd/dbstore-gen/main.go:120-124 | for one backend in a package with its source file alone the second run succeeds exactly when the interface has a method and the stub is a production file other than the output |
| Instances.RunAgainMayChange | cmd/dbstore-gen/main.go:129-177 | for one backend written by hand in the default output file both runs succeed, the first writes no stub, and the second adds it |
| Querying.Query | mcpserver/sql.go:222-285 | succeeds exactly when all that must go well does; the rows are then the first min(n, maxRows) as scanned, with bytes as text and all else as it is, truncated holds exactly when there are more, and the encoding fits; each failure has its cause |
| Querying.Collect | mcpserver/sql.go:242-272 | the loop over the cursor stops at the first obstacle and says which, or ends with the first min(n, maxRows) rows as given out, the truncation flag and an estimate within the limit |
| Querying.Keep | mcpserver/sql.go:259-271 | one row is taken as scanned with bytes as text, encoded and charged, or refused for want of an encoding or of budget |
| Querying.JoinedInOrder | mcpserver/sql.go:276-280 | the encoded rows follow one another in the answer's order |
| Querying.EncodeSize | mcpserver/sql.go:276-280 | the exact size of the response, part by part |
| Querying.EstimateVersusExact | mcpserver/sql.go:242-281 | estimate and exact size differ by a counted slack and by the escapes of the source name |
| Querying.SlackBounds | mcpserver/sql.go:242-242 | the slack is between 46 and 65 bytes |
| Querying.FinalCheckFires | mcpserver/sql.go:281-283 | the final check rejects what the loop accepted exactly when the escapes outweigh slack and remaining budget |
| Querying.FinalCheckNeverFires | mcpserver/sql.go:281-283 | never for a source name that needs no escaping |
| Querying.FinalCheckSpares | mcpserver/sql.go:281-283 | nor for one that escaping lengthens by at most 46 bytes |
| Querying.ShortNames | mcpserver/sql.go:277-281 | as it does every name of at most nine characters |
| Querying.LoopDecides | mcpserver/sql.go:222-285 | for such a name the query succeeds exactly when the loop does |
| Querying.FinalCheckMayFire | mcpserver/sql.go:281-283 | but it can for one that does |
| Querying.Limit | mcpserver/sql.go:197-210 | what is asked for within the server's maximum is in force, the server's default when nothing is, and only asking for more is refused |
| Json.QuotedSize | mcpserver/sql.go:277-281 | the size of a quoted string is its own plus two plus the escapes |
| Json.NothingExtra | mcpserver/sql.go:277-281 | nothing is added exactly when no character needs an escape |
| Json.RoundTrip | mcpserver/sql.go:277-281 | a reader of JSON strings reads back what was written |
| Json.Harmless | mcpserver/sql.go:277-281 | nothing written is a control character, an angle bracket, an ampersand or a line separator, and text with none of these, no quote and no backslash is left alone |
| Json.WidthIsLeast | mcpserver/sql.go:241-241 | a character counts the fewest bytes that have room for it |

## Left out

- The adapter packages for sqlx, REST, OpenSearch and Elasticsearch, `runner.go`, `dbstoretest`, the examples and `cmd/dbstore-mcp`: delegation to the core or to client libraries.
- REST URL resolution, HTTP, SQL execution and transactions: they belong to libraries and databases.
- Real time: `createdAt`, durations and histogram buckets. Only event counts and status labels are kept.
- The errors of client `Close`: `Remove` returns them and everything else drops them; the model's removal only says that the client is closed.
- Error texts and wrapping. Errors are the constructors of `Registry.Result`, `Generating.Problem` and `Querying.Answer`.
- `Closer` and `PoolConfigApplier` as optional capabilities: a client without `Close` has an empty close step, and tuning is part of opening.
- Reentrant calls from observers, `fn` or drivers, `runtime.Goexit`, and panics of drivers and `Close`: assumed away above. A panic of `Open` would leave the Directory to the deferred `openings.Done`.
- The memory model below mutexes, and `sync.WaitGroup` misuse panics: `NoUseAfterClose` and `Counters.KeepCounted` show that counts match their users and stay non-negative.
- Fairness: `Termination` bounds every schedule of finitely many calls, so none is needed.
- `Directories`, `Executors` and `Adapters` follow one goroutine's calls and have no locks; the locks and the interleavings are in `Protocol`. While a class method waits, others finish what they have begun and begin nothing.
- `Directory.get`, which exists for the repository's own tests.
- `NewAdapter` and its options, and `registerOrReuse` of the Prometheus observer: single checks and wiring.
- The sharing of one metrics registry by several observers.
- The order in which `parseInterface` sorts methods: an interface has its methods in that order already.
- Go type checking, package loading and YAML: an interface is its method names and import table, a package what `resolve` answers, and a file its parsed functions and opaque text.
- The text of templates: rendering is a function that may fail, with what a rendered file declares stated in `Regenerating.Faithful`. Of gofmt only what it does to a run of import lines is modelled.
- `-config` parsing, `GOFILE` and flag parsing: the run starts from the effective interface, source, backends and flags.
- Generator input and output errors of the file system: reading and writing succeed. Directories, links and an output path in another directory are not modelled beyond not being read.
- The interface is a given of a run, so a run that overwrites its own source file through `-out` is not followed into the next run.
- Build constraints that a backend name such as `linux` or `amd64` gives a stub's file name.
- Letters outside ASCII in `upperFirst` and `lowerFirst`.
- Strings that are not valid UTF-8: text is a sequence of characters, and sizes are its bytes in UTF-8.
- MCP tool registration, policies, the filter on query texts, timeouts and listing or describing tables: single checks or wiring.
- Executors.Executor.RunEntry: the context is what it was when Acquire looks; `fn` does not use the store.
