# The aka plugin runtime and the gpu-wiki query tools, modelled and proved in Dafny

This project models the parts of the repository whose behaviour does not show in any one function:

- **The plugin runtime** (`src/aka/core`). A root holds a tree of fibers. A fiber's dependency epoch is
  the tuple of registration serials behind its injections, and a work queue refreshes fibers until
  nothing changes. `Runtime` states one step of everything as functions on values; `Currency`,
  `Settling` and `Runs` prove that quiescence leaves no stale reference; `Ownership`, `OwnedActions`,
  `OwnedRuns`, `Shutdown` and `Guarantees` prove ownership, isolation of loads, consumers-first teardown
  and recovery from aborts, and `HostProvides` and `ProvideRuns` the exact place of host provides in
  that; `Loads`, `Restarts`, `Hosts` and `Rosters` say what one load, one restart and one host call come
  to; `Ranks`, `KeyedRanks` and `NestedRows` bound the rounds of a settle, nested plugins included;
  `Rows`, `FlatSteps`, `Convergence`, `FixedPoints`, `MountOrder` and `RequiredOnly` say what a settled
  composition looks like and when mount order cannot matter. `Objects` is the runtime as objects with
  fields that change, each method proved to compute the step of the same name, so every result about
  runs is a result about them. `Loader` and `Preflight` are the boot path on top.
- **Realms, effects and events** (`Registry`, `Realms`, `Teardown`, `Effects`, `Waterfall`, `Events`):
  the isolation tree and its two views, the effect stack under disposers that add, dispose and raise,
  and the waterfall under listeners that delegate, catch, dispose each other and reuse stale delegates.
- **Composition and the lock** (`Bundles`, `Patches`, `PatchFields`, `Interpolation`, `Resume`).
- **The query tools** (`WordBreak`, `Quotas`, `Merges`, `FoldEvents`). `Lists` holds what all of them
  need about duplicate-free sequences.

A plugin is a strategy: whenever its fiber loads, it is asked, for that fiber and the whole state, how
config resolution ends, which actions its apply performs (provide, withdraw, file an effect, mount or
drop a child, request a restart, open an isolated realm) and how apply ends (it returns, raises, or lets
an exception through that nothing contains). Results about runs hold for all strategies, and each host
call of a run has a strategy of its own, since what plugins read from outside the runtime may change
between calls; the disposers these plugins file reverse what the runtime registered and have no other
effect on it (see "Left out"), while `Effects` treats disposers that act on their own stack. The results
about fixed points and mount order are about flat compositions: rows mounted fresh, for each of which
what it provides and whether it returns is a function of the declared names that resolve as it starts.

Things the code does that its documentation does not say:

- `Fiber.provide` called outside a settle announces the service, and so settles its dependents, before
  it files the undo. If a dependent aborts in that settle, the registration is left with nobody to
  withdraw it. `ProvideRuns` gives such a run, `HostProvides` the exact condition under which no plugin
  behaviour can bring it about, and the ownership results of `Guarantees` ask of a run only that the
  settles of its host provides end with the provider undisturbed.
- Row order is said to carry no load semantics (`src/aka/core/fiber.py:580`), but a FAILED fiber is not
  tried again when its epoch changes (`src/aka/core/fiber.py:167-168`), so a plugin that fails for want
  of an optional service fails for good when it is mounted first. `MountOrder` gives that input, proves
  independence for rows whose success does not depend on optional services, and proves that this is the
  exact condition on a row.
- The preflight reads declarations and refuses two providers of a service of single cardinality, while a
  realm refuses a second provider of any service and accepts undeclared ones. `Preflight` says what has
  to be added for unique providers, and gives the inputs.
- `_lane_budgets` can give a primary lane less than a related one. `Quotas` says exactly when.

Run `dafny verify dfyconfig.toml` to check the project.

## Model

| member | source | states |
|---|---|---|
| Runs.NoStaleReference | src/aka/core/fiber.py:139-180 | after every abort-free run of mounts, provides, withdrawals, restarts, child mounts and settles, over every plugin behaviour, which may be another one in each host call: once the queue is empty, each mounted fiber that has not failed is ACTIVE exactly when its required injections resolve, and its apply started from the registrations that resolve now |
| Runs.EpochPinsBindings | src/aka/core/registry.py:102-112 | serials are never 0 and never reused, so an epoch equal to the one computed now comes from identical registrations |
| Runs.ExecSteady | src/aka/core/fiber.py:478-510 | every abort-free run keeps: each mounted fiber that is neither queued nor failed carries the epoch its injections compute to now, and nothing is mid-transition; an abort excuses exactly one fiber, left PENDING and inert |
| Settling.RefreshSteady | src/aka/core/fiber.py:156-180 | one refresh, through restart, load, unload and reload, settles the debt of the fiber it refreshes and creates none that is not queued |
| Settling.LoadSteady | src/aka/core/fiber.py:184-223 | a load that started from the current registrations, or from ones that are gone since, ends tracked, failed or inert |
| Settling.SettleSteady | src/aka/core/fiber.py:478-510 | a settle under any round budget keeps the invariant, and leaves an empty queue when it returns |
| Currency.ActCore | src/aka/core/fiber.py:342-358 | every action of an apply (provide, withdraw, file, mount, drop, restart, isolate) queues whoever it makes out of date |
| OwnedActions.ActOwn | src/aka/core/fiber.py:342-358 | every action of an apply keeps registrations and filed undos one to one, the tree consistent, and providers and parents first in activation order |
| OwnedRuns.BeginOwn | src/aka/core/fiber.py:184-199 | when an apply starts no other fiber is LOADING or UNLOADING and every live service is owned by an ACTIVE fiber |
| OwnedRuns.ActivateInStep | src/aka/core/fiber.py:514-520 | becoming ACTIVE puts a fiber behind its parent and behind every provider its apply started from, and leaves no active fiber behind one it should precede |
| Ownership.DiscardOwn | src/aka/core/fiber.py:232-255 | discarding disposes all children and leaves the fiber without effects, children or services, whatever the nesting |
| Ownership.DisposeOwn | src/aka/core/fiber.py:257-269 | disposing any fiber keeps ownership |
| Guarantees.RunsStayOwned | src/aka/core/fiber.py:225-269 | over every run, with any plugin behaviour in each call, in which each accepted host provide that wakes somebody settles to the end, with its provider still on the load it had, and through all other aborts and divergence: live registrations belong to mounted ACTIVE fibers that hold their undo, all other fibers own nothing, no apply ever started beside a half-loaded neighbour, and Root.dispose leaves no registration, effect or mounted fiber |
| Guarantees.RunsTearDownConsumersFirst | src/aka/core/fiber.py:577-606 | after any such run that ended quiescent, each disposer of an active fiber runs while every service its injections resolve to is still live |
| Shutdown.ConsumersFirst | src/aka/core/fiber.py:577-606 | the same for any quiescent, owned tree |
| Shutdown.DisposeLeavesNothing | src/aka/core/fiber.py:577-611 | Root.dispose from any owned state ends with nothing mounted, registered, queued or filed |
| Shutdown.UnwindRunsBackwards | src/aka/core/effects.py:104-117 | a fiber's disposers run once each, in reverse filing order |
| Guarantees.AbortKeepsQueue | src/aka/core/fiber.py:494-508 | an abort at position k of a batch: those before it were refreshed, those behind it are still queued, in order, ahead of everything woken in the round |
| Guarantees.AbortResumes | src/aka/core/fiber.py:184-212 | the aborted fiber is PENDING with an inactive epoch and owns nothing; queueing it and settling again, under any behaviour and budget, restores freedom from stale references |
| Guarantees.RunsResumeAfterAbort | src/aka/core/fiber.py:478-510 | the same for whichever host call aborts such a run first, a host provide included: that one leaves its own registration announced and nothing else |
| HostProvides.ProvideKeepsOwnershipIff | src/aka/core/fiber.py:342-358 | from any owned state, whatever is queued or about to restart, an accepted host provide keeps ownership under every plugin behaviour if and only if it wakes nobody or its settle comes to rest without a load and with the provider ACTIVE |
| HostProvides.QuietProvideIff | src/aka/core/fiber.py:342-358 | from a quiet state, ownership survives under every plugin behaviour if and only if the new service changes the epoch of no mounted fiber |
| ProvideRuns.LeakingRunLeaks | src/aka/core/fiber.py:351-358 | a concrete run that loses ownership: the waiting dependent aborts before the undo is filed, and the registration outlives Root.dispose |
| ProvideRuns.ServingRunIsOrderly | src/aka/core/fiber.py:342-358 | the same calls with a dependent that loads are one of the runs that stay owned |
| HostProvides.OrphansOutliveRoot | src/aka/core/fiber.py:577-606 | a registration whose undo nobody holds survives Root.dispose |
| Loads.LoadEnds | src/aka/core/fiber.py:184-223 | a load ends ACTIVE exactly when config returned, every action went through, apply returned and every declared service was registered and not taken back since; it passes on an abort of config or apply and nothing else; and unless it ends ACTIVE it leaves no effect, child, service or epoch |
| Loads.LoadUndoes | src/aka/core/fiber.py:184-255 | each cleanup and service an apply filed is held or undone, once each; if the plugin withdrew none of its own, an ACTIVE load holds them in the order of its calls, and a failed or aborted one undid them in reverse |
| Loads.ActiveServesItsDeclared | src/aka/core/fiber.py:213-223 | when a load ends ACTIVE every service it declares is live, its own, and has its undo filed |
| Loads.FiledOutsideRunsFirst | src/aka/core/effects.py:68-89 | an effect the host files with an acting fiber is the first disposer to run when that fiber is unloaded; with any other fiber nothing is filed |
| Loads.RefusalsChangeNothing | src/aka/core/fiber.py:342-358 | a publication or mount that is refused changes nothing, and apply goes on exactly when it catches the exception |
| Loads.PublishedResolves | src/aka/core/registry.py:102-112 | an accepted publication is what the name resolves to there, under a new serial |
| Loads.IsolatesExactly | src/aka/core/registry.py:68-74 | a realm an apply isolates owns those names and sees every other one as its base does |
| Loads.DropSparesOthers | src/aka/core/fiber.py:257-269 | dropping a child disposes it, bare and unmounted, and leaves phase and effects of everyone not below it alone |
| Hosts.CallsSettle | src/aka/core/fiber.py:462-510 | from a quiet tree, every host call but a bare mount or enqueue that returns leaves an empty queue and no stale reference |
| Hosts.WithdrawnIsLetGo | src/aka/core/effects.py:81-87 | when the host withdraws a service from a quiet tree its disposer is the first thing to run, and once the call has returned the service is gone and no ACTIVE fiber was loaded with it |
| Hosts.RetiredForGood | src/aka/core/registry.py:102-118 | a registration that is gone is never live again, in whatever run |
| Hosts.HostMounts | src/aka/core/fiber.py:416-451 | a host's mount is refused when a mounted fiber has the id, and otherwise leaves a fiber with that id, declaration and parent, in a realm that owns the isolated names and sees the others as the one it was mounted in, however the settle ends |
| Hosts.MountMeans | src/aka/core/fiber.py:432-451 | it starts PENDING, mounted and queued |
| Hosts.RoundByRound | src/aka/core/fiber.py:490-508 | a settle goes round by round: everyone in the queue has one turn, in the order of first places, and what is queued meanwhile waits for the next |
| Restarts.RestartRestarts | src/aka/core/fiber.py:271-285 | a restart the host asks for of an ACTIVE or FAILED fiber: whenever the call returns, its apply was started since, unless it is gone or a service it requires is |
| Restarts.RestartCycles | src/aka/core/fiber.py:156-180 | for an ACTIVE fiber of a quiet tree the log shows the disposers of what it mounted, then those of its own effects, the newest first, each once, and then its apply starting, whatever becomes of the rest of the settle |
| Restarts.RestartTries | src/aka/core/fiber.py:156-167 | for a FAILED fiber whose required injections resolve the apply starts at once |
| Restarts.RestartRevives | src/aka/core/fiber.py:156-180 | and if it succeeds now the fiber is ACTIVE when the call returns, unless it was started once more, is gone or lost a service it requires |
| Restarts.RequestedRestarts | src/aka/core/fiber.py:271-285 | the same for a restart that a plugin asks for during a load, of itself or another, once the queue has drained |
| Rosters.RunsKeepOneEach | src/aka/core/fiber.py:430-457 | in every run at most one mounted fiber carries a row id |
| Convergence.BoundedConvergence | src/aka/core/fiber.py:478-510 | rows of which no two may provide one service in one place, and whose required and optional graph, read by name, is acyclic and of depth D, settle from fresh mounts within D + 1 rounds, whatever they provide and however they end on seeing which services |
| Ranks.NestedConvergence | src/aka/core/fiber.py:478-510 | from any state and queue, and for any plugins that act for themselves, provide names from a list, mount their own children and may ask for restarts of what ranks above them, a settle returns within D + 1 rounds, where every row ranks above its parent and above whoever may provide a name it declares |
| KeyedRanks.NestedKeyedConvergence | src/aka/core/fiber.py:478-510 | within D + 2 rounds when only those count who may provide the name in the same isolation realm, from any owned state between host calls |
| NestedRows.NestedRowsSettle | src/aka/core/context.py:151-177 | both bounds for fresh trees of rows that mount a fixed list of children and provide a fixed list of names, nesting counted as depth |
| Convergence.KeyedBoundedConvergence | src/aka/core/fiber.py:478-510 | the same for the graph of possible suppliers, isolation considered, within D + 2 rounds |
| Convergence.KeyedIsWider | src/aka/core/fiber.py:478-510 | three rows that only the second graph admits |
| FixedPoints.SettlesConsistently | src/aka/core/fiber.py:139-180 | whenever a fresh composition of rows whose success does not depend on optional injections settles, cycles included, the ACTIVE rows are exactly those that run on what the other ACTIVE rows then give, they saw exactly that, and every name resolves to the row that gives it |
| FixedPoints.SettlesAtLeastFixedPoint | src/aka/core/fiber.py:139-180 | for rows that also never give less for seeing more, over any graph, that is the least fixed point of activation, and a row fails exactly when it is fed there and does not succeed |
| MountOrder.MountOrderIrrelevant | src/aka/core/fiber.py:416-451 | two mount orders of the same rows, acyclic by possible suppliers and with success independent of optional injections, settle to the same ACTIVE rows, running on the same names, and the same provider for every name, however what they give depends on what they see |
| MountOrder.MonotoneOrderIrrelevant | src/aka/core/fiber.py:416-451 | over any graph, and of every phase, when no row gives less for seeing more |
| MountOrder.ActivityFreeIff | src/aka/core/fiber.py:167-168 | whether a row is ACTIVE is the same for every mount order, in every acyclic composition around it whose other rows have that independence, if and only if its own success does not depend on its optional injections |
| MountOrder.PhaseFreeIff | src/aka/core/fiber.py:167-168 | and every phase of it is the same if and only if it fails on every view of the others or on none |
| MountOrder.PickySwings | src/aka/core/fiber.py:167-168 | a consumer that raises without its optional logger fails for good when mounted before the logger and is ACTIVE when mounted after it |
| MountOrder.BrokenSwings | src/aka/core/fiber.py:167-168 | a consumer that always raises is never ACTIVE, but whether it has FAILED or waits depends on the mount order |
| RequiredOnly.LoadsAtMostOnce | src/aka/core/fiber.py:478-510 | with required injections only, over any graph and whatever the rows do, n rows settle within n + 1 rounds at the least fixed point and start each apply at most once |
| RequiredOnly.CyclesStayPending | src/aka/core/fiber.py:139-148 | rows that wait for each other stay PENDING, whatever they and the others would do and whether or not the others settle |
| Preflight.FindDuplicates | src/aka/core/boot.py:141-155 | the refused services are exactly the single-implementation ones that two enabled rows declare without isolating them |
| Preflight.PreflightMeansComposed | src/aka/core/boot.py:141-155 | for distinct rows: when the preflight passes and no service of many implementations is declared unisolated by two rows, the unique-provider premise of the convergence results holds exactly when no two rows may provide one service unisolated of which one does not declare it; for rows that may provide what they declare the three together are that premise |
| Preflight.PreflightMissesDoubles | src/aka/core/boot.py:141-155 | two rows that pass the preflight and of which the second provide is refused |
| Preflight.PreflightMissesUndeclared | src/aka/core/boot.py:141-155 | so do two rows that provide a service neither declares |
| Loader.Load | src/aka/core/loader.py:70-131 | decides as `DecideMeans` says about the rows it was given and the tree it settled; a tree that is not kept is disposed and nothing of it is left |
| Loader.LoadedTree | src/aka/core/loader.py:88-131 | for every row list and behaviour a refused tree is empty after disposal and an accepted one has no stale reference |
| Loader.LoadDecided | src/aka/core/loader.py:99-131 | loading rows whose success does not depend on optional injections, acyclic by possible suppliers, never raises, succeeds exactly when each required id names a row of the one consistent set of ACTIVE rows, and gives each missing id its reason: exactly, when no row gives less for seeing more, and otherwise up to rows that never succeed and failed while they were fed |
| Loader.DecideMeans | src/aka/core/loader.py:99-131 | read off the settled tree: booted exactly when the settle ended and every required id, and the id of every mounted fiber that is required, is that of an ACTIVE one; otherwise exactly the ids that are not are reported, as failed when a mounted fiber of that id FAILED or its row was refused, as waiting on exactly its unresolved injections when it is PENDING, and as absent otherwise |
| Objects.RootObject.ServiceChanged | src/aka/core/fiber.py:462-476 | the loop queues exactly the mounted declarers of the name, in mount order |
| Objects.RootObject.Transition | src/aka/core/fiber.py:514-520 | a transition to ACTIVE moves the fiber to the end of the activation order |
| Objects.RootObject.UnwindEffects | src/aka/core/effects.py:104-117 | popping and disposing until empty is the specified unwind, withdrawals and wake-ups included |
| Objects.RootObject.DiscardEffects | src/aka/core/fiber.py:232-255 | children in mount order, then the fiber's own effects |
| Objects.RootObject.DisposeFiber | src/aka/core/fiber.py:257-269 | the object's dispose is the specified one |
| Objects.RootObject.ProvideService | src/aka/core/fiber.py:342-358 | refused when the fiber is not loading or active or the name is taken, otherwise registered, announced and its undo filed |
| Objects.RootObject.Mount | src/aka/core/fiber.py:416-451 | a row id in use is refused; otherwise a fresh fiber, in a realm of its own when names are isolated, is mounted and queued |
| Objects.RootObject.LoadFiber | src/aka/core/fiber.py:184-223 | the object's load is the specified one, with every way config and apply can end |
| Objects.RootObject.RefreshFiber | src/aka/core/fiber.py:156-180 | the object's refresh is the specified one |
| Objects.RootObject.DrainBatch | src/aka/core/fiber.py:494-508 | one round pops the batch in order and puts the rest back in front when an exception escapes |
| Objects.RootObject.SettleAll | src/aka/core/fiber.py:478-510 | the settle loop computes the specified settle under the root's round budget |
| Objects.RootObject.ProvideOutside | src/aka/core/fiber.py:351-358 | a provide from outside a settle: dependents settle before the undo is filed |
| Objects.RootObject.DisposeEffectOutside | src/aka/core/effects.py:81-87 | a handle called by the host: the effect goes, and dependents of a withdrawn service settle |
| Objects.RootObject.RestartOutside | src/aka/core/fiber.py:271-285 | restart requests a cycle and settles, which `Restarts` says what comes of; a disposed fiber ignores it |
| Objects.RootObject.MountOutside | src/aka/core/context.py:151-177 | a child is mounted and the root settles |
| Objects.RootObject.DisposeRoot | src/aka/core/fiber.py:577-611 | the tree goes in reverse activation order and the queue is emptied |
| Realms.EntriesAreResolve | src/aka/core/registry.py:78-98 | entries lists exactly what resolve finds, name by name, in every realm of a tree whose registrations sit with their owners |
| Realms.AgreementNeedsTidy | src/aka/core/registry.py:68-98 | the two views agree in every realm if and only if every registration sits with the realm that owns its name |
| Realms.HistoriesAgree | src/aka/core/registry.py:73-120 | every history of isolations, provides and withdrawals keeps the views in agreement and slots and serials unique |
| Realms.HistoriesFromTheStart | src/aka/core/registry.py:73-120 | so does every history from a fresh root |
| Realms.ProvideIsLocal | src/aka/core/registry.py:102-120 | a provide changes resolve for exactly the realms that share the owner, for that name |
| Realms.IsolateIsLocal | src/aka/core/registry.py:68-79 | an isolation leaves every other realm's view alone, and the new realm's is its base's but for the isolated names |
| Realms.WithdrawIsLocal | src/aka/core/registry.py:114-118 | so does a withdrawal |
| Realms.WithdrawUndoesProvide | src/aka/core/registry.py:102-120 | a disposer undoes its own provide and, run again after the name changed hands, does nothing |
| Realms.RealmTree.FindOwner | src/aka/core/registry.py:68-71 | the first realm upwards that isolates the name, or the root |
| Realms.RealmTree.Isolated | src/aka/core/registry.py:73-74 | a child realm owning the isolated names, everything else as before |
| Realms.RealmTree.Look | src/aka/core/registry.py:78-79 | resolve |
| Realms.RealmTree.Publish | src/aka/core/registry.py:102-112 | a taken name is refused; otherwise the owner holds a registration with the next serial of the tree |
| Realms.RealmTree.Retire | src/aka/core/registry.py:114-118 | the disposer deletes the name only while it holds this very registration |
| Realms.RealmTree.List | src/aka/core/registry.py:81-98 | entries, as an object method |
| Effects.EffectStack.Add | src/aka/core/effects.py:68-89 | filed last with a fresh handle, or run at once and never filed while an unwind is in progress |
| Effects.EffectStack.CallHandle | src/aka/core/effects.py:81-87 | a spent handle changes nothing; a fresh one reverses its effect first, whatever the disposer itself does to the stack |
| Effects.EffectStack.Unwind | src/aka/core/effects.py:91-124 | the stack ends empty, every effect ever filed was disposed exactly once, the loop took what nobody disposed early in reverse filing order, and it reports as failed the popped effects whose disposers raised, and an abort exactly when one let an exception escape |
| Effects.BackwardsDecreases | src/aka/core/effects.py:104-117 | the loop's order is strictly decreasing in filing order and covers exactly the effects not called early |
| Effects.OnceOnly | src/aka/core/effects.py:81-87 | an effect disposed once is not called early later |
| Waterfall.Step | src/aka/core/events.py:131-189 | for every chain of listener strategies, what the rest of the chain adds to the history runs in strictly rising chain order, names only live listeners, and leaves earlier closures alone |
| Waterfall.Delegate | src/aka/core/events.py:146-169 | next() runs the rest of the chain at most once; every further call, by whoever holds it, changes nothing and raises |
| Waterfall.StepResult | src/aka/core/events.py:172-189 | for any event: the result of a live listener's step is exactly what its callback returned, if that is accepted and has not shrunk, and it throws exactly when the callback threw or it is not |
| Waterfall.WrappersCompose | src/aka/core/events.py:131-189 | a chain of listeners that each call next() on a rewritten value and rewrite what they get has the result of the composed rewrites around the terminal |
| Waterfall.ShortCircuits | src/aka/core/events.py:172-189 | a listener that ends at once decides alone: nobody after it runs |
| Waterfall.OncePerDispatch | src/aka/core/events.py:124-193 | per dispatch each listener runs at most once, in order, and the terminal at most once and last, whatever the listeners catch |
| Waterfall.NothingLost | src/aka/core/events.py:156-189 | for a monotone event with a preorder check, when every listener that ran got its next() back, the terminal's input covers the payload and the result covers the terminal's result |
| Waterfall.DeadChain | src/aka/core/events.py:138-142 | a chain whose listeners are all disposed is its terminal |
| Events.SnapshotInTurn | src/aka/core/events.py:89-91 | a snapshot holds the bucket's listeners by (order, sequence) |
| Events.EventBus.On | src/aka/core/events.py:55-87 | a fresh sequence number at the end of the bucket; a closed bus registers nothing |
| Events.EventBus.Off | src/aka/core/events.py:82-85 | the disposer removes that registration and no other |
| Events.EventBus.Listeners | src/aka/core/events.py:89-91 | a permutation of the bucket, strictly sorted |
| Events.EventBus.Emit | src/aka/core/events.py:108-122 | observers run in turn; one is skipped exactly when an earlier one disposed it or let a BaseException escape, an Exception is reported and stops nobody |
| Events.EventBus.Waterfall | src/aka/core/events.py:124-193 | the dispatch over a snapshot computes the specified chain, checks the final result, and leaves what is still live in the bucket |
| Events.EventBus.CloseBus | src/aka/core/events.py:197-206 | no listener is left and none can be added |
| Events.DispatchObject.RunStep | src/aka/core/events.py:131-189 | the nested closures compute the specified step, closure variables included |
| Events.DispatchObject.RunCallback | src/aka/core/events.py:174-179 | a callback, move by move |
| Events.DispatchObject.CallNext | src/aka/core/events.py:146-169 | delegate |
| WordBreak.IsNoiseSequence | gpu-wiki/tools/operator_scope.py:121-135 | true exactly when the argument is a concatenation of zero or more decorations |
| WordBreak.Occurrences | gpu-wiki/tools/operator_scope.py:316-322 | a match is found exactly when some occurrence, overlapping ones included, has decorations on both sides |
| WordBreak.EmbedsIff | gpu-wiki/tools/operator_scope.py:299-322 | a key of the minimal length or more is embedded exactly when the spelling is decorations, the key, decorations |
| WordBreak.ResolveDecorated | gpu-wiki/tools/operator_scope.py:299-336 | an answer exactly when one vocabulary key of maximal length splits the spelling into decorations, key, decorations; then that key, as an operator if it is one |
| Quotas.LaneBudgets | gpu-wiki/tools/query_nl.py:835-849 | a quota of at least one per lane is handed out exactly: each lane's share, and one more to the first lanes |
| Quotas.SharesFit | gpu-wiki/tools/query_nl.py:841-845 | the shares never overdraw such a quota and miss it by less than one per lane, so the loop that takes quota back never runs |
| Quotas.PrimaryFirstIff | gpu-wiki/tools/query_nl.py:835-849 | exactly when no primary lane gets less than a related one |
| Quotas.PrimaryCanGetLess | gpu-wiki/tools/query_nl.py:835-849 | a concrete quota where one does |
| Merges.MergeLanes | gpu-wiki/tools/query_nl.py:883-902 | min(cap, distinct ids) records, prior ones unchanged and first, every new one offered by a lane, the earliest draw winning a shared id, draw counts of unexhausted lanes within one |
| Merges.MergeStores | gpu-wiki/tools/query_nl.py:1004-1036 | min(cap, distinct served ids) records, the latest draw winning a shared id, evenly drawn; a reached cap reports the remainder |
| Merges.ServedUniqueIff | gpu-wiki/tools/query_nl.py:1026-1030 | served ids repeat exactly when a public id spells another store's namespaced id |
| Merges.NothingLostIff | gpu-wiki/tools/query_nl.py:1030-1036 | served plus dropped is the total exactly when no served id repeats or the cap was reached |
| FoldEvents.Fold | gpu-wiki/tools/rebuild_importance.py:31-75 | the loop and its dictionaries compute those sums, for just the records with an event that stands, and their first and last timestamps |
| FoldEvents.FoldByPosition | gpu-wiki/tools/rebuild_importance.py:31-75 | per record and counter, the sum over the log positions that stand: a snapshot unless a later one has its record and source, an increment unless a later one, of whichever record, has its key, the event's text standing for a key it lacks |
| FoldEvents.ReplayIsNoOp | gpu-wiki/tools/rebuild_importance.py:31-75 | a log followed by itself folds to the same counters |
| FoldEvents.SeenIncrementsAddNothing | gpu-wiki/tools/rebuild_importance.py:57-61 | appending increments the log holds changes nothing when equal keys mean equal events |
| Patches.PatchIsLocal | src/aka/core/composition.py:236-303 | a patch acts on the row it names alone, fails only for reasons of that row and patch, and keeps ids unique; what it makes of that row is `PatchFields.FieldsAreLastWritten` |
| Patches.LayersAreLocal | src/aka/core/composition.py:342-363 | after any layers a row is what its bundle entry and the patches naming its id make of it |
| Patches.LayersSucceedIff | src/aka/core/composition.py:342-363 | the layers succeed exactly when each row's own history does |
| Patches.LayersCommute | src/aka/core/composition.py:342-363 | patches to different ids commute on contents, success included |
| Patches.ConfigIsLastWritten | src/aka/core/composition.py:270-283 | the effective config is the last whole config written since the row's last insertion |
| PatchFields.FieldsAreLastWritten | src/aka/core/composition.py:236-303 | after any layers a row is there exactly when the patches naming it leave it there, and each of its fields is the last value given since its last insertion, else the inserted row's, else the bundle's; its source is that of the last patch naming it, the config's that of the last to write one |
| PatchFields.LayersAccepted | src/aka/core/composition.py:236-303 | layers succeed exactly when every patch is well formed for what it does and finds its row there, or not there, as it takes it to be |
| PatchFields.LayersKeepOrder | src/aka/core/composition.py:236-303 | rows keep their order, removed ones leave it, inserted ones join at the end |
| Patches.RowList.ApplyPatch | src/aka/core/composition.py:236-303 | edited in place; a failing patch changes nothing |
| Patches.RowList.ApplyLayer | src/aka/core/composition.py:347-363 | a layer's patches in order |
| Patches.RowList.ApplyDocument | src/aka/core/composition.py:223-233 | a failing patch file changes nothing |
| Bundles.FlattenIsLeafwise | src/aka/core/composition.py:186-217 | flattening yields every leaf in document order with the innermost group, all isolated names from the outside in without repetition, and any surrounding disabled flag |
| Bundles.FlattenSucceedsIff | src/aka/core/composition.py:186-217 | flattening succeeds exactly when every group header and every row, at any depth, is readable |
| Bundles.Stack | src/aka/core/composition.py:342-345 | bundles are stacked in order and a repeated row id is refused |
| Interpolation.ApplyInterpolation | src/aka/core/composition.py:404-430 | succeeds exactly when every reference sits in an allowed field and can be substituted; then the paths are unchanged, each value is the original or its substitution, and no object that existed before is modified |
| Interpolation.AdmissibleIff | src/aka/core/composition.py:417-428 | it succeeds exactly when each field that has a marked string in it, however deep in arrays and objects, is allowed, and all strings of such a field can be substituted |
| Interpolation.InterpolatedStrings | src/aka/core/composition.py:418-428 | and then it replaces every string of just these fields and changes nothing else |
| Interpolation.ContainsIff | src/aka/core/composition.py:432-442 | a value contains a reference exactly when some string reachable through its arrays and objects has the mark |
| Interpolation.SubstituteMaps | src/aka/core/composition.py:445-454 | substitution replaces every string of a value, at whatever depth, and keeps its shape and everything else |
| Interpolation.Assign | src/aka/core/composition.py:475-487 | writes one path and, of the dictionaries that existed before, only the top one |
| Interpolation.AllowedIff | src/aka/core/composition.py:417-420 | a path is allowed exactly when its dotted spelling is listed and no key in it contains a dot |
| Resume.DifferenceRecords | src/aka/core/lock.py:277-295 | one record per row id that differs, with exactly the differing fields and the right kind, and one per differing global |
| Resume.Reconcile | src/aka/core/lock.py:322-348 | accepted exactly when no difference is sensitive; the differences are returned |
| Resume.AcceptsIffAgree | src/aka/core/lock.py:327-341 | with observational fields limited to group, accepted exactly when row ids, globals and all fields but the group of observational rows agree |
| Resume.ResumeIsEquivalence | src/aka/core/lock.py:322-348 | acceptance is reflexive, symmetric and transitive |
| Resume.UnlimitedResumeDrifts | src/aka/core/declaration.py:155-163 | why declarations limit those fields: otherwise two accepted resumes can add up to a refused one |

## Left out

- Runtime.Revert: disposers filed with `ctx.effect` withdraw nothing, queue nobody, call no other handle and raise nothing but exceptions that unwind collects; `Effects.EffectStack` models disposers that add effects, call handles of their own stack and raise, for one stack on its own.
- Objects.RootObject.UnwindEffects: the same disposers, on the object; the order they run in is `Shutdown.UnwindRunsBackwards`.
- Objects.RootObject.MountOutside: mounting through the context of a fiber that is neither loading nor active, which the source does not refuse.
- Runtime.Unload: disposers that raise a BaseException, after which a fiber stays UNLOADING with its new epoch stored.
- Runs.Host: `Fiber.dispose` called by the host outside a settle, which re-enters the settle while the fiber is half unwound; disposing the root is covered.
- Runtime.Act: disposers that mount plugins or provide services, and effects filed through a context kept after its fiber unloaded; an action acts for a fiber that is loading or active, and a plugin drops only its own children.
- Runtime.DisposeAll: a child's uid exceeds its parent's, which the tree invariant proves; the guard in the function only serves termination.
- Runtime.State: uids count from 0, disposed fibers stay in the table, and the realm tree is a value, the `Registry.Store` that `Realms.RealmTree.View` computes from realms as objects.
- Runtime.ComputeEpoch: injection lists are taken in the sorted order the source reads them in.
- FixedPoints.SettlesConsistently: about flat rows, whose config resolution ends the same way each time and whose provides and ending depend on the declared names that resolve; for plugins that mount children, or decide on anything else, there are the round bounds of `Ranks` and the results about runs.
- Ranks.NestedConvergence: plugins that withdraw, provide or mount through the context of another fiber, or ask for a restart of themselves or of what ranks below them; `KeyedRanks` leaves out requested restarts and realms a plugin isolates for itself.
- Loader.LoadDecided: the reason given for a row that can never succeed may be failure or waiting, depending on the mount order (`MountOrder.BrokenSwings`), unless no row gives less for seeing more.
- Objects.RootObject.ServiceChanged: the `_settling` and `_disposing` flags are not fields; calls inside a settle and calls from outside are separate methods.
- Loader.Load: importing modules and checking declarations are a flag per row; warnings and the wording of the report.
- Preflight.FindDuplicates: the other checks of `_prepare` (unknown services, declarations, config validation).
- Realms.RealmTree.Publish: the shape check on registry-cardinality values, and notification, which is part of Runtime.
- Effects.Disposer: disposers that call unwind on the stack being unwound, labels, and the rejection of async hooks.
- Waterfall.Callback: a callback makes finitely many moves, under a limit of its own; listeners registered during a dispatch are outside its snapshot and therefore absent.
- Events.EventBus.Emit: mode and payload checks, and observers that register or close during the dispatch.
- Events.EventBus.Waterfall: mode and payload type checks, the bound on the short-circuit history, and closing the bus during a dispatch; the result check is a predicate.
- WordBreak.ResolveDecorated: folding, tokenising, candidate joins, corpus voting and `resolve_many` around it; decorations arrive folded.
- Quotas.LaneBudgets: the decrement loop appears as its guard, which is proved false for every input.
- Merges.MergeLanes: the per-lane queries, notes and byte limits around the merge.
- Merges.MergeStores: stores are pairwise distinct, as the caller builds them.
- FoldEvents.Fold: JSON parsing and number coercion; lines arrive parsed, and an event's canonical text stands for its missing key.
- Patches.RowList.ApplyDocument: reading documents and the text of errors; a field is missing, unreadable or given.
- Bundles.Stack: locating bundle files.
- Interpolation.ApplyInterpolation: the reference syntax inside one string is a parameter, and which of several inadmissible fields is reported.
- Interpolation.Assign: the loop down the path is written as its tail recursion.
- Resume.Reconcile: create mode, file handling, digests and error text.
- `scope.py`: nearest layer wins is a map lookup along a chain and would add only easy members.
- Schema validation, diagnostics, transition events seen by listeners, dashboards, observability, and the feedback score.
