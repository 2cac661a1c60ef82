# Verified model of the compositor's state machines

Dafny models of six parts of a Wayland compositor, with proofs of what they keep, conserve and undo.

1. **Workspace registry** (`Seqs`, `Index`, `Registry`, `Hotplug`, `Settling`, `RoundTrip`, `Mirror`,
   `MirrorHotplug`, `Runs`, `Labels`, `Lifecycle`, `Outcomes`, `Homes`, `Requests`, `Announcements`,
   `RegistrySteps`, `WorkspaceRegistry`). Five maps and a handle counter, thirteen transitions, each returning
   effects. The transitions are functions on a state value, about which the theorems are proved; `WorkspaceStore` is
   the object whose methods update the maps step by step, loop by loop, and are proved equal to those functions. Its
   ghost log collects every effect, and its validity says that replaying the log rebuilds the object.
2. **Surface-transaction broker** (`Broker`, `Batches`, `Ledger`, `Deadlines`, `Freezing`, `Reports`,
   `SurfaceTransactions`). Holds, batches, deadlines, one timer and asynchronous gates as a state machine over
   its steps, with one ledger of debts for freezes and requirements.
3. **Tiling** (`Numbers`, `Columns`, `WaterFill`, `Tiling`, `MasterStack`, `Layout`). Water-filling of column
   widths, exact tilings, and the pairing of `measure` with `compute`.
4. **Subsurfaces** (`SurfaceTree`, `DrawOrder`, `Restacking`). Hit testing against draw order, and the reorder queue.
5. **Popups** (`Popups`). The xdg_positioner solver.
6. **Canvas** (`Slots`, `Islands`, `Cameras`). Island slots, row packing and placement, scroll and fit cameras.

Parameters of the models: a map's enumeration order where the code's result could depend on it (the outputs a
recompute compares), a step's clock reading, which requirements are ready, whether a gate returned a promise,
a surface's logical size, its input region, and the row score. A method reports `ok == false` where the code
throws; the state is then untouched.

Where code and comments differ, or the code leaves something unsaid, the models follow the code:

- `recomputeOutputs` is documented to throw when a workspace has no live home and the fallback has no name;
  the code parks it on the fallback id and remembers nothing.
- Two live outputs sharing a durable name do not settle: `Settling.SettlesIffNamesDistinct` gives the exact
  condition.
- A gate resolving late can thaw a surface that has been held again; `Freezing.FaithfulExactlyUnlessEarly`
  gives the exact condition per step, `Freezing.FaithfulThroughoutIff` per run, and `Freezing.ClearIsFaithful` what
  a caller can do about it.
- `destroy` changes what an output shows without reporting it: `Labels.TransitionLook` gives the exact condition.
- A popup shrunk without sliding from a half-pixel place ends half a pixel outside;
  `Popups.OnOutputExactlyWhen` gives the exact condition.
- A reveal is said to bring the column into view, and a "visible" one to leave a column in view alone. With less
  than the margin to spare it can cut the column, with less than twice the margin it can swing:
  `Cameras.RevealShowsIff` and `Cameras.RevealTwiceIff` give the exact conditions.
- Column bounds are said to be honoured exactly. With both kinds violated at once the passes can pin more than the
  room and the squeeze then breaks a minimum that would fit: `WaterFill.BoundsHonouredIff` gives the exact
  condition and `WaterFill.MixedBoundsBreakMinimum` an input.
- A region sized by `measure` is said to land every column on its target: `Tiling.TargetsHitIff` gives the exact
  condition without gaps, and `Tiling.MixedBoundsMissTarget` an input.
- A pinned bound is said to survive flooring intact. A minimum does (`Tiling.ServedIffRoom`); a maximum on the last
  column need not: `Tiling.LastColumnExactIff` and `Tiling.FlooringBreaksMaximum`.

## Model

| member | source | states |
|---|---|---|
| `Runs.EveryRun` | packages/plugin-workspace-default/src/registry.ts:190-1245 | Over every run from boot: position lists partition the workspaces by output, an output shows a workspace iff it has one and shows one of its own, every window is in exactly one workspace, handles are issued in order and never twice, and replaying the effect log from nothing rebuilds stacks, state bags, ordered lists and issued handles |
| `Runs.TransitionInv` | packages/plugin-workspace-default/src/registry.ts:218-1245 | Each of the thirteen transitions keeps the registry invariant, whatever its arguments |
| `Runs.TransitionMirrors` | packages/plugin-workspace-default/src/registry.ts:218-1245 | Each transition's effects, replayed on a view that shows the old registry, give a view that shows the new one |
| `Runs.InitInv` | packages/plugin-workspace-default/src/registry.ts:190-211 | The boot state satisfies the invariant and its effects announce it |
| `RoundTrip.HotplugRoundTrip` | packages/plugin-workspace-default/src/registry.ts:1002-1245 | With distinct live names: after any churn of recomputes under any outputs at all, once outputs with the same durable names are live again, in any order and under any ids, every workspace of the settled state is back with its windows on the output of that name (on the fallback, if none was live) |
| `RoundTrip.SameOutputsRoundTrip` | packages/plugin-workspace-default/src/index.ts:193-244 | In particular, outputs that keep their ids but return in another order leave every workspace on the output it was on |
| `RoundTrip.PlugRoundTrip` | packages/plugin-workspace-default/src/index.ts:193-244 | After any number of unplugs (each focus recorded first) and replugs of any of a settled state's outputs, under any free ids: no workspace is created, every one whose output is connected is home with its windows, and every connected output shows what it showed at first |
| `RoundTrip.PluggingsHost` | packages/plugin-workspace-default/src/index.ts:193-244 | Throughout such a run every connected output shows what it showed at first, and for every absent one that is remembered |
| `RoundTrip.RecomputedRests` | packages/plugin-workspace-default/src/registry.ts:1002-1245 | Every recompute under distinct names, the fallback not among them, leaves such a settled state |
| `RoundTrip.UnplugReplug` | packages/plugin-workspace-default/src/index.ts:193-244 | In particular for one output that leaves and returns, possibly under another id |
| `RoundTrip.ChurnExtends` | packages/plugin-workspace-default/src/registry.ts:278-286 | Through any churn a workspace stays, keeps its windows, and its preference list only grows at the end |
| `Settling.SettlesIffNamesDistinct` | packages/plugin-workspace-default/src/registry.ts:1002-1245 | A second recompute with the same outputs changes nothing and reports nothing if and only if the live outputs have distinct durable names; otherwise it issues new handles |
| `Settling.LiveOutputsServed` | packages/plugin-workspace-default/src/registry.ts:1088-1161 | After a recompute every live output has a workspace and shows one of its own, and nothing sits on the fallback while an output is live |
| `Settling.AliasesChurn` | packages/plugin-workspace-default/src/registry.ts:261-273 | Two live outputs sharing a name: every further call drains the one the name does not resolve to, fills it again, issues a new handle and reports it |
| `Settling.RecomputedInv` | packages/plugin-workspace-default/src/registry.ts:1002-1245 | A recompute keeps the registry invariant, although the invariant is suspended half-way |
| `Hotplug.RehomedTwice` | packages/plugin-workspace-default/src/registry.ts:1034-1060 | A home derived from the preferences is derived again |
| `Hotplug.ResolvePrefix` | packages/plugin-workspace-default/src/registry.ts:261-273 | Remembering more outputs at lower priority never changes a home that resolved |
| `Homes.MostPreferredIsHome` | packages/plugin-workspace-default/src/registry.ts:261-273 | A recompute puts a workspace on the live output of its first live name, the last one of that name, and changes nothing else of it |
| `Homes.EvacuatesToLowest` | packages/plugin-workspace-default/src/registry.ts:1032-1047 | With none of its names live it goes to the live output with the least id, and its preferences are the old ones followed by that output's name |
| `Homes.ParksOnFallback` | packages/plugin-workspace-default/src/registry.ts:1048-1060 | With no output live it is parked on the fallback, whose name, if any, it remembers once |
| `Homes.NewcomerIs` | packages/plugin-workspace-default/src/registry.ts:1088-1112 | A workspace a recompute creates is blank, dynamic, alone on a live output, and prefers that output's name |
| `Homes.NewcomersAscend` | packages/plugin-workspace-default/src/registry.ts:1088-1112 | Newcomers get their handles in the order of their output ids |
| `Homes.RecomputeShows` | packages/plugin-workspace-default/src/registry.ts:1114-1161 | An output keeps what it showed while that stays; else it shows what is remembered for its name, if that is on it; else its first workspace |
| `Homes.StayersThenArrivals` | packages/plugin-workspace-default/src/registry.ts:1034-1086 | On every output the workspaces that stay keep their order, and those that come follow in creation order |
| `MirrorHotplug.MirrorRecompute` | packages/plugin-workspace-default/src/registry.ts:1163-1245 | The effects of a recompute, in the order the code emits them, announce exactly its new lists, stacks and handles, for every enumeration order of the outputs |
| `Mirror.MirrorDestroy` | packages/plugin-workspace-default/src/registry.ts:382-514 | The effects of a destroy, replacement included, announce exactly its result |
| `Mirror.MirrorShow` | packages/plugin-workspace-default/src/registry.ts:553-611 | The same for show, including the evaporation of what was left behind |
| `Mirror.MirrorMove` | packages/plugin-workspace-default/src/registry.ts:650-728 | The same for moveWindow, over one or two outputs |
| `Mirror.MirrorUnmap` | packages/plugin-workspace-default/src/registry.ts:902-938 | The same for applyUnmap |
| `Announcements.EveryEffectHolds` | packages/plugin-workspace-default/src/registry.ts:190-1245 | Every effect of every transition is true of the registry before and after: handles, outputs, names, flags and stacks, and the index of each created, shown, hidden, destroyed, renumbered, renamed or moved-to workspace |
| `Announcements.FocusAsked` | packages/plugin-workspace-default/src/registry.ts:382-1245 | A focus decision is requested exactly by a show, destroy or recompute after which some output shows something else |
| `Announcements.MoveIsTold` | packages/plugin-workspace-default/src/registry.ts:650-728 | A move across workspaces sets the state bag and tells the move, with both handles, indices and outputs |
| `Labels.TransitionLook` | packages/plugin-workspace-default/src/registry.ts:218-1245 | Each transition reports every name and every urgency; and what each output shows, if and only if it is not a destroy of a workspace its output shows |
| `Labels.EveryRunLooks` | packages/plugin-workspace-default/src/registry.ts:190-1245 | Over every run from boot the log rebuilds all names and urgency flags, and what every output shows as long as no shown workspace is destroyed |
| `Lifecycle.DestroyConserves` | packages/plugin-workspace-default/src/registry.ts:397-462 | A destroyed workspace's windows join its heir's list at the tail in order; the heir is shown where it was; the tracked windows and every other workspace and output stay |
| `Lifecycle.DestroyRenumbers` | packages/plugin-workspace-default/src/registry.ts:470-492 | A change is reported if and only if it is a surviving workspace whose index changed, with the index findIndex gives before and after |
| `Lifecycle.EvaporatesExactly` | packages/plugin-workspace-default/src/registry.ts:528-540 | A workspace disappears other than by destroy if and only if it is dynamic and empty and hidden after a show, move or unmap that made it so |
| `Outcomes.ShowShows` | packages/plugin-workspace-default/src/registry.ts:553-611 | Show changes what that output shows and nothing else that is shown, clears its urgency, anchors its focus memory and moves no window |
| `Outcomes.MoveMoves` | packages/plugin-workspace-default/src/registry.ts:650-728 | A moved window is the last member of its new workspace and of no other, the rest keep their order, what is shown stays, and a cross-output destination comes first in the preferences |
| `Outcomes.PromotedFirst` | packages/plugin-workspace-default/src/registry.ts:291-305 | A promoted name is first, the others keep their order; of several copies in a configured list only the first moves, and a list without duplicates stays so |
| `Outcomes.PromotedHome` | packages/plugin-workspace-default/src/registry.ts:261-305 | A promoted output is the home whenever it is live, and makes no difference to the home while it is not, whatever the list |
| `Outcomes.MapJoins` | packages/plugin-workspace-default/src/registry.ts:838-864 | A new window is first or last of the workspace its output shows, and of no other |
| `Outcomes.UnmapLeaves` | packages/plugin-workspace-default/src/registry.ts:902-938 | An unmapped window is gone from its workspace and the index, the others keep their order |
| `Outcomes.ReorderedPlaces` | packages/plugin-workspace-default/src/registry.ts:752-778 | A member sent to a place is there, the others keep their order |
| `Requests.ReorderAsks` | packages/plugin-workspace-default/src/registry.ts:739-789 | Swap-next exchanges a window with the one after it, swap-prev with the one before, promote puts it first, move-to-index at that index kept within the list; nothing else changes, and the stack is pushed if it changed on screen |
| `Requests.UrgencyIsSet` | packages/plugin-workspace-default/src/registry.ts:620-639 | The flag of the workspace at the index takes the value, a change is reported once, a bad index refused |
| `Requests.NameIsSet` | packages/plugin-workspace-default/src/registry.ts:792-816 | The same for the name |
| `Requests.EnsureSeeds` | packages/plugin-workspace-default/src/registry.ts:218-254 | A first workspace is blank, dynamic, shown, has index 1 and prefers its birth output if that has a name |
| `Requests.BootIs` | packages/plugin-workspace-default/src/registry.ts:190-211 | The boot state, field by field, and its two effects |
| `Requests.CreateSeeds` | packages/plugin-workspace-default/src/registry.ts:330-368 | A created workspace has the name, persistence and preferences asked for, its birth output last among them unless named already; it is last on its output and every other record stays |
| `Requests.ShowAnchors` | packages/plugin-workspace-default/src/registry.ts:553-611 | Show remembers the workspace under the output's name and no other memory changes; for one shown already that is all; a bad index is refused |
| `Requests.MapAtJoins` | packages/plugin-workspace-default/src/registry.ts:874-896 | A window goes to the asked end of the named workspace, shown or not; an unknown one is refused |
| `Requests.IndicesCountFromOne` | packages/plugin-workspace-default/src/registry.ts:138-154 | The k-th workspace of an output has index k, counted from one |
| `Outcomes.CreateFindsOrAppends` | packages/plugin-workspace-default/src/registry.ts:316-368 | Create returns an existing workspace exactly if one has the name, the first such, and changes nothing; else a new last one that remembers its birth output and is not shown where something was |
| `Outcomes.ReapKeeps` | packages/plugin-workspace-default/src/registry.ts:528-540 | Evaporation removes at most the one record: windows, focus, memory and every other record stay |
| `Lifecycle.LookupsInverse` | packages/plugin-workspace-default/src/registry.ts:138-154 | findHandle and findIndex are inverse on every output |
| `WorkspaceRegistry.WorkspaceStore.constructor` | packages/plugin-workspace-default/src/registry.ts:190-211 | Boot: the stored maps equal the initial state, whose log replays to it |
| `WorkspaceRegistry.WorkspaceStore.EnsureOutput` | packages/plugin-workspace-default/src/registry.ts:218-254 | Creates and shows a first workspace on an empty output, else nothing |
| `WorkspaceRegistry.WorkspaceStore.Create` | packages/plugin-workspace-default/src/registry.ts:316-368 | Returns the workspace that has the name, or appends a new one with its seeded preferences behind what is shown |
| `WorkspaceRegistry.WorkspaceStore.Destroy` | packages/plugin-workspace-default/src/registry.ts:382-514 | The maps, effects and renumber list equal the transition function's; failure exactly on a bad index |
| `WorkspaceRegistry.WorkspaceStore.Relocate` | packages/plugin-workspace-default/src/registry.ts:441-449 | Moving members one by one appends the whole list and redirects exactly those windows |
| `WorkspaceRegistry.WorkspaceStore.Reap` | packages/plugin-workspace-default/src/registry.ts:528-540 | Destroys an empty, dynamic, hidden workspace and nothing else |
| `WorkspaceRegistry.WorkspaceStore.Show` | packages/plugin-workspace-default/src/registry.ts:553-611 | New shown workspace, cleared urgency, focus memory, events in order, then evaporation |
| `WorkspaceRegistry.WorkspaceStore.SetUrgent` | packages/plugin-workspace-default/src/registry.ts:620-639 | Changes one flag and reports only a flip |
| `WorkspaceRegistry.WorkspaceStore.MoveWindow` | packages/plugin-workspace-default/src/registry.ts:650-728 | The window changes lists and index, a cross-output destination is promoted, each touched stack is pushed once |
| `WorkspaceRegistry.WorkspaceStore.Promote` | packages/plugin-workspace-default/src/registry.ts:291-305 | The name goes to the front of the preferences, the rest keep their order |
| `WorkspaceRegistry.WorkspaceStore.Reorder` | packages/plugin-workspace-default/src/registry.ts:739-789 | The member ends at its target place, the others keep their order; a stack push only if shown |
| `WorkspaceRegistry.WorkspaceStore.SetName` | packages/plugin-workspace-default/src/registry.ts:792-816 | Changes one name and reports only a change |
| `WorkspaceRegistry.WorkspaceStore.ApplyMap` | packages/plugin-workspace-default/src/registry.ts:838-864 | A new window joins the shown workspace at the requested end |
| `WorkspaceRegistry.WorkspaceStore.ApplyMapAt` | packages/plugin-workspace-default/src/registry.ts:874-896 | A new window joins the given workspace; failure exactly on an unknown handle |
| `WorkspaceRegistry.WorkspaceStore.ApplyUnmap` | packages/plugin-workspace-default/src/registry.ts:902-938 | The window leaves its workspace and the index; a hidden emptied one evaporates |
| `WorkspaceRegistry.WorkspaceStore.PreRemove` | packages/plugin-workspace-default/src/index.ts:208-223 | Records what the output shows under its durable name |
| `WorkspaceRegistry.WorkspaceStore.CurrentLiveOutput` | packages/plugin-workspace-default/src/registry.ts:261-273 | The name table and the preference scan give the most preferred live output, a later output overwriting an earlier one of the same name |
| `WorkspaceRegistry.WorkspaceStore.MigrateAll` | packages/plugin-workspace-default/src/registry.ts:1034-1086 | Moving the workspaces one after another through the position lists equals the migration function, with one migrated event per changed home |
| `WorkspaceRegistry.WorkspaceStore.RestoreAll` | packages/plugin-workspace-default/src/registry.ts:1114-1161 | Whatever order the outputs are taken in, each listed output without one shows the remembered workspace, else its first |
| `WorkspaceRegistry.WorkspaceStore.RecomputeOutputs` | packages/plugin-workspace-default/src/registry.ts:1002-1245 | All phases together: new maps, and created, hidden, shown, stack, migrated and focus effects in the code's order |
| `Ledger.StepBalances` | packages/core/src/surface-transaction.ts:238-325 | Every step conserves debts: what it freezes or takes on is thawed, applied, cancelled or still owed, count for count; only begin takes anything on |
| `Ledger.EveryRunBalances` | packages/core/src/surface-transaction.ts:238-325 | The same summed over every run |
| `Ledger.FreezeLedger` | packages/core/src/surface-transaction.ts:246-253 | Freezes minus thaws of a surface is one if it has a hold, plus one for each gate-pending batch with it |
| `Ledger.SingleOutcome` | packages/core/src/surface-transaction.ts:246-253 | Each begun requirement is held, gate-pending, applied once or cancelled once |
| `Reports.EveryStepReports` | packages/core/src/surface-transaction.ts:151-325 | Each step's events in full and in order: begin's own, each gate asked once about the batch, each hold's requirements applied and only then its surface thawed, the after-apply hooks last; or, for a cancel, each requirement cancelled and then the thaw |
| `Reports.OnlyCancelCancels` | packages/core/src/surface-transaction.ts:237-325 | Only a cancel cancels, and it applies nothing |
| `Reports.StepOutcomes` | packages/core/src/surface-transaction.ts:237-325 | A requirement is applied once for each time it is on a hold the step's round takes, or on a waiting batch whose gates settled, and cancelled once for each time it is on the hold a cancel drops |
| `Reports.EveryRunOutcomes` | packages/core/src/surface-transaction.ts:237-325 | The same counts over every run |
| `Reports.BeginEnrols` | packages/core/src/surface-transaction.ts:284-307 | A begin adds its requirement last on the surface's hold, whose deadline never moves back, or makes a hold behind all others |
| `Batches.AppliesExactlyTheChosen` | packages/core/src/surface-transaction.ts:172-204 | The grouped scan selects each hold at most once, and exactly those whose whole batch is ready or, when forced, has an elapsed member |
| `Reports.RoundTakes` | packages/core/src/surface-transaction.ts:167-204 | A round takes a hold without a key when all its requirements are ready, or its deadline has come if forced; any other when all holds of its key are ready, or one deadline has come if forced |
| `Reports.KeyIsFirst` | packages/core/src/surface-transaction.ts:180-188 | The key of a hold is the first one its requirements name |
| `Reports.AppliesInOrder` | packages/core/src/surface-transaction.ts:172-204 | Holds apply in the order in which their keys were first named, and under one key in the order they were begun |
| `Batches.BatchAtomic` | packages/core/src/surface-transaction.ts:196-201 | Holds under one key are all kept or all applied |
| `Batches.OnlyReadyApplies` | packages/core/src/surface-transaction.ts:168-171 | An unforced round applies nothing before every requirement of the whole batch is ready |
| `Batches.EvaluateIsMaximal` | packages/core/src/surface-transaction.ts:232-236 | A second evaluate with the same answers applies nothing and changes nothing |
| `Deadlines.StepCovers` | packages/core/src/surface-transaction.ts:206-230 | Over every step with a positive timeout, a timer is armed exactly while something is held, no later than any deadline |
| `Deadlines.ArmedAtEarliest` | packages/core/src/surface-transaction.ts:213-230 | An idle timer is armed at the earliest deadline, at least one unit from now, an armed one stays |
| `Deadlines.TickClears` | packages/core/src/surface-transaction.ts:219-228 | After a tick no hold remains whose deadline has come, however late the tick |
| `Deadlines.DeadlineFollowsLastBegin` | packages/core/src/surface-transaction.ts:284-300 | A hold's deadline is its last begin plus the timeout |
| `Deadlines.DeadlineBound` | packages/core/src/surface-transaction.ts:213-230 | With punctual timers no hold outlives its last begin by more than the timeout |
| `Freezing.FaithfulExactlyUnlessEarly` | packages/core/src/surface-transaction.ts:240-281 | A step keeps every surface frozen on screen exactly while the broker owes it a thaw, if and only if it does not thaw one that a later hold or another waiting batch still wants |
| `Freezing.FaithfulThroughoutIff` | packages/core/src/surface-transaction.ts:240-325 | Over every run: the screen agrees with the debts of a surface after every step if and only if no step thaws that surface early |
| `Freezing.ClearIsFaithful` | packages/core/src/surface-transaction.ts:240-325 | A caller that never begins on a surface while a batch with it waits for its gates sees it frozen exactly while a thaw is owed, and never more than one |
| `Freezing.LateBeginThaws` | packages/core/src/surface-transaction.ts:240-312 | And only such a caller: after a begin during the wait the surface has been thawed early, or a waiting batch that resolves next thaws it so |
| `Freezing.FrozenIffHeld` | packages/core/src/surface-transaction.ts:264-281 | Where no gate returns a promise, a surface is frozen on screen iff it has a hold |
| `Freezing.LateGateThawsHeldSurface` | packages/core/src/surface-transaction.ts:240-244 | A run in which a late gate thaws a surface under its new hold |
| `SurfaceTransactions.TransactionBroker.Begin` | packages/core/src/surface-transaction.ts:284-312 | New hold or later deadline, freeze and start only when new, timer, then evaluation |
| `SurfaceTransactions.TransactionBroker.Evaluate` | packages/core/src/surface-transaction.ts:232-236 | Equals the step function; the log stays balanced |
| `SurfaceTransactions.TransactionBroker.Cancel` | packages/core/src/surface-transaction.ts:314-324 | Cancels each requirement, thaws once, idles the timer when nothing is held |
| `SurfaceTransactions.TransactionBroker.FrozenReady` | packages/core/src/surface-transaction.ts:151-160 | Hooks of that hold first, then every hold is looked at again |
| `SurfaceTransactions.TransactionBroker.Tick` | packages/core/src/surface-transaction.ts:219-228 | Force-applies what is due with its batch peers and re-arms for the rest |
| `SurfaceTransactions.TransactionBroker.Resolve` | packages/core/src/surface-transaction.ts:246-262 | A waiting batch applies when its gates settle, and only then thaws |
| `SurfaceTransactions.TransactionBroker.Decide` | packages/core/src/surface-transaction.ts:172-204 | The map of groups, built in one scan, gives the groups in order of first appearance |
| `SurfaceTransactions.TransactionBroker.ArmTimer` | packages/core/src/surface-transaction.ts:213-230 | The timer is due at the earliest deadline, at least one unit from now |
| `Columns.AllocateColumns` | packages/plugin-layout-default/src/master-stack.ts:61-106 | The loops compute the pinning passes and the squeeze, whose properties the next rows state |
| `Columns.Fill` | packages/plugin-layout-default/src/master-stack.ts:77-99 | The bounded loop reaches the fixpoint of the passes within n + 1 rounds, whatever the bounds |
| `Columns.PinViolators` | packages/plugin-layout-default/src/master-stack.ts:84-94 | One pass pins exactly the free columns whose share violates a bound, each at the bound it violates, and keeps the books |
| `Columns.LimitsAre` | packages/plugin-layout-default/src/master-stack.ts:64-75 | A minimum counts from zero up, and a maximum below it counts as the minimum |
| `WaterFill.RawHonours` | packages/plugin-layout-default/src/master-stack.ts:50-99 | The passes honour every bound, give every other column its share of one common scale, and use up the room unless every column is at a bound |
| `WaterFill.AllocationFits` | packages/plugin-layout-default/src/master-stack.ts:61-106 | Any bounds: no width is negative or above its maximum, the sum is at most the room, and room is left over only if every column is at a bound |
| `WaterFill.BoundsHonouredIff` | packages/plugin-layout-default/src/master-stack.ts:50-106 | Let a column claim its maximum if weight alone would give it more, else its minimum: every bound is honoured, nothing being squeezed, if and only if the claims fit the room |
| `WaterFill.ClaimsShrink` | packages/plugin-layout-default/src/master-stack.ts:56-106 | Where the claims exceed the room, each column gets its claim times room over total claims |
| `WaterFill.AllocationFoundIff` | packages/plugin-layout-default/src/master-stack.ts:50-106 | Where the shares of some level, kept within their bounds, fill the room, the allocation is those widths if and only if each bound the first pass meets is one of them |
| `WaterFill.OneSidedFills` | packages/plugin-layout-default/src/master-stack.ts:50-106 | Where dividing by weight alone violates minimums only, or maximums only, and the minimums fit, mixed bounds included: every width is its share of one level kept within its bounds, all are honoured, and without a violated maximum the room is used up |
| `WaterFill.FloorsShrinkInProportion` | packages/plugin-layout-default/src/master-stack.ts:56-60 | In particular, where no maximum is violated and the minimums alone exceed the room, each column gets its minimum times room over total minimum |
| `WaterFill.LevelUnique` | packages/plugin-layout-default/src/master-stack.ts:50-56 | The total determines the widths: any two allocations at a common level with the same sum are the same |
| `WaterFill.MixedBoundsBreakMinimum` | packages/plugin-layout-default/src/master-stack.ts:50-60 | A minimum of 60 beside a maximum of 45 in 100 pixels: pinned at 105, then squeezed below the minimum |
| `Tiling.ColumnsLayout` | packages/plugin-layout-default/src/master-stack.ts:115-144 | Each column at the floored widths before it and its gaps, the last one to the end of the region |
| `Tiling.LayoutTiles` | packages/plugin-layout-default/src/master-stack.ts:115-144 | Where the region holds the gaps the columns tile it exactly, whatever the bounds: each its floored share, the last one all that is left |
| `Tiling.LastColumnExactIff` | packages/plugin-layout-default/src/master-stack.ts:131-139 | The last column has no more than its allotted width, a maximum for instance, if and only if the allocation uses up the room and gives all others whole pixels |
| `Tiling.FlooringBreaksMaximum` | packages/plugin-layout-default/src/master-stack.ts:132-136 | Three equal columns in 101 pixels, the last at most 20: it comes out 21 wide |
| `Tiling.ServedIffRoom` | packages/plugin-layout-default/src/master-stack.ts:131-143 | Whole-pixel minimums are all served if and only if the claims fit the room, or exceed it by so little that flooring spares the last column; where the weights alone violate one kind of bound at most, if and only if the minimums fit |
| `Tiling.FlooringSparesMinimum` | packages/plugin-layout-default/src/master-stack.ts:131-143 | A maximum of 45 and a minimum of 56 in 100 pixels: overrun by one, and the last column is spared |
| `Tiling.TilesInside` | packages/plugin-layout-default/src/master-stack.ts:127-143 | Tiles lie a gap inside the region |
| `Tiling.TilesApart` | packages/plugin-layout-default/src/master-stack.ts:127-143 | Any two tiles are at least a gap apart |
| `Tiling.ColumnsMeasure` | packages/plugin-layout-default/src/master-stack.ts:159-193 | The rounded sum of what the columns ask for, at least the workarea |
| `Tiling.WantIs` | packages/plugin-layout-default/src/master-stack.ts:166-189 | A pitch within its bounds, each with its gap share on top, is what a column asks for; else the bound it passes, a minimum winning over a smaller maximum |
| `Tiling.GapSharesAddUp` | packages/plugin-layout-default/src/master-stack.ts:166-174 | The gap shares of n columns are the n + 1 gaps |
| `Tiling.MeasureIsEnough` | packages/plugin-layout-default/src/master-stack.ts:166-189 | The measured width holds every whole-pixel minimum and all gaps when each column without a minimum asks for at least its gap share, maximums or not |
| `Tiling.TargetsHitIff` | packages/plugin-layout-default/src/master-stack.ts:108-114 | Without gaps, a region of exactly the natural width lands every column on its target if and only if each bound that dividing the region by fraction alone would violate is its column's target |
| `Tiling.MeasuredExactly` | packages/plugin-layout-default/src/master-stack.ts:108-114 | In particular where that violates one kind of bound at most |
| `Tiling.MixedBoundsMissTarget` | packages/plugin-layout-default/src/master-stack.ts:108-114 | A minimum of 70, a maximum of 50 and a natural width of 130: the first pass pins the second column at 50, and the targets are missed |
| `MasterStack.MasterStackLayout` | packages/plugin-layout-default/src/master-stack.ts:197-241 | Where the region holds the gaps: the master is the fraction, kept in 0.05..0.95, of the room both columns share, to the nearest pixel, ties up; master and stack fill their columns exactly, equal slices, the last larger by less than the slice count |
| `MasterStack.MasterGrows` | packages/plugin-layout-default/src/master-stack.ts:213-222 | A larger fraction never gives a narrower master |
| `MasterStack.MasterAtSixTenths` | packages/plugin-layout-default/src/master-stack.ts:213-222 | 0.6 of 1000 pixels is 600 |
| `MasterStack.MasterStackDisjoint` | packages/plugin-layout-default/src/master-stack.ts:221-240 | Those rectangles are pairwise disjoint and inside the region |
| `Layout.LayoutPlugin.Widths` | packages/plugin-layout-default/src/index.ts:112-140 | The user's own width where there is one, else the island's by column position, within the limits; each window's resize base becomes the island's width at its position, no other base changes |
| `Layout.WidthApplies` | packages/plugin-layout-default/src/index.ts:112-140 | The user's own width; else the width declared for the position, clipped; past those the island's common width, clipped; without either the configured one |
| `Layout.ModeApplies` | packages/plugin-layout-default/src/index.ts:112-124 | The island's own mode decides, else the configured one |
| `Layout.SizesConstrain` | packages/plugin-layout-default/src/index.ts:147-155 | A positive stated size constrains a column, any other does not |
| `Layout.LayoutPlugin.Measure` | packages/plugin-layout-default/src/index.ts:218-230 | The natural size of an island from its windows' effective widths |
| `Layout.LayoutPlugin.Compute` | packages/plugin-layout-default/src/index.ts:157-188 | The columns stand where the allocation for their windows' effective widths and bounds puts them, translated to the region, with their resize bases set; a stack region is filled by master and stack |
| `Layout.LayoutPlugin.Arrange` | packages/plugin-layout-default/src/index.ts:157-230 | An island laid out in the size it measured: tiled exactly; every whole-pixel minimum served if and only if the claims fit or flooring spares the last column; and without gaps every column on the width its window asked for if and only if each bound its fraction alone would violate is asked for |
| `Layout.ResizeMovesShown` | packages/plugin-layout-default/src/index.ts:201-211 | A resize starts from what the window shows: its width moves by the delta, within the limits, and no other window's does |
| `Layout.LayoutPlugin.ResizeShown` | packages/plugin-layout-default/src/index.ts:157-211 | Laid out, then resized: the next layout asks for that window's shown width moved by the delta, and the same for all others |
| `SurfaceTree.HitIsTopmost` | packages/core/src/surface-hit-test.ts:77-137 | The search from the top returns the last drawn, unshadowed surface that contains the point and accepts it, and none if there is none |
| `SurfaceTree.ClicksLandOnWhatIsDrawn` | packages/core/src/surface-hit-test.ts:1-20 | Where nothing clickable lies under a surface without a size, that is the last surface of the whole draw order, for every point and input region |
| `SurfaceTree.ShadowedClickMissed` | packages/core/src/surface-hit-test.ts:90-94 | And only there: otherwise some click on a drawn surface is missed |
| `SurfaceTree.EmittedAreTheLayers` | packages/core/src/subsurfaces.ts:158-168 | The emitted stack lists the layers in draw order, wherever the tree is placed |
| `SurfaceTree.EmitSubtreeStack` | packages/core/src/subsurfaces.ts:158-168 | Pushes each drawable child and then its subtree |
| `DrawOrder.DrawnInOrder` | packages/core/src/subsurfaces.ts:158-168 | Two drawn surfaces: an ancestor comes before its descendants, a lower child with all its own before a higher one, each at the root's place plus the offsets along its path |
| `DrawOrder.LayerHasPath` | packages/core/src/subsurfaces.ts:158-168 | Every layer is that of some path of drawn surfaces |
| `DrawOrder.TakesIs` | packages/core/src/surface-hit-test.ts:96-99 | A layer takes a point inside it, left and top edges included, right and bottom excluded, where its input region does |
| `DrawOrder.RootTakes` | packages/core/src/surface-hit-test.ts:118-137 | A root alone takes a point in its rectangle where its region, shifted by its window geometry, does |
| `SurfaceTree.TopmostIs` | packages/core/src/surface-hit-test.ts:69-76 | What the topmost taker of a point means |
| `Restacking.DrainKeeps` | packages/core/src/subsurfaces.ts:82-97 | Any queue leaves the siblings a permutation of themselves, and those no operation moves keep their order |
| `Restacking.ReorderKeeps` | packages/core/src/subsurfaces.ts:99-149 | One operation moves its subject only |
| `Restacking.ReorderPlaces` | packages/core/src/subsurfaces.ts:111-148 | Placed by another sibling the subject ends immediately above or below it; by the parent, at the bottom |
| `Restacking.ChildIsFirst` | packages/core/src/subsurfaces.ts:99-125 | The sibling is looked up as the first child with that surface |
| `Restacking.ReorderBySelf` | packages/core/src/subsurfaces.ts:127-148 | Placed by itself it moves up one place or stays |
| `Restacking.Subcompositor.Splice` | packages/core/src/subsurfaces.ts:99-149 | The in-place splices equal the reordering function, dropped operations included |
| `Restacking.Subcompositor.ApplyReorder` | packages/core/src/subsurfaces.ts:82-97 | The queue is applied in arrival order and cleared |
| `Popups.SolvePopupPosition` | packages/core/src/popup-position.ts:40-143 | Per axis: the popup hangs from the near or far edge or the middle of the anchor rectangle, plus the offset, by its far edge, near edge or middle, as gravity says; where that does not fit, by the opposite edges if it may flip and that fits; else it slides to the edge it passes; else it shrinks; the place is rounded |
| `Popups.MenuDropsBelow` | packages/core/src/popup-position.ts:40-74 | A bottom-anchored, bottom-gravity menu that fits starts at the bottom of its button |
| `Popups.MenuFlipsAbove` | packages/core/src/popup-position.ts:123-132 | Where it sticks out below and may flip to a place that fits, it ends at the top of its button |
| `Popups.OnOutputExactlyWhen` | packages/core/src/popup-position.ts:105-121 | The rounded popup lies on the output along an axis if and only if it fits in place or mirrored, may slide and is small enough or may shrink, or one of two narrow cases without sliding |
| `Popups.SlidePutsPopupOnOutput` | packages/core/src/popup-position.ts:112-140 | On either axis a popup that may slide is on the output when no larger than it, or when it may also shrink |
| `Popups.HalfPixelSpill` | packages/core/src/popup-position.ts:117-119 | Shrinking without sliding from a half pixel spills half a pixel past the edge |
| `Popups.FlipsCommute` | packages/core/src/popup-position.ts:64-79 | The flips commute and each leaves the other axis alone |
| `Popups.VerticalIgnoresHorizontal` | packages/core/src/popup-position.ts:123-140 | No vertical result depends on horizontal data |
| `Slots.SlotTable.ResolveSlots` | packages/plugin-canvas/src/index.ts:1212-1232 | Every handle gets a slot of its own; a first claim keeps its slot; the new slots ascend with the handles, leave no gap below, are below the handle count and remembered |
| `Slots.ResolvedTwice` | packages/plugin-canvas/src/index.ts:1212-1232 | Resolving again changes nothing |
| `Slots.SlotTable.FreeSlot` | packages/plugin-canvas/src/index.ts:1226-1227 | The lowest free slot, at most the number in use |
| `Islands.PackRows` | packages/plugin-canvas/src/index.ts:1268-1294 | Of one greedy fill per row count, the first with the least score |
| `Islands.WrapRows` | packages/plugin-canvas/src/index.ts:1276-1289 | A greedy fill: a new row only where the island would overrun the budget |
| `Islands.BreaksOnlyWhenFull` | packages/plugin-canvas/src/index.ts:1276-1289 | A row ends only where the next island would overrun the budget |
| `Islands.BudgetShapes` | packages/plugin-canvas/src/index.ts:1273-1275 | One row affords aspect times its height, and each further row aspect times a height and a gutter more |
| `Islands.RowsContiguous` | packages/plugin-canvas/src/index.ts:1280-1288 | No row is empty |
| `Islands.RowsAscend` | packages/plugin-canvas/src/index.ts:1280-1288 | Rows never go back |
| `Islands.RowsFit` | packages/plugin-canvas/src/index.ts:1282-1286 | Each row fits the budget or holds a single island |
| `Islands.Place` | packages/plugin-canvas/src/index.ts:1484-1494 | Each island stands at the end of its row so far, for any row assignment |
| `Islands.RowsStacked` | packages/plugin-canvas/src/index.ts:1484-1494 | The first island of a row stands at the left, row 0 at the top, each further row a height and a gutter lower; islands keep their width and fill the height |
| `Islands.IslandsApart` | packages/plugin-canvas/src/index.ts:1484-1494 | Islands never overlap; row neighbours stand exactly one gutter apart |
| `Cameras.ScrollTable.RevealScroll` | packages/plugin-canvas/src/index.ts:969-1010 | The stored scroll equals the reveal function's and is reported only if it moved |
| `Cameras.RevealAims` | packages/plugin-canvas/src/index.ts:944-1010 | A column in view with its margins leaves the scroll alone; else it comes a margin from the edge it is beyond, or between its neighbours to the middle, to the pixel, as far as the ends of the island allow |
| `Cameras.RevealShowsIff` | packages/plugin-canvas/src/index.ts:944-1010 | After a reveal the whole column is in view if and only if it fits with the margin to spare, or is centered between neighbours, or stands so near an end of its island that the clamp gives the margin up |
| `Cameras.RevealShows` | packages/plugin-canvas/src/index.ts:944-1010 | In particular, whatever the scroll was, once the view has the margin to spare |
| `Cameras.TightRevealCuts` | packages/plugin-canvas/src/index.ts:963-985 | A column of 950 in a view of 1000 with a margin of 100 is cut, whichever side it is revealed from |
| `Cameras.RevealTwiceIff` | packages/plugin-canvas/src/index.ts:979-1009 | A second "visible" reveal does nothing if and only if the view has twice the margin to spare, or the column is oversized, or an end of the island decides the scroll |
| `Cameras.RevealSwings` | packages/plugin-canvas/src/index.ts:979-1009 | Otherwise it moves the view back and forth: a column of 850 in a view of 1000 with a margin of 100 |
| `Cameras.DockShowsColumn` | packages/plugin-canvas/src/index.ts:1183-1193 | Through the docked camera the column lies inside the workarea if and only if the reveal could show it so |
| `Cameras.DockAligns` | packages/plugin-canvas/src/index.ts:1183-1193 | The docked camera has full size and puts the clamped scroll position at the workarea's left edge, the island's top at its top |
| `Cameras.FitCamera` | packages/plugin-canvas/src/index.ts:921-950 | The fit camera frames every island inside the workarea, centers their bounds in it, and no camera with a larger zoom up to 1 frames them |

## Left out

- Tiling.TargetsHitIff: speaks of the unrounded natural width and no gaps; a rounded width differs by the half
  pixel the rounding moves.
- Tiling.ColumnsLayout: coordinates are unbounded integers; the truncation of `| 0` to 32 bits is not modelled.
- Islands.PackRows: the logarithmic row score is an uninterpreted function.
- RoundTrip.HotplugRoundTrip: a workspace's place in its position list is not restored, because migration
  re-appends in creation order.
- Restacking.Subcompositor.Splice: children's resources and surfaces are numbers; destroying a subsurface
  while operations are queued appears only as an operation whose subject is absent.
- Column weights, camera and island lengths are exact reals; floating-point rounding and NaN are not modelled.
- Callbacks of the broker do not re-enter it, and exceptions they throw have no effect, as the code only logs
  them.
- Evaporation of workspaces created empty and hidden: `create` makes such workspaces and nothing revisits them.
- The plugin's fullscreen-output handlers, IPC and action registration, configuration validation, logging.
- `snapshotOf`, `snapshotsForOutput`, `findIndexByName`, `current`: read-only projections of the lists above.
- Focus policy, overlay placement, layer merge, effective stacking order, decoration arithmetic: true but easy.
- Coalescing of world publications and camera flights: asynchronous tasks whose losses the code does not settle.
- The KMS scanout ring, buffer and EDID helpers, the host window and the event loop: foreign calls.
