# AgentPilot: the window lifecycle, the VM registry, the agent handle and the VM window, in Dafny

AgentPilot is an Electron desktop application. A manager window creates "VM
windows". Each VM window drives a remote Scrapybara browser through an agent
that streams its steps back. This project models the sequential state logic of
that application and proves what it guarantees:

- `lifecycle.dfy`, module `Lifecycle`: the first main-process revision
  (`scrapypilot/main/main.ts`). There is one manager window and a list of VM
  windows. Rules decide when the manager is hidden, when it is shown again, and
  when the application quits.
  - A pure step function on a snapshot (`Shell`) states what each handler does.
  - The class `WindowLifecycle` updates its fields in place and is proved to
    follow that step function.
  - Lemmas over runs of events prove the reachable-state invariant: a hidden
    manager always comes with an open VM window.
- `registry.dfy`, module `MainProcess`: the current main process
  (`src/main/main.ts`, class `AgentPilotApp`).
  - An ordered registry of VM entries, each holding its `AgentPilot`.
  - Creation is guarded by the Scrapybara key and by the instance limit (25 by
    default).
  - When a window closes, its pilot is cleaned up and its entry is spliced out.
  - Status updates per entry, the manager's summary list, the `sendToVM` lookup,
    the `open-manager-window` handler and the `vm-command` dispatch.
- `agentpilot.dfy`, module `AgentPilotApi`: `AgentPilot` (`src/api/agentpilot.ts`).
  - The constructor's key check and its model selection.
  - `init`, and the single-flight `act`: a boolean lock drops calls made while a
    run is in flight, and is released however the stream ends.
  - The replaceable `onStep` slot.
  - `cleanup`, `pause` and `resume`, each guarded on the nullable instance.
- `vminstance.dfy`, module `VmRenderer`: the VM window's renderer
  (`src/renderer/vm-instance.ts`).
  - The `HH:MM:SS` uptime display: the millisecond split, `toString`, and
    `padStart(2, '0')`.
  - The one uptime interval, kept in step with the status string.
  - The `trim` guard of `sendCommand`, `initializeInstance`, and `cleanup`.
- `common.dfy`, module `Common`: `Option`, window ids, the outcome of an awaited
  remote call, and `splice(i, 1)`.

Calls into the Scrapybara SDK, playwright and the remote browser become
parameters that say how the awaited call ends. Examples are `RemoteOutcome`,
`InitRemote`, `StreamRun` (the steps an agent stream reports and how it ends)
and `InitOutcome`. Ghost or plain logs record what the model hands to code
outside it: `onStep` callback calls, remote calls, and calls on the renderer's
pilot. Each event handler runs as one atomic step.

Behaviour of the code worth knowing:

- `AgentPilot.cleanup` clears the instance, its id, the stream URL and the tools
  only. It leaves the `onStep` callback and the `actInProgress` lock as they are.
- In `src/main/main.ts`, a VM whose `init` fails stays in the registry. The
  'closed' listener is attached only after a successful `init`
  (`src/main/main.ts:349`), so closing that window never removes the entry. The
  entry keeps counting towards the instance limit.
- In `src/main/main.ts`, closing the manager quits the application whatever VM
  windows are open, and the field still points at the destroyed window. In the
  model a later "open manager" calls `show()` on it, which throws
  (`ManagerRef.Destroyed`); in the running application the quit that follows
  the close (whose `before-quit` teardown is not modelled) usually ends the
  process before such a message can arrive, so the throw is reachable only in
  the model's event orders.
- `createVMInstance` does not await `pilot.act(initialPrompt)`. When the handler
  returns, the initial run holds the lock, so a `vm-command` act that arrives
  before that run ends is dropped.
- The registry entry's `instance_id` is read before `init` and never updated, so
  it stays `null`.
- In the first revision, the VM 'closed' handler shows the manager whenever the
  list becomes empty, hidden or not.

## Model

| member | source | states |
|---|---|---|
| `Common.RemoveAt` | scrapypilot/main/main.ts:92 | `splice(i, 1)` leaves one element fewer: the multiset minus `s[i]`, the others in order |
| `Lifecycle.Initial` | scrapypilot/main/main.ts:25-26 | at load there is no manager and no VM window, and the invariant holds |
| `Lifecycle.IndexOf` | scrapypilot/main/main.ts:90 | `indexOf` is -1 exactly when the window is absent, otherwise its first position |
| `Lifecycle.ShowOrCreateManager` | scrapypilot/main/main.ts:28-48 | an existing manager is only shown (same id, no new window); otherwise one new visible manager; VMs and quit untouched; invariant kept |
| `Lifecycle.OnManagerClose` | scrapypilot/main/main.ts:50-60 | with VMs open the manager is kept but hidden and the list is unchanged; with none it is dropped and quit is requested; invariant kept |
| `Lifecycle.OnCreateVm` | scrapypilot/main/main.ts:68-87 | exactly one fresh window is appended; manager and quit unchanged; invariant kept |
| `Lifecycle.OnVmClosed` | scrapypilot/main/main.ts:89-109 | a listed window is removed (multiset minus that window); an unknown one changes nothing; on the last removal an existing manager is shown, and with no manager the app quits; with VMs left the manager is untouched |
| `Lifecycle.RemovalKeepsInv` | scrapypilot/main/main.ts:89-107 | the splice and the reshow-or-quit decision keep the lifecycle invariant, and the window is gone |
| `Lifecycle.OnAllWindowsClosed` | scrapypilot/main/main.ts:118-123 | quit is requested exactly when no VM is listed and there is no manager |
| `Lifecycle.OnOpenManager` | scrapypilot/main/main.ts:129-135 | creates the manager if there is none, otherwise shows it; the result equals `createManagerWindow`'s and is never a hidden manager |
| `Lifecycle.Step` | scrapypilot/main/main.ts:112-135 | every handler keeps the invariant and never withdraws a quit |
| `Lifecycle.RunKeepsInv` | scrapypilot/main/main.ts:2-20 | every run of events from an invariant state ends in an invariant state |
| `Lifecycle.HiddenManagerHasVm` | scrapypilot/main/main.ts:4-6 | in every reachable state a hidden manager comes with at least one VM window |
| `Lifecycle.QuitIsFinal` | scrapypilot/main/main.ts:56-58 | once quit has been requested, no later event withdraws it |
| `Lifecycle.ManagerReshownAfterLastVm` | scrapypilot/main/main.ts:17-19 | closing the manager and then the last VM shows the manager again instead of quitting |
| `Lifecycle.WindowLifecycle.constructor` | scrapypilot/main/main.ts:25-26 | the fields start as the initial snapshot |
| `Lifecycle.WindowLifecycle.CreateManagerWindow` | scrapypilot/main/main.ts:28-48 | the in-place update keeps the invariant and equals `ShowOrCreateManager` |
| `Lifecycle.WindowLifecycle.HandleManagerClose` | scrapypilot/main/main.ts:50-60 | equals `OnManagerClose` and keeps the invariant |
| `Lifecycle.WindowLifecycle.CreateVMInstance` | scrapypilot/main/main.ts:68-87 | the push equals `OnCreateVm` and keeps the invariant |
| `Lifecycle.WindowLifecycle.HandleVmClosed` | scrapypilot/main/main.ts:89-109 | the `indexOf`/`splice` handler equals `OnVmClosed` and keeps the invariant |
| `Lifecycle.WindowLifecycle.HandleWindowAllClosed` | scrapypilot/main/main.ts:118-123 | equals `OnAllWindowsClosed` |
| `Lifecycle.WindowLifecycle.HandleOpenManagerWindow` | scrapypilot/main/main.ts:129-135 | equals `OnOpenManager` |
| `AgentPilotApi.OrUndefined` | src/api/agentpilot.ts:50-51 | `key or undefined`, that is: present exactly when the key is present and non-empty, and then it is that key |
| `AgentPilotApi.SelectModel` | src/api/agentpilot.ts:53-82 | provider is openai exactly for an 'openai' config; the key is that provider's (empty means none); a known provider keeps the requested name; anything else gives anthropic `claude-3-7-sonnet-20250219`, a listed model |
| `AgentPilotApi.Deliveries` | src/api/agentpilot.ts:116-123 | with a callback set, each step is delivered once to it, in stream order; with none, nothing is delivered |
| `AgentPilotApi.DeliveriesAppend` | src/api/agentpilot.ts:111-125 | delivering a longer stream extends what its prefix delivered |
| `AgentPilotApi.AgentPilot.constructor` | src/api/agentpilot.ts:29-83 | with a key present, the model is `SelectModel`'s; no instance, id, URL or tools; unlocked; no callback |
| `AgentPilotApi.NewAgentPilot` | src/api/agentpilot.ts:40-44 | construction succeeds exactly when the Scrapybara key is present and non-empty |
| `AgentPilotApi.AgentPilot.Init` | src/api/agentpilot.ts:85-100 | one `startBrowser`; on success the instance and its id are bound and exactly one computer tool is appended; a later rejection keeps what was stored; the URL is returned only when every step resolves |
| `AgentPilotApi.AgentPilot.BeginAct` | src/api/agentpilot.ts:102-115 | a call while locked is dropped and changes nothing; otherwise the lock is taken and one stream is opened with the model and tools |
| `AgentPilotApi.AgentPilot.StreamStep` | src/api/agentpilot.ts:116-123 | a step reaches the callback in the slot now, only if one is set |
| `AgentPilotApi.AgentPilot.EndAct` | src/api/agentpilot.ts:126-129 | the `finally` releases the lock and changes nothing else |
| `AgentPilotApi.AgentPilot.Act` | src/api/agentpilot.ts:102-130 | busy means dropped with no effect; otherwise every step goes to the current callback, one stream call is made, the lock is released whether the stream ends or rejects, and the other fields are unchanged |
| `AgentPilotApi.SingleFlightScenario` | src/api/agentpilot.ts:102-130 | a second act while one is in flight is dropped, not queued; a callback swapped mid-run gets the later steps; the lock ends released |
| `AgentPilotApi.AgentPilot.Cleanup` | src/api/agentpilot.ts:132-140 | with an instance: one stop, and on success instance, id, URL and tools are cleared; with none: no call and no change |
| `AgentPilotApi.CleanupTwice` | src/api/agentpilot.ts:132-140 | after a cleanup that completes, a second one changes nothing and sends no second stop |
| `AgentPilotApi.AgentPilot.Pause` | src/api/agentpilot.ts:142-146 | forwarded only when an instance is bound; no field changes |
| `AgentPilotApi.AgentPilot.Resume` | src/api/agentpilot.ts:148-152 | forwarded only when an instance is bound; no field changes |
| `AgentPilotApi.AgentPilot.GetInstanceId` | src/api/agentpilot.ts:154-156 | null exactly while no instance is bound, otherwise the bound instance's id |
| `AgentPilotApi.AgentPilot.SetOnStep` | src/api/agentpilot.ts:158-164 | the slot then holds exactly the new callback, and `getOnStep` returns it; nothing else changes |
| `MainProcess.MaxInstances` | src/main/main.ts:244 | the limit `maxVmInstances`, or 25 when falsy: the setting when non-zero, 25 otherwise |
| `MainProcess.FindIndex` | src/main/main.ts:351 | -1 exactly for an unknown id, otherwise the first entry with that id |
| `MainProcess.Find` | src/main/main.ts:421 | `undefined` exactly for an unknown id, otherwise a listed entry with that id |
| `MainProcess.SendTarget` | src/main/main.ts:491-497 | `sendToVM` reaches nothing for an unknown id, otherwise the window of the entry with that id |
| `MainProcess.Summaries` | src/main/main.ts:514-521 | one `(id, name, status)` summary per entry, in registry order |
| `MainProcess.WithStatus` | src/main/main.ts:380-386 | only that entry's status changes; length and ids are kept |
| `MainProcess.SummariesWithStatus` | src/main/main.ts:380-386 | a status update shows in the manager's list at that entry only |
| `MainProcess.SummariesAppend` | src/main/main.ts:298-324 | a created entry shows as one more summary at the end of the list |
| `MainProcess.WellFormedAppend` | src/main/main.ts:298-313 | pushing an entry with fresh id, window and pilot keeps the registry well formed and adds exactly its id |
| `MainProcess.WellFormedRemove` | src/main/main.ts:349-362 | splicing an entry out keeps the registry well formed and drops exactly its id |
| `MainProcess.RemoveIds` | src/main/main.ts:351-354 | after the splice, the listed ids are the old ones minus the removed id |
| `MainProcess.WellFormedWithStatus` | src/main/main.ts:380-386 | a status overwrite keeps the registry well formed and its pilots |
| `MainProcess.AgentPilotApp.constructor` | src/main/main.ts:53-62 | no manager, an empty registry, no listeners |
| `MainProcess.AgentPilotApp.CreateManagerWindow` | src/main/main.ts:135-141 | an existing manager is only shown, and showing a destroyed one throws; otherwise one new manager is shown under the next window id, which advances by one; the registry and the VM id counter are untouched |
| `MainProcess.AgentPilotApp.HandleManagerClose` | src/main/main.ts:167-170 | quit always, with VMs open or not; the registry is untouched |
| `MainProcess.AgentPilotApp.HandleWindowAllClosed` | src/main/main.ts:106-109 | quit, unconditionally |
| `MainProcess.AgentPilotApp.HandleOpenManagerWindow` | src/main/main.ts:404-411 | creates the manager if there is none (taking the next window id), otherwise shows it, which throws exactly on a destroyed one; the registry and the VM id counter are untouched |
| `MainProcess.AgentPilotApp.AddEntry` | src/main/main.ts:264-314 | opens one window, builds a fresh pilot with `SelectModel`'s model and the relay callback of the next id, and appends exactly one 'running' entry under that id; the pilot has made no remote or step call yet; the registry stays well formed |
| `MainProcess.AgentPilotApp.StartPilot` | src/main/main.ts:314-345 | `init` is awaited and always starts a browser; when the start rejects the pilot's fields are untouched, otherwise it holds that instance, its id and the computer tool, and the stream URL unless fetching it rejected; the creation goes on exactly when `init` returns a non-empty URL; the pilot then holds the act lock, and has streamed the prompt with its model and tools, exactly when a non-empty initial prompt was given; the callback and step deliveries are kept |
| `MainProcess.AgentPilotApp.CreateVMInstance` | src/main/main.ts:229-366 | the missing-key error exactly when there is no key, registry unchanged; the limit error exactly when there is a key and the registry is full, unchanged; otherwise exactly one entry is appended before `init` (fresh id, the name, status running, its pilot with `SelectModel`'s model and the relay callback), and its pilot holds what `init` left: the instance, id and computer tool unless the start rejected, the stream URL unless either step rejected, remote calls of one browser start followed by the initial prompt's stream when that run is in flight; it is `Created` with a listener only if `init` yields a URL |
| `MainProcess.AgentPilotApp.HandleVmClosed` | src/main/main.ts:349-362 | the entry's pilot is cleaned up before exactly that entry is spliced out: one stop call for a bound instance, its fields cleared when the stop resolves and untouched when it rejects, its callback, lock and step deliveries kept; a window without a listener changes nothing; index -1 is unreachable; showing the manager again throws exactly when the registry became empty and the manager was destroyed |
| `MainProcess.AgentPilotApp.CloseEntry` | src/main/main.ts:349-357 | the listener's cleanup and splice before the manager is shown: the pilot's stop call and its fields as `cleanup` leaves them (cleared on a resolved stop of a bound instance, otherwise unchanged), exactly that entry removed, its listener dropped; without a listener nothing changes |
| `MainProcess.AgentPilotApp.UpdateInstanceStatus` | src/main/main.ts:380-386 | no effect for an unknown id; otherwise only that entry's status is overwritten |
| `MainProcess.AgentPilotApp.ActOnVm` | src/main/main.ts:429-441 | the entry's pilot runs the act: a busy pilot drops it and is untouched; otherwise every step reaches the pilot's callback in order, one stream call is made, the lock ends released, and the result is completed or threw as the stream ends |
| `MainProcess.AgentPilotApp.PauseOrResume` | src/main/main.ts:443-450 | the pilot's `pause`/`resume` is awaited: with an instance bound it is forwarded and its outcome returned; with none it resolves without a call, so the VM is still marked paused or running; the status is recorded exactly when the outcome resolves; the pilot's fields stay as they were |
| `MainProcess.AgentPilotApp.StopVm` | src/main/main.ts:451-454 | destroying the window runs its 'closed' listener: the pilot's stop is sent, its fields are left as `cleanup` leaves them, and a listened entry is spliced out with its listener dropped; an entry without a listener stays listed, marked stopped, with its pilot untouched; step deliveries are never touched |
| `MainProcess.AgentPilotApp.HandleVmCommand` | src/main/main.ts:420-457 | an unknown id does nothing; act leaves the registry alone and carries `Act`'s effects on the entry's pilot; pause and resume return the pilot's outcome (resolved when no instance is bound) and record the status exactly when it resolves; stop sends the pilot's stop through the 'closed' listener, leaves its fields as `cleanup` leaves them, removes a listened entry and drops its listener, and otherwise marks it stopped with the pilot untouched; pause, resume and stop never touch the step deliveries; other commands are ignored; the id and window counters never change |
| `VmRenderer.SplitUptime` | src/renderer/vm-instance.ts:243-247 | minutes and seconds are below 60, and `h·3600000 + m·60000 + s·1000 ≤ diff < that + 1000` |
| `VmRenderer.SplitUptimeUnique` | src/renderer/vm-instance.ts:245-247 | the split is the only normal reading within a second below `diff` |
| `VmRenderer.Digits` | src/renderer/vm-instance.ts:249-251 | `toString`: at least one digit, only digits, no leading zero |
| `VmRenderer.ValueOfDigits` | src/renderer/vm-instance.ts:249-251 | reading the numeral back gives the number |
| `VmRenderer.PadStart` | src/renderer/vm-instance.ts:249-251 | `padStart`: width `max(len, n)`, ends with the input, filled on the left |
| `VmRenderer.Field` | src/renderer/vm-instance.ts:249-251 | a display field is at least two digits, exactly two below 100 |
| `VmRenderer.FieldIsPadStart` | src/renderer/vm-instance.ts:249-251 | a display field is `padStart(2, '0')` of the numeral |
| `VmRenderer.ValueOfField` | src/renderer/vm-instance.ts:249-251 | zero padding keeps the value |
| `VmRenderer.FormatClockRoundTrip` | src/renderer/vm-instance.ts:249-253 | a reading with minutes and seconds below 60 displays as `H..H:MM:SS`, and parsing the display gives the reading back |
| `VmRenderer.FormatUptimeRoundTrip` | src/renderer/vm-instance.ts:249-253 | the display is `H..H:MM:SS`, and parsing it back gives the split exactly |
| `VmRenderer.FormatUptimeSameSecond` | src/renderer/vm-instance.ts:243-253 | two durations show the same text exactly when they fall in the same whole second |
| `VmRenderer.TrimStart` | src/renderer/vm-instance.ts:148 | drops exactly the leading ECMAScript whitespace |
| `VmRenderer.TrimEnd` | src/renderer/vm-instance.ts:148 | drops exactly the trailing ECMAScript whitespace |
| `VmRenderer.Trim` | src/renderer/vm-instance.ts:148 | no longer than the input, and neither starts nor ends with whitespace |
| `VmRenderer.TrimSlice` | src/renderer/vm-instance.ts:148 | the trimmed text is a slice of the input with only whitespace before and after it |
| `VmRenderer.TrimEmptyIffWhitespace` | src/renderer/vm-instance.ts:148-149 | the trimmed input is empty exactly when the input is whitespace only |
| `VmRenderer.VMInstanceWindow.constructor` | src/renderer/vm-instance.ts:10-28 | status 'initializing', no start time, no interval, no pilot, empty id |
| `VmRenderer.VMInstanceWindow.StartUptimeCounter` | src/renderer/vm-instance.ts:229-237 | the old interval is cleared before the new one is installed, so exactly one is live |
| `VmRenderer.VMInstanceWindow.UpdateStatus` | src/renderer/vm-instance.ts:193-207 | the status is recorded; 'stopped' and 'error' clear the interval; 'running' with none starts one; anything else leaves it; never more than one live timer |
| `VmRenderer.VMInstanceWindow.UpdateUptime` | src/renderer/vm-instance.ts:239-254 | the display becomes `UptimeText` of the start time: unchanged before a start time is set, otherwise `FormatUptime` of the elapsed time, which the round-trip lemmas characterise |
| `VmRenderer.VMInstanceWindow.InitializeInstance` | src/renderer/vm-instance.ts:48-80 | a new pilot is bound and initialized; with a URL: logged, running, start time stamped, one interval; otherwise 'error', no interval, and the pilot stays bound |
| `VmRenderer.VMInstanceWindow.HandleVmId` | src/renderer/vm-instance.ts:103-113 | the id is recorded and a new pilot is bound and initialized; with a URL: the URL is logged, the status is running with one interval and the start time stamped; otherwise one error line, status error, no interval, start time kept; the command box and the uptime text are untouched |
| `VmRenderer.VMInstanceWindow.SendCommand` | src/renderer/vm-instance.ts:147-168 | whitespace-only input: nothing happens and the input is kept; otherwise the trimmed command is echoed, given to the pilot or reported as failed without one, and the input is cleared |
| `VmRenderer.VMInstanceWindow.Cleanup` | src/renderer/vm-instance.ts:256-268 | the interval is always cleared; with a pilot, its cleanup is awaited and then the pilot is unset, the id emptied and the status 'stopped'; without one, or when the cleanup rejects, nothing else changes (console, start time, command box, uptime text and counters are stated unchanged) |
| `VmRenderer.BeforeUnloadAsWritten` | src/renderer/vm-instance.ts:309-312 | the listener as written leaves the live window untouched |
| `VmRenderer.UnloadAsWrittenLeaks` | src/renderer/vm-instance.ts:309-312 | after a successful start, unloading as written leaves the pilot bound, its browser unstopped and the timer running |
| `VmRenderer.BeforeUnload` | src/renderer/vm-instance.ts:256-268 | unloading the live window clears its interval, sends its pilot's cleanup, and unbinds the pilot when that resolves |
| `VmRenderer.UnloadReleases` | src/renderer/vm-instance.ts:256-268 | the same start followed by the intended unload releases pilot and timer |

## Left out

- Electron windows are opaque ids. Left out: window creation options, `loadFile`, devtools, the dev-mode `fs.watch` reload, `isDestroyed` checks (windows are taken as not destroyed) and the 'closed' event of the first revision's manager.
- IPC transport is not modelled: `ipcMain`/`ipcRenderer` channels, `sendToManager`, `updateInstanceCount`, `broadcastToVMs`, and the payload parsing of 'request-create-vm'. `createVMInstance` takes the name, the model config and the initial prompt as given.
- Settings persistence (electron-store, the settings window, get/save/clear settings) is not modelled. The settings are a constant of the app; an unset key is the empty string.
- The Scrapybara SDK, playwright, `chromium.connectOverCDP` and the remote browser are outside the model. Each awaited call is a parameter saying whether it resolves or rejects. `cdpURL` is not kept.
- `src/api/scrapypilot.ts` is not part of this model. The renderer's pilot is an opaque handle. Its `act` awaits nothing, so it resolves at once. Its `init` and `cleanup` are outcome parameters.
- Asynchronous interleaving is not modelled. Each handler runs to completion as one step. This includes unawaited calls (`pilot.cleanup()` in the 'closed' handler, the renderer's `cleanup()`): they run to completion at once.
- The rest of the initial prompt's run (`pilot.act(initialPrompt)` in `createVMInstance`) happens after the handler and is not modelled. That is, its steps and its unlock; they are `AgentPilot.StreamStep` and `AgentPilot.EndAct`.
- 'before-quit' of `src/main/main.ts` is not modelled: it destroys every window and empties the registry. After it, a 'closed' listener can run against an empty registry, where `vmWindows[index]` with index -1 throws. The model's invariant that every listener has an entry holds only without it.
- Wall-clock time: `Date` and `setInterval` timing. A time is a natural number of milliseconds given to the method; an interval is an id that is live or cleared; the ticks themselves are not modelled.
- `VmRenderer.VMInstanceWindow.UpdateUptime`: does not model a clock that goes backwards. It requires `now` to be at or after the start time, because a negative difference would need JavaScript's truncating `%` and a minus sign in `toString`.
- `createdAt` of `VMInfo`, `setupStreamViewer`, `updateResourceStats`, `appendToConsole`'s DOM work, `handleCommandResponse`, `sendVMCommand`, the 'create-new-instance' handler (`createNewInstance`) and the create-instance button are left out. They are display work or forward to code outside the model. The console is kept as a list of typed lines.
- `src/renderer/manager.ts`, `src/renderer/settings.ts`, `src/shared/` and `scrapypilot/renderer/vmInstance.js`: rendering, settings forms, logging and a one-line IPC send.
- The `onStep` relay's own work (`sendToVM(vmId, 'step-update', ...)`) is not modelled. The callback is identified by the VM id it relays to.

## Findings

| source | as written | input that shows it | evidently intended | confidence | as-written member | corrected member |
|---|---|---|---|---|---|---|
| src/renderer/vm-instance.ts:309-312 | the 'beforeunload' listener builds a new `VMInstanceWindow` and cleans that one up; its pilot is unset and it has no interval, so nothing is released | a VM window whose `initializeInstance` succeeded, then unloaded | clean up the live window: clear its uptime interval and stop its pilot's browser | not executed; high that the live window is untouched, medium on intent | `VmRenderer.BeforeUnloadAsWritten`, exhibited by `VmRenderer.UnloadAsWrittenLeaks` | `VmRenderer.BeforeUnload`, proved by `VmRenderer.UnloadReleases` |
