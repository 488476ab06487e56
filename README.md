# AdKats engine core, modelled in Dafny

This project models the core of the AdKats administration engine (`AdKatsEngine.cs`), a
plugin for the Procon game-server host. It covers four pieces:

- **Event veto fan-out** (module `Events`, class `Event`). An event has a default handler and a
  dictionary of subscriber handlers. A trigger calls every subscriber in order. Only an
  explicit `false` from a subscriber that did not throw vetoes the default. The default runs
  unless vetoed, and the trigger returns whether it ran.
- **Execution manager** (module `Execution`, class `ExecutionManager`; the source spells it
  `ExecutionMananger`). `Async` queues a function package. The dispatcher drains the queue
  into a private queue, oldest first. It then starts each package on its own thread and keeps
  a watchdog entry (thread id to timestamp) for packages with `Register` set. `RunSafe` runs a
  body and answers "continue" (`true`) when the body throws.
- **Instance lifecycle** (module `Instance`, class `InstanceManager`). This is the six-state
  machine `Setup, Stopped, Starting, Running, Stopping, Exception`, driven by the host's
  enable/disable flag `ProconEnabled`. A monitor loop does the driving, and the setup, startup
  and shutdown sequences are submitted as tasks.
- **`Helper.AlphaNum`** (module `Helper`). It deletes every character outside
  `[a-zA-Z0-9]` and is used for thread names.

Handlers and task bodies are represented by what one call of them does:
`Outcome = Returned(b) | Threw` (module `Outcomes`). The predicate `Halts` picks out the single
outcome that says "stop", `Returned(false)`. Both the event veto and `RunSafe` follow it.

Threads, wait handles and sleeps are replaced by explicit steps. Any interleaving of step calls
is one run of the concurrent program.

- Execution manager steps: `Async`, then `Drain`, then `StartNext(id, now, startThrows)`, where
  the runtime supplies the new thread's managed id and the clock reading, and `startThrows` says
  whether preparing or starting that thread throws. `FinishTask(id)` is the body of that thread
  running to its end. `KickWatchdog(id, now)` is a call from the thread `id`.
- Lifecycle steps: `OnProconEnabled(b)` is the host callback. `MonitorStep()` is one pass of
  the monitor loop after a wake. `CompleteTask(i)` is the in-flight sequence body at index `i`
  running to its end. Bodies may end in any order.

What the invariants say:

- `ExecutionManager.Valid()` says four things.
  - Every package submitted has been taken by the start loop, is in the private queue, or is
    pending, in submission order.
  - A watchdog entry exists exactly for the live workers whose package has `Register` set.
  - Each package taken has one recorded fate (`Accounted`). It runs on exactly one live worker,
    it has finished, or it was lost because starting its thread threw (the start loop logs the
    error and goes on, AdKatsEngine.cs:339-341). Each live worker runs exactly one taken package,
    and no two workers run the same one.
  - The finished count equals the number of taken packages that have finished.
- `InstanceManager.Valid()` says that `Starting` and `Stopping` always have the body that ends
  them in flight. `Setup` has a setup body in flight or a monitor pass still due; right after
  construction only the pass is due. In `Setup` nothing but setup bodies is in flight. It also
  says that `Exception` is exactly the state in which the monitor never started.

The scenario methods (`HappyPath`, `CancelledStartup`, `RepeatedSetup`, `ExceptionIsTerminal`,
`StartOrderScenario`, `WatchdogScenario`, `SubscriptionUniqueness`, `VetoScenario`) are clients.
They are proved only from the contracts of the classes, and each shows one end-to-end
behaviour of the engine: the lifecycle happy path, a cancelled startup, start order, watchdog
presence and the veto rules.

Two behaviours of the code that a reader of the lifecycle table might not expect. The model
keeps what the code does:

- Setup is not guaranteed to run only once. The monitor calls `RunSetupSequence` on every
  wake while the state is `Setup` (AdKatsEngine.cs:449-451). `RepeatedSetup` shows what
  follows: an enable during setup submits a second setup. That late setup body then declares
  `Stopped` while a startup is in flight, and the monitor submits a second startup.
- An unrecognised state does not lead to `Exception`. `Exception` is set only when the
  `InstanceManager` constructor catches an error (AdKatsEngine.cs:412-415). The `default:`
  throw of the switch cannot be reached for the closed enum. The constructor's `startFails`
  parameter stands for that error.

## Model

| member | source | states |
|---|---|---|
| `Events.Lookup` | AdKatsEngine.cs:197-199 | the dictionary indexer finds a handler exactly for the keys present, and what it finds is stored under that key |
| `Events.Event.constructor` | AdKatsEngine.cs:134-140 | a new event keeps its key, name and default handler and has no subscribers |
| `Events.Event.Trigger` | AdKatsEngine.cs:141-193 | every subscriber is called once, in dictionary order; the default is called after them exactly when `RunsDefault` holds; the result is whether the default ran |
| `Events.RunsDefaultIffNoVeto` | AdKatsEngine.cs:152-172 | the default runs if and only if no subscriber returned false without throwing (so with no subscribers it always runs) |
| `Events.ThrowingHandlerNeverVetoes` | AdKatsEngine.cs:155-164 | adding or removing a throwing subscriber anywhere in the dictionary never changes whether the default runs |
| `Events.OneVetoSuffices` | AdKatsEngine.cs:168-170 | one subscriber that returns false skips the default, whatever the others do |
| `Events.SubscriberCallsKeys` | AdKatsEngine.cs:148-151 | the i-th subscriber call of a trigger is to the i-th dictionary key |
| `Events.Event.RegisterHandler` | AdKatsEngine.cs:196-204 | returns true exactly when the key was absent; then the entry is appended, otherwise the dictionary (and the installed handler) is unchanged; keys stay distinct |
| `Events.LookupAfterAppend` | AdKatsEngine.cs:197-199 | after a successful registration the key finds the new handler and every other key finds what it found before |
| `Events.Event.UnregisterHandler` | AdKatsEngine.cs:206-210 | returns true exactly when the key was present; afterwards the key is absent and the other entries remain in order |
| `Events.RemoveKey` | AdKatsEngine.cs:208 | removal adds no entry, keeps none under the removed key, keeps every entry under another key, and never lengthens the dictionary |
| `Events.RemoveKeyLookup` | AdKatsEngine.cs:208 | after removal the key finds nothing and every other key finds what it found before |
| `Events.RemoveKeyUnique` | AdKatsEngine.cs:208 | removal keeps keys distinct and removes exactly one entry when the key was present, none otherwise |
| `Events.SubscriptionUniqueness` | AdKatsEngine.cs:196-210 | a second registration under the same key returns false and the first handler stays installed; removing a missing key returns false |
| `Events.VetoScenario` | AdKatsEngine.cs:143-192 | with no subscribers the trigger returns true; a throwing subscriber is called and the default still runs; adding a vetoing subscriber makes it return false |
| `Execution.RunSafe` | AdKatsEngine.cs:269-279 | the body's own result when it returns, true when it throws; false only for an explicit false |
| `Execution.ExecutionManager.constructor` | AdKatsEngine.cs:214-232 | both queues, the worker set and the watchdog map start empty, no function has run, and nothing has been submitted or taken |
| `Execution.ExecutionManager.GetThreadCount` | AdKatsEngine.cs:234-236 | the size of the watchdog map, which is the number of live workers running a registered package |
| `Execution.ExecutionManager.KickWatchdog` | AdKatsEngine.cs:238-246 | refreshes the timestamp to `now` exactly when the calling thread has an entry; otherwise nothing changes (only a warning) |
| `Execution.ExecutionManager.Async` | AdKatsEngine.cs:252-262 | exactly one package, with the given name, body and register flag, is appended at the tail of the pending queue; nothing else changes |
| `Execution.ExecutionManager.Drain` | AdKatsEngine.cs:291-297 | the pending queue is left empty and its packages, oldest first, follow those already in the private queue |
| `Execution.ExecutionManager.StartNext` | AdKatsEngine.cs:298-341 | nothing happens when the private queue is empty; otherwise its oldest package is taken, in submission order; it starts on thread `id` with a watchdog stamped `now` only for a registered package and no existing entry overwritten, or, when starting throws, it is lost with no worker and no watchdog; its recorded fate is "running on `id`" or "lost" accordingly |
| `Execution.ExecutionManager.StartThread` | AdKatsEngine.cs:326-335 | the started thread joins the live workers, and a registered package gets a watchdog stamped `now`; existing entries are kept |
| `Execution.ExecutionManager.FinishTask` | AdKatsEngine.cs:307-320 | the thread runs its body through RunSafe, loses its watchdog entry, leaves the worker set, and the finished count grows by one; the package it ran is recorded as finished |
| `Execution.NoPackageRunsTwice` | AdKatsEngine.cs:298-320 | two distinct live workers run two distinct taken packages |
| `Execution.SharedPackageUnaccounted` | AdKatsEngine.cs:298-320 | a state in which two workers run one taken package while another taken package has no fate satisfies no account |
| `Execution.StartOrderScenario` | AdKatsEngine.cs:291-299 | of two submitted packages the first started thread runs the first one |
| `Execution.LostStartScenario` | AdKatsEngine.cs:298-341 | a package whose start throws never runs and gets no watchdog, and the next package is still started |
| `Execution.WatchdogScenario` | AdKatsEngine.cs:234-246 | a tracked body has one entry while it runs and none after; a kick from inside refreshes the stamp; a kick from an untracked thread only warns |
| `Instance.MonitorAction` | AdKatsEngine.cs:448-482 | the monitor launches setup exactly in Setup, startup exactly in Stopped with the flag set, shutdown exactly in Running with the flag clear; it acknowledges exactly a disable during Starting and an enable during Stopping, reports exactly in Exception, and launches nothing in Starting, Stopping or Exception |
| `Instance.InstanceManager.constructor` | AdKatsEngine.cs:403-416 | the state is Setup and the monitor is due to run, or Exception with no monitor when starting it fails |
| `Instance.InstanceManager.OnProconEnabled` | AdKatsEngine.cs:418-421 | records the flag and wakes the monitor, changing nothing else |
| `Instance.InstanceManager.SetCurrentState` | AdKatsEngine.cs:436-438 | sets the state only |
| `Instance.InstanceManager.SetTargetState` | AdKatsEngine.cs:431-434 | sets the state and wakes the monitor |
| `Instance.InstanceManager.RunSetupSequence` | AdKatsEngine.cs:495-507 | the state becomes Setup and one setup body is submitted |
| `Instance.InstanceManager.RunStartupSequence` | AdKatsEngine.cs:509-526 | the state becomes Starting and one startup body is submitted |
| `Instance.InstanceManager.RunShutdownSequence` | AdKatsEngine.cs:528-540 | the state becomes Stopping and one shutdown body is submitted, without waking the monitor |
| `Instance.InstanceManager.MonitorStep` | AdKatsEngine.cs:445-485 | only when awake: Setup always resubmits setup, Stopped with the flag set moves to Starting, Running with it clear moves to Stopping, every other pair changes neither state nor submitted work; the invariant is kept |
| `Instance.InstanceManager.CompleteTask` | AdKatsEngine.cs:498-539 | setup and shutdown bodies set Stopped and wake the monitor; a startup body sets Running exactly when the flag is still set at its check, otherwise the state goes to Stopping with a shutdown submitted |
| `Instance.HappyPath` | AdKatsEngine.cs:448-540 | from construction the states are Setup, Stopped after setup, Starting then Running after enabling, Stopping then Stopped after disabling |
| `Instance.CancelledStartup` | AdKatsEngine.cs:458-463 | a disable during startup is acknowledged, and the startup body then goes to Stopping and Stopped without ever reaching Running |
| `Instance.RepeatedSetup` | AdKatsEngine.cs:449-451 | a wake during Setup submits a second setup, and the late one leads to two startups in flight |
| `Instance.ExceptionIsTerminal` | AdKatsEngine.cs:412-415 | when the monitor failed to start, the state stays Exception whatever the host signals |
| `Helper.AlphaNum` | AdKatsEngine.cs:689-698 | the result contains only ASCII letters and digits and is no longer than the input |
| `Helper.AlphaNumIsSubsequence` | AdKatsEngine.cs:696-698 | the kept characters appear in their original order |
| `Helper.AlphaNumCounts` | AdKatsEngine.cs:696-698 | each letter or digit is kept as many times as it occurs; every other character is dropped |
| `Helper.AlphaNumFixesAlphaNum` | AdKatsEngine.cs:696-698 | a string of letters and digits only is returned unchanged |
| `Helper.AlphaNumIdempotent` | AdKatsEngine.cs:696-698 | applying the filter twice gives the same result as once |
| `Helper.AlphaNumConcat` | AdKatsEngine.cs:696-698 | the filter distributes over concatenation |

## Left out

- Real threads, `EventWaitHandle` set/reset/wait, `Thread.Sleep`, the 30 s re-poll and the 10 s back-off after a loop error. These become explicit steps; each step is atomic.
- The race in which a tracked body may finish or call `KickWatchdog` before the dispatcher has registered its thread (the per-thread wait handle at AdKatsEngine.cs:305, 313, 336). The model registers the thread in the same step that starts it. The unlocked reads of the queue and the map are not modelled either.
- The race in `RegisterHandler`: `ContainsKey` (AdKatsEngine.cs:197) runs outside the lock taken at AdKatsEngine.cs:198, and the indexer store at AdKatsEngine.cs:199 overwrites. Two concurrent registrations of one key can therefore both return true, with the second silently replacing the first handler. In the model each registration is one atomic step.
- The lost wake-up between the switch and `Reset` in the monitor loop: a `Set` during a pass is never lost in the model.
- The monitor loop itself is submitted through `Async` with `Register` false, and the sequence bodies through `Async` with `Register` true. The two classes are not linked: `InstanceManager` keeps its own list of in-flight bodies. The `KickWatchdog` calls inside those bodies are modelled only in `ExecutionManager`.
- The two-argument `Async` overload is `Async` with `register` true.
- The thread name computed with `Helper.AlphaNum` (AdKatsEngine.cs:303, 322) has no observable effect in the model, so `StartNext` does not compute it.
- The arguments passed to handlers, and handlers whose result depends on them: each handler is represented by the outcome of its call.
- The default handler's own result and exception: the code ignores the result and catches the exception, and so does the model.
- C# `Dictionary` enumeration order is taken to be insertion order. After removals the real dictionary may reuse slots and enumerate differently.
- An exception after the thread has started but before its registration wait handle is signalled (AdKatsEngine.cs:326-336). The catch at AdKatsEngine.cs:339-341 would then leave a registered body blocked for ever on that handle. In the model a start either throws before the thread runs or completes with the thread registered.
- Null strings. A null key makes `RegisterHandler` and `UnregisterHandler` throw from `ContainsKey` and `Remove` (AdKatsEngine.cs:197, 208), and a null name makes `Helper.AlphaNum` throw (AdKatsEngine.cs:697). Dafny strings cannot be null; for a package name, `StartNext`'s `startThrows` stands for that error.
- ExecutionManager.ranFunctions: does not model the 32-bit wrap-around of `_ranFunctions`, an `Int32` raised with `Interlocked.Increment` (AdKatsEngine.cs:220, 320). The model's counter is unbounded, and the count in `Valid()` relies on that. The code never reads the counter.
- `StartNext` requires a thread id that no live worker has. This is the runtime's guarantee for managed thread ids, not a demand the code makes of its callers.
- Stopwatch timing and all `LogManager` output (console and chat via `ExecuteCommand`, stack-frame reflection, exception line parsing), which are I/O and reflection.
- `Helper.GetTimeString`, `GetTimeMs` and `GetTimeS`, which use floating-point arithmetic and `Math.Round`. `GetCurrentMethod`, which uses reflection.
- `SetProconEnable`, which is unused and only issues host commands. The static `Instances` list and the `Games` field of an event.
- The plugin metadata and the empty Procon callback stubs, which hold no logic.
- C# strings are UTF-16; the model's `string` is a sequence of Dafny characters. The filter only tests ASCII ranges, so this does not change its result for the characters it keeps.
