# A verified model of the uberscript reactive core

uberscript's core is a small, synchronous reactive engine with three parts:

- **signal**: a mutable cell. It holds a value, a set of receivers and a cleanup for each receiver.
- **monitor**: an effect. It runs a handler once while a global tracking slot is set, so every signal the handler reads subscribes the monitor's re-run callback.
- **mux**: a derived string signal. It interleaves fixed fragments with dynamic parts, re-publishes the concatenation on every flush, batches with `pause`/`resume`, and wires itself to its upstream signals lazily.

The model is one `Runtime` class (module `Engine`, `engine.dfy`). Its fields are the state the engine's closures capture:

- `sigs`: every signal's `val`, `receivers` and `cleanups`;
- `mons`: every monitor's body, stored `cleanup` and disposer list;
- `muxes` and `links`: every mux's `valList`, `batchDepth`, `handlerCount`, `evalList`, `disconnectList` and `watchingSignals`;
- `tracker` and `disposeList`: the global `monitorCallBack` and `disposeList`;
- `trace`: every call the engine makes into client code, in order: receivers, stored cleanups, monitor bodies, update functions given to a write, and function parts;
- two ghost fields for the proofs: `published`, the muxes that wrote their result signal, in order; and `clientFlushes`, the muxes whose public `flush` client code connected to a signal outside the mux's own list.

Handlers, cleanups, bodies and function parts are opaque ids. What client code returns comes from the runtime's `world`, a record of functions. Most methods of `Runtime` mirror one closure of the source, with the source's branches. The others are single steps of a closure, split out so that each proof stays small: `SetDepth`, `FlushNow`, `WireOne`, `Deliver`, `DropCleanup`, `StoreCleanup`, `ReadStep`, `Thunk`, `EvalStep` and `BatchStep`, among others. Most methods' `ensures` tie the new state to a function of the old state; the methods whose contracts state less are named at the head of a line under "## Left out", with what they leave unstated. Every method keeps the invariant `Valid()`.

A JavaScript value is `Undefined`, a string `Text(s)`, `NaN`, or `Ref(id, text)` for any other value. `id` is the value's identity under `===`: equal numbers or booleans share an id, and every array, object or function has its own. `text` is what `''.concat` makes of the value. `Types.StrictEq` is `===`: `NaN` equals nothing, and two `Ref`s are equal exactly when their ids are, whatever their text.

The pure modules hold the reference definitions and the lemmas about them:

| module | file | defines |
|---|---|---|
| `Types` | types.dfy | values, ids, events, the client `World` |
| `Receivers` | receivers.dfy | a JS `Set` as a distinct sequence in insertion order |
| `Notify` | notify.dfy | a write's notification round as a fold over the receivers |
| `MuxText` | muxtext.dfy | slot layout, `''.concat`, the template reading, part re-evaluation |
| `Batching` | batching.dfy | the pause counter as a reference model over call sequences |
| `Watching` | watching.dfy | which signals one `watch` call newly connects |
| `Captured` | captured.dfy | the engine's state records, its invariant, and how each update keeps it |

Three points of the code's behaviour that are easy to misread:

- The disposer `monitor` returns only runs the recorded disconnectors and returns `true`. It never runs the monitor's stored cleanup (src/main.js:30-33).
- A tracked read chooses between "watch" and "connect and record a disposer" by testing whether the *active callback* carries the signal tag, not the signal being read (src/main.js:43-46). So only a mux's own activation (src/main.js:154-161) turns reads into `watch` calls.
- `batchDepth` never stays negative once a call returns. `resume` at depth 0 sets it to -1 and keeps it there while the flush re-evaluates and publishes (src/main.js:126, src/main.js:114-116), and the flush then resets it to 0 (src/main.js:117). The model stores 0 before the flush in that case, and `MuxOk` keeps `depth >= 0` as an invariant. Nothing inside the flush reads the depth, because re-entrancy is not modelled.

## Model

| member | source | states |
|---|---|---|
| `Receivers.Add` | src/main.js:83 | `Set.add`: the result's members are the old ones plus `x`; existing members keep their order; distinctness is kept |
| `Receivers.Remove` | src/main.js:80 | `Set.delete`: the result's members are the old ones minus `x`; removing an absent handler changes nothing |
| `Receivers.AddTwice` | src/main.js:83 | a second connect of the same handler leaves the receiver set unchanged |
| `Receivers.RemoveDistinct` | src/main.js:80 | deleting keeps the receivers distinct |
| `Receivers.RemoveTwice` | src/main.js:80 | a second delete of the same handler changes nothing |
| `Receivers.RemoveAdded` | src/main.js:80-85 | a disconnect right after connecting a new handler restores the receiver set |
| `Types.StrictEqKinds` | src/main.js:61 | values `===` each other are of the same kind, and neither is `NaN` |
| `Types.StrictEqSymmetric` | src/main.js:61 | `===` is symmetric, and a value is `===` itself exactly when it is not `NaN` |
| `Types.SameTextNotEqual` | src/main.js:61 | for any text and any two distinct identities, the two objects concatenate alike but are not `===`, and neither is an object `===` the string of its text |
| `Notify.Call` | src/main.js:16-19 | calling a receiver: a client handler is recorded and returns its cleanup; a monitor callback runs its stored cleanup, then its body, and stores the result; no monitor's body or subscriptions change |
| `Notify.NotifyAll` | src/main.js:62-71 | a notification round changes no monitor's body or subscriptions |
| `Notify.NotifyEvents` | src/main.js:62-71 | the round's trace is, receiver by receiver in set order, that receiver's stored cleanup (if any) and then its call with `(new, old)`, each judged from the state before the round |
| `Notify.NotifyCleanupsVisited` | src/main.js:63-69 | after the round a receiver has a cleanup exactly when its call returned one, and it is that one |
| `Notify.NotifyMonitors` | src/main.js:62-70 | the round re-runs each monitor whose callback is a receiver exactly once, from its state before the round, and leaves the other monitors alone |
| `Notify.NotifyLeavesOthers` | src/main.js:62-70 | a handler outside the receivers keeps its cleanup and its monitor state |
| `MuxText.InitialSlots` | src/main.js:97-109 | the initial slot list holds fragment `i` at slot `2*i` and `undefined` at every part slot |
| `MuxText.ConcatInterleaves` | src/main.js:116 | `''.concat` over slots laid out as fragment, part, fragment, ... is the template reading `fragment0 + part0 + fragment1 + ...` |
| `MuxText.Tracked` | src/main.js:139-148 | the re-evaluated parts are indices of parts below `n` |
| `MuxText.TrackedIndices` | src/main.js:139-148 | `evalList` lists exactly the function and signal parts, in increasing order; literals are never re-evaluated |
| `MuxText.Refreshed` | src/main.js:115 | re-evaluation keeps the slot list's length |
| `MuxText.RefreshedEven` | src/main.js:115 | a flush never touches a fragment slot |
| `MuxText.RefreshedLaid` | src/main.js:139-148 | after activation's placements, running every thunk of `evalList` lays the slots out as fragment, part value, fragment, ...: every fragment at its even slot and every part's current value at its odd slot |
| `MuxText.RefreshedTwice` | src/main.js:113-118 | re-evaluating twice with the same signal values gives the same slots, so the second publication is an equal string |
| `MuxText.FlushText` | src/main.js:113-118 | once a mux is active, a flush publishes the template read with every part's current value |
| `MuxText.SigPartsTracked` | src/main.js:139-146 | every signal part is among the tracked parts |
| `Batching.Step` | src/main.js:113-128 | `flush` publishes exactly when the depth is at most 0, `resume` exactly when the decremented depth is at most 0, and a publication leaves the depth at 0 |
| `Batching.NestedRunIsSilent` | src/main.js:113-128 | while paused, a well-nested run of pause/resume/flush never publishes and ends one level per surplus pause deeper |
| `Batching.BatchPublishesAtMostOnce` | src/main.js:130-134 | `batch(fn)` with a balanced body restores the depth and publishes once at the outermost level and never inside another batch |
| `Batching.RunAfterPause` | src/main.js:121-123 | a run after `pause()` is the same run one level deeper |
| `Batching.DepthNeverNegative` | src/main.js:113-128 | no call sequence from a non-negative depth drives `batchDepth` below 0 |
| `Watching.Fresh` | src/main.js:207-212 | a watch connects only given signals not watched yet |
| `Watching.FreshDistinct` | src/main.js:207-212 | one watch call connects no signal twice, even if it is given twice |
| `Watching.FreshCovers` | src/main.js:207-212 | afterwards every given signal is watched, and nothing else was added |
| `Watching.WatchAgain` | src/main.js:207-212 | watching the same signals again connects nothing |
| `Watching.FreshNone` | src/main.js:208 | signals already watched are skipped |
| `Watching.Entries` | src/main.js:210 | each newly watched signal pushes one disconnector onto `disconnectList`, in order |
| `Engine.FlushCalls` | src/main.js:207-212 | a watch calls the flush once per newly connected signal, with that signal's value |
| `Engine.ReadSignals` | src/main.js:46 | a first run records one subscription per tracked read, in read order |
| `Captured.Dropped` | src/main.js:63-66 | `cleanups.delete(h)` drops `h` and keeps every other entry |
| `Captured.WiringTargets` | src/main.js:139-150 | the signals activation's `disconnectList` disconnects are exactly the signals among the parts |
| `Captured.SigOkAdd` | src/main.js:83 | adding any handler of the heap as a receiver, a mux flush included, keeps a signal well formed |
| `Captured.SigOkRemove` | src/main.js:74-80 | removing a receiver with its cleanup keeps a signal well formed |
| `Captured.DetachedListed` | src/main.js:164-168 | once every disconnector in a mux's list has run, no signal holds that mux's flush, provided every signal holding it is in the list |
| `Captured.WiredSet` | src/main.js:52-86 | updating a signal whose flush receivers are old ones or listed by their mux keeps every unmarked mux's flush held only where listed |
| `Captured.WiredConnect` | src/main.js:82-86 | a `connect` that marks the mux of a flush given outside its list leaves every unmarked flush listed wherever it is connected |
| `Captured.WiredLinks` | src/main.js:136-212 | changing one mux's wiring (activation, `destroy`, `watch`) keeps the other muxes' flushes listed |
| `Captured.OnlyWiredPush` | src/main.js:210 | a watch's new list entry keeps every listed signal listed |
| `Captured.UnheldNew` | src/main.js:96-111 | a new mux's flush is held by no signal |
| `Captured.DetachedTwice` | src/main.js:30-33 | running the disconnectors a second time changes nothing |
| `Captured.MuxOkActivated` | src/main.js:136-152 | activation places every literal, tracks every other part and keeps the mux well formed |
| `Captured.MuxOkDestroyed` | src/main.js:164-172 | `destroy` leaves a well-formed inactive mux with nothing tracked and a zero count |
| `Engine.Place` | src/main.js:139-152 | activation's `args.map` writes each literal into slot `2*i+1`, leaves every other slot alone, and lists the other parts for re-evaluation in order |
| `Engine.BatchDone` | src/main.js:130-134 | a whole batch on the engine matches the reference tally: for a balanced body, depth restored and one publication only at the outermost level |
| `Engine.FlushSteps` | src/main.js:113-118 | re-evaluation, publication and depth reset together are one flush |
| `Engine.InitSteps` | src/main.js:136-161 | activation followed by the tracked resume is `init`'s result: one publication of the template with current values, every signal part connected and watched |
| `Engine.Runtime.constructor` | src/main.js:7-8 | an empty heap with no tracking callback and no dispose list |
| `Engine.Runtime.NewSignal` | src/main.js:36-39 | `signal(v)`: a fresh signal holding `v` with no receivers and no cleanups |
| `Engine.Runtime.CallHandler` | src/main.js:68 | calling a receiver does what `Notify.Call` says and touches nothing else |
| `Engine.Runtime.MonitorRerun` | src/main.js:16-19 | the re-run callback runs the stored cleanup, then the body, stores its result, and leaves the tracking slot alone |
| `Engine.Runtime.Connect` | src/main.js:82-86 | any handler, a mux's public `flush` included, joins the receivers (once) and is called with the current value exactly when it is not the active callback; values unchanged; a flush connected outside its mux's list marks that mux in `clientFlushes` |
| `Engine.Runtime.Attach` | src/main.js:82-86 | the connect itself, for a handler that is no flush, a flush its mux lists for that signal, or the flush of a marked mux: the same new receivers, call and trace as `Connect` |
| `Engine.Runtime.Disconnect` | src/main.js:74-81 | the handler's cleanup runs and is dropped, the handler leaves the receivers, and the result says whether it was one |
| `Engine.Runtime.DisconnectTwice` | src/main.js:74-81 | a second disconnect returns false and runs no cleanup |
| `Engine.Runtime.Read` | src/main.js:41-50 | a read returns the value and never changes any value; with no callback it changes nothing; with a monitor callback it adds it to the receivers uncalled and records exactly one disposer; with an activating mux it watches the signal |
| `Engine.Runtime.Subscribe` | src/main.js:46 | the tracked read's connect and the one disposer pushed to the active list |
| `Engine.Runtime.Write` | src/main.js:52-72 | an update function is called on the old value (and traced) and its result stored, any other argument is stored as it is; the receiver set is unchanged; a value `===` the old one changes no cleanup and no monitor; any other value (`NaN` always, a distinct object with the same text too) runs the notification round over the receivers |
| `Engine.Runtime.NotifyReceivers` | src/main.js:61-71 | the state after the loop over the receivers is the state `Notify.NotifyAll` computes |
| `Engine.Runtime.NotifyLoop` | src/main.js:62-70 | the `forEach` visits every receiver in order, ending in the state the fold over all of them computes |
| `Engine.Runtime.Deliver` | src/main.js:62-70 | one receiver's turn: cleanup run and removed, call, new cleanup stored when one is returned |
| `Engine.Runtime.DropCleanup` | src/main.js:63-67 | the stored cleanup runs and its entry is removed before the call |
| `Engine.Runtime.StoreCleanup` | src/main.js:69 | a returned cleanup becomes the receiver's cleanup |
| `Engine.Runtime.ReadSource` | src/main.js:41-50 | a first-run read of a signal or a mux subscribes the monitor, and only it, to the signal read |
| `Engine.Runtime.Monitor` | src/main.js:10-34 | `monitor`: the slot is saved, set, and restored afterwards; one new monitor, whose subscriptions are its reads in order and which is a receiver of every signal it read; the body's result is its stored cleanup; every other monitor keeps its body and subscriptions, no receiver leaves a signal, templates are kept and watched sets only grow |
| `Engine.Runtime.StartMonitor` | src/main.js:11-25 | a new monitor is the active callback with its own empty dispose list, and its body runs |
| `Engine.Runtime.FinishMonitor` | src/main.js:25-28 | the first run's result is stored and the tracking slot gets back its previous values |
| `Engine.Runtime.FirstRun` | src/main.js:25 | the first run's reads subscribe the monitor in read order and no other monitor |
| `Engine.Runtime.DisposeMonitor` | src/main.js:30-33 | the disposer detaches the callback from every recorded signal, in order, returns `true`, and calls no client code (no cleanup) |
| `Engine.Runtime.DisposeTwice` | src/main.js:30-33 | running the disposer twice returns `true` both times and changes nothing the second time |
| `Engine.Runtime.NewMux` | src/main.js:96-111 | a new inactive mux with a fresh result signal holding `undefined`, its fragments in place and a zero depth and count |
| `Engine.Runtime.Thunk` | src/main.js:143-145 | one `evalList` thunk sets slot `2*j+1` to the part's current value |
| `Engine.Runtime.EvalPart` | src/main.js:141-146 | a function part is called on the current values; a signal part is read, tracked |
| `Engine.Runtime.Evaluate` | src/main.js:115 | the `evalList` loop refreshes every listed part's slot and changes no signal value; with no tracking context it changes no monitor, and with no mux activating it records exactly one call per function part, in list order |
| `Engine.Runtime.Publish` | src/main.js:116 | the concatenation of the slots is written to the result signal as a write (`Wrote`), which suppresses equal strings; every other signal keeps its value |
| `Engine.Runtime.Flush` | src/main.js:113-119 | no-op while the depth is positive; otherwise parts re-evaluated, concatenation published, depth 0, every other mux as it was and every other signal keeping its value, and the publication round (`PublishRound`): a text `===` the old value calls nobody beyond the function parts, any other runs the round over the result signal's receivers |
| `Engine.Runtime.FlushNow` | src/main.js:114-118 | a flush that is not held back: the same state change and publication round as `Flush` |
| `Engine.PlainPublishRound` | src/main.js:114-116 | with no tracking context a flush's publication is the write of its text over the result signal as the flush found it, after the function parts' calls: a text `===` the old value leaves the signal's receivers and cleanups, the monitors and the trace beyond those calls as they were; any other text runs the notification round; no other signal changes |
| `Engine.Runtime.SetDepth` | src/main.js:117 | `batchDepth = d` |
| `Engine.Runtime.Pause` | src/main.js:121-123 | the depth grows by one and nothing else changes |
| `Engine.Runtime.Resume` | src/main.js:125-128 | the depth drops by one and nothing else changes while it stays positive; otherwise it flushes, with `Flush`'s state change and publication round |
| `Engine.Runtime.BatchStep` | src/main.js:113-128 | each pause, resume or flush of the mux moves depth and publications as `Batching.Step` says |
| `Engine.Runtime.Batch` | src/main.js:130-134 | `batch(fn)` yields exactly the reference tally; with a balanced body, one publication at the outer level, none inside another batch, depth restored; every signal but the result signal keeps its value |
| `Engine.Runtime.Activate` | src/main.js:136-152 | `pause()`, literals placed, other parts tracked, the flush connected to every signal part |
| `Engine.Runtime.WireParts` | src/main.js:146 | every signal part gets the flush as a receiver |
| `Engine.Runtime.Arm` | src/main.js:138-152 | `pause()` and the placements of `args.map`, with the disconnect list installed |
| `Engine.Runtime.Install` | src/main.js:139 | the slots, `evalList` and `disconnectList` of activation stored |
| `Engine.Runtime.Init` | src/main.js:136-162 | no-op when active; otherwise activation and exactly one publication of the template with current values, even when paused, leaving depth and count as they were, every other mux as it was, every signal but the result signal with its value, and the tracking slot restored |
| `Engine.Runtime.TrackedFlush` | src/main.js:154-161 | with the mux as the active callback, `resume()` and the fallback evaluation, then the previous callback restored |
| `Engine.Runtime.InitFlush` | src/main.js:156-160 | `init` always leaves a computed value, whether `resume()` flushed or an outer pause held it back |
| `Engine.Runtime.InitHeld` | src/main.js:156-160 | held back by an outer pause, `init` evaluates and publishes itself |
| `Engine.Runtime.Refresh` | src/main.js:158-159 | re-evaluation and publication without touching the depth |
| `Engine.Runtime.Destroy` | src/main.js:164-172 | no-op when inactive; otherwise every disconnector runs, the list becomes null, `evalList` is emptied, the count zeroed and the watched set kept; unless client code connected the mux's flush outside its list (the mux is in `clientFlushes`), no signal holds the flush afterwards |
| `Engine.Runtime.Unwire` | src/main.js:166-168 | every non-null disconnector runs, in order |
| `Engine.Runtime.Deactivate` | src/main.js:169-171 | list null, `evalList` empty, count 0; watched signals kept |
| `Engine.Runtime.Cleanup` | src/main.js:174-177 | the count drops by one; at most 0 it destroys the mux |
| `Engine.Runtime.MuxConnect` | src/main.js:179-196 | with no handler, a read; otherwise, for any handler (another mux's flush included), activation when needed, the count one higher, the handler a receiver of the result signal, and a flush so connected marks its mux in `clientFlushes` |
| `Engine.Runtime.AddSubscriber` | src/main.js:184-186 | one subscriber more, connected to the result signal |
| `Engine.Runtime.InitSubscribe` | src/main.js:182-186 | a first connect activates the mux and publishes once |
| `Engine.Runtime.MuxDisconnect` | src/main.js:188-200 | the disconnect of a subscriber, as the public `disconnect` (which returns nothing) and the connect disposer both do it; the result is the disposer's: whether the handler was connected, and only then is the count lowered (and the mux destroyed at 0) |
| `Engine.Runtime.MuxDisconnectTwice` | src/main.js:188-195 | a connect disposer returns true at most once and lowers the count only then |
| `Engine.Runtime.RunDisposer` | src/main.js:188-195 | every disposer the engine hands out (a signal's `connect` disposer, a mux's `connect` disposer, a monitor's disposer) does what its closure does |
| `Engine.Runtime.WatchOne` | src/main.js:208-211 | a signal not watched yet is marked, pushed to the list, connected and flushed once; a watched one is skipped |
| `Engine.Runtime.WatchActive` | src/main.js:207-212 | the watch loop on an active mux: exactly the fresh signals, once each, in order |
| `Engine.Runtime.Watch` | src/main.js:204-215 | `watch` activates when needed, leaves every given signal watched and returns the mux itself |
| `Engine.Runtime.InitWatch` | src/main.js:205 | a watch on an inactive mux activates it first |
| `Engine.Runtime.MuxRead` | src/main.js:217-221 | a read of the mux activates it when needed and returns the result signal's value; on an inactive mux that is the template read with current values; the mux's depth and count and every other mux stay as they were, and no signal but the result signal changes value |
| `Engine.Runtime.InitRead` | src/main.js:219-220 | a first read of a mux yields its computed value, never an unset one, leaving its depth and count, every other mux and every other signal's value as they were |

## Left out

- `mapProps`, `uber`, `isUberObject` and the object tag (src/main.js:2, src/main.js:5, src/main.js:241-386) are not part of this model. They assemble objects from caller-supplied factories.
- The `isUberSignal` flag test (src/main.js:4, src/main.js:88-91, src/main.js:233-236) is replaced by tags: `Part` tells literals, functions and signals apart, and `Tracker` tells a monitor callback from an activating mux.
- What handlers, monitor bodies, cleanups, update functions and function parts compute is not modelled. They are ids, and their results come from the `world` record.
- Exceptions thrown by client callbacks are not modelled. Every callback returns.
- Re-entrancy is not modelled. A receiver cannot write, connect or disconnect during a notification round: the round runs over the receiver list as it was when it started. A mux flush reached as a receiver, from `connect`'s eager call or a write's round, is recorded in the trace as a call and not run there. Running it is the separate `Flush` operation.
- `WeakMap`/`WeakSet` garbage collection is not modelled. `cleanups` and `watchingSignals` are ordinary finite maps and sets.
- Malformed mux arguments are excluded. `NewMux` requires exactly one more fragment than parts.
- Engine.Runtime.Monitor: a monitor body's first run is a fixed list of tracked reads of signals and muxes. Its cleanup is the `world` result on the values after those reads. Writes, connects and nested monitors inside a first run are not modelled.
- Engine.Runtime.Monitor: the contract does not state the trace of the first run: that it starts with the body's call, nor what the activation of a mux read for the first time adds after it. Other monitors' stored cleanups are not stated either, since such an activation publishes and may re-run them.
- Engine.Runtime.NewMux, Engine.Runtime.MuxConnect, Engine.Runtime.Watch, Engine.Runtime.Connect: a mux used as a part of another mux (src/main.js:141-146, where activation calls the inner mux's `connect(flush)` and its thunk reads the inner mux) is not modelled; a `Part` is a literal, a function or a plain signal. Nor is `watch` given a mux (src/main.js:210). A client may still connect any mux's public `flush` (src/main.js:230) to a signal or a mux with `Connect` or `MuxConnect`. Such a flush is not in the mux's `disconnectList`, so after `destroy` it stays connected. The ghost set `clientFlushes` records the muxes whose flush was connected in this way. The invariant `Valid()` says that the flush of every other mux is held only by signals in its list, so `destroy` leaves no signal holding it.
- Engine.Runtime.EvalPart, Engine.Runtime.Init: signals read inside a function part are not tracked. In the source, the mux is the tracking callback during `init` (src/main.js:155-161), so such reads are watched there. In the model a function part's value comes from the `world` on the current values, and only signal parts are watched.
- Engine.Runtime.MonitorRerun: reads made by a re-run body are not modelled. The re-run installs no tracking context, so its reads subscribe whatever tracking context encloses the write: another monitor's callback in its first run, or a mux being activated (which then watches them). They never subscribe the re-run monitor itself.
- Engine.Runtime.Batch: the body of `batch(fn)` is modelled only as calls of the same mux's `pause`, `resume` and `flush`. Its writes to upstream signals reach the mux only as recorded flush calls.
- Engine.Runtime.Batch: the contract states the depth, the publications and that no other signal changes value. It does not state the text each publication writes, nor the trace and the monitors' cleanups the publications leave; each step's are those of `Flush` and `Resume`.
- Engine.Runtime.Flush, Engine.Runtime.FlushNow, Engine.Runtime.Resume: while a mux activates (the tracking slot holds a mux), the trace its re-evaluation records is not stated: a tracked read then runs `watch`, whose eager flush calls depend on what was watched before. While a monitor's first run is the tracking context, the monitors and the result signal's receivers and cleanups that the publication starts from are not stated; its old value and the trace are.
- Engine.Runtime.Init, Engine.Runtime.MuxRead, Engine.Runtime.InitRead: the contract states the mux's new state, the published text, the watched parts, every other mux and every other signal's value. It does not state the trace of activation (the flush's eager calls from wiring and watching, then the publication round), nor the monitors' cleanups and the signals' cleanups that round leaves.
- Engine.Runtime.MuxConnect, Engine.Runtime.AddSubscriber, Engine.Runtime.InitSubscribe: the contract states membership, count, activation and publication. It does not state the trace of the handler's eager call.
- Engine.Runtime.Watch, Engine.Runtime.InitWatch: on a mux that was inactive, the contract states only that the given signals are watched afterwards. It does not state the trace of the flush calls.
- Engine.Runtime.Destroy: the model requires that the mux is not the active tracking callback. `destroy` cannot be reached from a notification while the mux is activating, because re-entrancy is excluded.
- `handlerCount` is not bounded below. The source lets it go negative: a handler that was connected to the result signal without `connect`, such as a monitor callback from a tracked read, can be disconnected through `disconnect`. The model keeps no `handlerCount >= 0` invariant.
