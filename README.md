# loader.js task scheduler, modelled in Dafny

loader.js is a browser script loader. Every piece of work is a *task*: a script, a
stylesheet, a function body, or a group of other tasks. A task carries:

- a state: SLEEPING, WAITING, READY, LOADING, LOADED, SUCCEEDED or FAILED;
- a dependency counter;
- a list of branch tasks;
- an event list holding `on`/`one` callbacks.

Tasks move forward through `checkfor`. Starting a task sends it to WAITING. It becomes
READY once no dependency is outstanding. It is then run by the loader named by its
type. That loader's agent reports LOADING and then LOADED. When its last branch has
finished the task emits `success`. At any point a failure makes the task FAILED and
emits `error`.

Tasks are kept in a registry. The registry maps uid to task and also deduplicates by
(cache key, type). Loaders live in their own registry, and each one claims the
specifiers it can resolve. `Loader.load(...)` builds a *series* of the specifiers,
where each task depends on the one before it. Arrays inside become *parallel* groups.
The series is attached as a branch to the function task whose body is running, or it
is started as a root.

The model keeps the source's shape. Everything callbacks can do re-enters the
scheduler: `removeDependence`, `removeBranch` and `terminate`. So callbacks are a closed
datatype of actions, and the re-entrant cascade (`checkfor` → `exec` → agent `emit` →
`checkfor`, and `emit` → callback → `checkfor`) is a group of mutually recursive methods
on one `Runtime` object. That object holds the task table, the uid counter, the
deduplication index, the loader items and the loader queue. The cascade terminates
because states only move up. The measure is the set of (task, state rank) pairs not yet
reached.

A JavaScript exception (`exec` with no loader, or a `null` task coming from
`findOrCreate`) is the `thrown` result. It aborts the rest of the caller, as the
exception would.

Files:

- `taskstate.dfy`: states, `checkfor`'s guards and `is`.
- `eventbus.dfy`: the listener lists and what `emit` keeps.
- `registry.dfy`: `_tasks.get`/`put` with its decimal-key fallback.
- `specifiers.dfy`: specifiers and `flatten`.
- `loaders.dfy`: `_loaders`: `add`, the order of `each`, and the first claim.
- `scheduler.dfy`: the tasks, the cascade, wiring and the builders.
- `paths.dfy`: `realpath`.

## Model

| member | source | states |
|---|---|---|
| TaskState.AdvanceSteps | loader.js:497-551 | A trigger either leaves the state alone, or moves it from the exact predecessor state to its target. READY also needs a counter ≤ 0, SUCCEEDED also needs LOADED with no branches, and FAILED is entered from any other state. Both directions of "the state changes" are stated. |
| TaskState.AdvanceMonotone | loader.js:344-373 | No trigger lowers the state's numeric code. |
| TaskState.ReplayMonotone | loader.js:497-551 | Over any sequence of triggers the code never decreases. |
| TaskState.FailedIsSticky | loader.js:543-548 | From FAILED no sequence of triggers leads anywhere else. |
| TaskState.SucceedOnlyAfterLoad | loader.js:527-540 | A task below LOADED never reaches SUCCEEDED without a 'load' trigger. |
| TaskState.IsByName | loader.js:608-610 | `is(name)` holds for exactly the state of that name. |
| TaskState.IsErrorNeverHolds | loader.js:595 | `is('error')` is false in every state, because no status is named ERROR. |
| EventBus.PersistentMembers | loader.js:429-438 | After `emit` the list holds exactly the entries of the snapshot that are not fire-once. |
| EventBus.PersistentLength | loader.js:429-438 | The rebuilt list is no longer than the snapshot. It has the same length exactly when no entry was fire-once. |
| EventBus.PersistentIdempotent | loader.js:429-438 | A second emission rebuilds the same list. |
| EventBus.OnceFiresAtMostOnce | loader.js:417-438 | A `one` entry is gone after the emission that fired it. |
| Registry.DecimalRoundTrip | loader.js:249 | A uid's decimal text parses back to that uid, and is the only canonical text that does. This is what the `_cache[key]` fallback of `get` relies on. |
| Registry.Get | loader.js:245-250 | A non-string or empty key finds nothing. A found task is in the cache. An indexed key finds its cached task. |
| Registry.PutThenGet | loader.js:251-264 | After `put`, `getById(uid)` is the task, and for a non-empty string key `get(key, type)` is the task. |
| Registry.PutKeepsOtherLookups | loader.js:245-261 | `put` of a new task leaves every other successful lookup unchanged. |
| Specifiers.ReduceFromAcc | loader.js:25-29 | `reduce` from an accumulator yields the accumulator followed by the flattening. |
| Specifiers.FlattenIsFlat | loader.js:25-29 | `flatten` leaves no nested list. |
| Specifiers.FlattenKeepsFlat | loader.js:25-29 | A list without nested lists is returned unchanged. |
| Specifiers.FlattenAppend | loader.js:25-29 | Flattening distributes over concatenation. |
| Specifiers.FlattenIdempotent | loader.js:25-29 | Flattening twice is flattening once. |
| Loaders.Trim | loader.js:322 | The trimmed name is no longer than the original, keeps only its characters, and neither starts nor ends with white space. |
| Loaders.TrimStripsEnds | loader.js:322 | `trim` removes white space at the two ends and nothing else. The result is a slice `s[i..j]`, and every character outside it is white space. |
| Loaders.Admitted | loader.js:316-334 | `add` ignores a candidate with no name, a blank name, a name already taken (built-ins included), or a `resolve` or `load` that is not a function. An admitted name is the trimmed name: non-empty, new, with no white space at either end. |
| Loaders.AdmittedOnce | loader.js:316-334 | Adding the same loader twice registers it once. |
| Loaders.VisitOrderShape | loader.js:306-315 | `each` visits 'function' first, then the queue from the newest to the oldest. |
| Loaders.VisitOrderMembers | loader.js:306-315 | The names visited are exactly the queued ones and 'function'. |
| Loaders.VisitOrderAfterAdd | loader.js:306-334 | A newly added loader is tried right after 'function' and before every older one. |
| Loaders.Claim | loader.js:640-651 | A loader's claim. The built-in group loaders never claim. 'function' claims exactly function values, keyed by the function itself. A plugin claims exactly what its `resolve` maps to a non-empty source; the key is `getRealUrl`'s result when `toUrl` was called, else the source. |
| Loaders.FirstClaimIsFirst | loader.js:640-658 | The claim is made by the first loader in visiting order whose `resolve` accepts the specifier, and no loader before it accepts. |
| Scheduler.IndexOf | loader.js:488 | `indexOf` is the first position of the element, or -1 when it is absent. |
| Scheduler.RemoveFirstCounts | loader.js:487-494 | `splice(indexOf(b), 1)` removes the first occurrence of a present branch: the list shrinks by one, no earlier element is `b`, putting `b` back at that position gives the old list, so the rest keeps its order. An absent branch changes nothing. |
| Scheduler.Register | loader.js:410-421 | `on`/`one` append one entry to one event's list of one task and change nothing else. |
| Scheduler.Unbranch | loader.js:487-494 | Only the host's branch list changes; every other field and every other task is as before. The first occurrence of the branch is taken out and the rest keeps its order. |
| Scheduler.SubscribedWatches | loader.js:465-477 | `addBranch` on a host below LOADING works as follows, also for a branch already on the list. The branch joins the host's list, unless it has already succeeded, in which case it is removed again at once. The branch's success list gains `removeBranch` unless it has succeeded. Its error list gains `terminate` unless it has already failed. |
| Scheduler.BranchFailureFailsHost | loader.js:471-476 | Failure propagation. Once a branch that had not failed is wired under a host, an 'error' emission that runs its error list (as it stands then, or extended) leaves the host FAILED. |
| Scheduler.UnfinishedMembers | loader.js:667-692 | A group's branches are the resolved tasks that had not succeeded when attached, and only those. |
| Scheduler.EvolvesTrans | loader.js:497-551 | Cascades compose: states only rise, counters and branch lists only shrink, and a listener list changes only when its event may have fired. |
| Scheduler.PendingDrops | loader.js:497-551 | Each state change strictly shrinks the set of (task, state) pairs still reachable. This is why the re-entrant cascade terminates. |
| Scheduler.Runtime.constructor | loader.js:240-341 | A fresh loader has no tasks, `_taskid` 1 and only the built-in loaders. |
| Scheduler.Runtime.Checkfor | loader.js:497-551 | A trigger whose guard fails changes nothing. Otherwise the task reaches at least the guarded target, and the transition's follow-up happens. WAITING with no outstanding dependency goes on to READY. READY runs `exec()`: a series, parallel or function task reaches LOADED unless something threw, and SUCCEEDED (or FAILED) when it has no branches, throw or not (a function body starts no nested load here). Entering LOADING starts every branch of the snapshot (unless a start threw); with no branches nothing else changes. LOADED re-checks 'success', so a task with no branches goes on to SUCCEEDED. SUCCEEDED and FAILED emit, and the event's list is rebuilt from its persistent entries. After 'error', every host whose `terminate` was on the list is FAILED. Every cascade is an `Evolves` step. |
| Scheduler.Runtime.Start | loader.js:554-557 | Starting a task that is no longer SLEEPING changes nothing. Otherwise the task reaches at least WAITING, and at least READY when no dependency is outstanding. A series, parallel or function task with no outstanding dependency is then run as `exec()` does: at least LOADED unless something threw, and SUCCEEDED (or FAILED) when it has no branches (a function body starts no nested load here). `start` on `null` throws. |
| Scheduler.Runtime.Terminate | loader.js:559-563 | The task ends FAILED. Terminating a FAILED task changes nothing and emits nothing. Otherwise 'error' is emitted: the list is rebuilt from its persistent entries, and every host whose `terminate` was on it is FAILED. |
| Scheduler.Runtime.RemoveDependence | loader.js:457-462 | The counter drops by one. A WAITING task whose last dependency succeeded becomes at least READY. Otherwise the counter is the only change. |
| Scheduler.Runtime.RemoveBranch | loader.js:487-494 | An absent branch changes nothing. Otherwise exactly one occurrence is removed. A LOADED host left without branches reaches SUCCEEDED. |
| Scheduler.Runtime.Run | loader.js:449-476 | A registered callback does its action. `removeDependence` on a WAITING task with its last dependency brings it to READY; `removeBranch` of the last branch of a LOADED host brings the host to SUCCEEDED; `terminate` leaves the host FAILED. When the action sets off no transition, the table changes by exactly that action. A user callback changes nothing. |
| Scheduler.Runtime.Fire | loader.js:432-437 | The entry's callback runs, with the effect `Run` states. A persistent entry is pushed back onto the list, and a fire-once entry is not. |
| Scheduler.Runtime.Emit | loader.js:424-441 | The callbacks registered at call time run in order: every host of a `terminate` entry that ran is FAILED afterwards. The list is then exactly the persistent entries of that batch, up to the callback that threw, if one did. |
| Scheduler.Runtime.Exec | loader.js:582-590 | A type with no loader throws and changes nothing. A READY task run by a built-in loader reaches at least LOADED unless something threw. With no branches it reaches SUCCEEDED (or FAILED), throw or not, as a function body starts no nested load here. |
| Scheduler.Runtime.RunAgent | loader.js:565-579 | The agent's `emit` calls go to `checkfor` in order until one throws. An agent that reports 'error' leaves its task FAILED. |
| Scheduler.Runtime.LoadFunction | loader.js:292-301 | A READY function task reaches LOADED, or FAILED when its body throws. With no branches, and as the body starts no nested load here, its 'load' goes on to SUCCEEDED, so it ends SUCCEEDED or FAILED. |
| Scheduler.Runtime.LoadGroup | loader.js:269-283 | A READY series or parallel task reports LOADING, which starts every branch, then LOADED. A group with no branches goes on to SUCCEEDED (or FAILED). |
| Scheduler.Runtime.On | loader.js:410-414 | Appends a persistent entry. |
| Scheduler.Runtime.One | loader.js:417-421 | Appends a fire-once entry. |
| Scheduler.Runtime.OnSuccess | loader.js:592-599 | On a SUCCEEDED task the callback runs at once. Otherwise the callback is registered with `one('success')`, FAILED included. |
| Scheduler.Runtime.OnError | loader.js:601-606 | The callback is registered with `one('error')` unless the task has failed, in which case nothing happens. |
| Scheduler.Runtime.AddDependence | loader.js:444-454 | Only a SLEEPING task counts one more dependency and has the dependency's success take it back. When the dependency has already succeeded, nothing is left changed. |
| Scheduler.Runtime.AddBranch | loader.js:465-484 | Once the host is past LOADING this is a no-op. A `null` branch is pushed and then throws. Below LOADING the result is exactly `Subscribed`. On a LOADING host the branch is also started. |
| Scheduler.Runtime.Watch | loader.js:471-476 | The two subscriptions: `onSuccess(removeBranch)` then `onError(terminate)`: with the host not past LOADING and no transition set off, the table becomes exactly `WatchError(WatchSuccess(...))`. |
| Scheduler.Runtime.NewTask | loader.js:378-404 | `new Task` takes the next uid and starts SLEEPING with no dependency, branch or listener. It is cached by uid, and nothing existing changes. |
| Scheduler.Runtime.FindOrCreate | loader.js:627-661 | A task maps to itself and a group object to its task. An array maps to a fresh parallel task; the ghost `inner` holds what each flattened member resolved to, all tasks, and the new task's branches are those of them that had not succeeded. Otherwise the first claiming loader's key and type find the registered task, or register a new one. If no loader claims the specifier the result is `null`. Every earlier lookup that reached a task still reaches it, so the result stays what `Resolves` describes. |
| Scheduler.Runtime.Lookup | loader.js:650-655 | A hit returns the registered task and changes nothing. A miss creates and indexes a new task, which the same key then finds. Every earlier lookup that reached a task still reaches it. |
| Scheduler.Runtime.EachClaim | loader.js:306-315 | The loop over `each` yields the first claim in visiting order. |
| Scheduler.Runtime.Parallel | loader.js:667-674 | A fresh SLEEPING 'parallel' task. The i-th resolved task is what `findOrCreate` gives for the i-th flattened specifier: a task itself, a group's task, or the task the first claiming loader's key finds (a new one of that type and source when the key is not a string). Its branches are those resolved tasks that had not succeeded, and nothing that existed before changes. |
| Scheduler.Runtime.Series | loader.js:680-692 | A fresh SLEEPING 'series' task. The i-th resolved task is what `findOrCreate` gives for the i-th specifier; for an array that is a parallel task whose branches are the unfinished tasks its members resolved to, and that stays so while the series is built. Its branches are the resolved tasks that had not succeeded. Each task after the first still waiting is chained to its predecessor's success. Earlier tasks change no state. |
| Scheduler.Runtime.FindHostTask | loader.js:697-703 | The newest LOADING task of type 'function', or 0 when there is none. |
| Scheduler.Runtime.Load | loader.js:730-742 | The series is built first. If a LOADING 'function' task exists, the newest one is the host, and the series is wired under it exactly as `addBranch` does (`Subscribed`) and started. Otherwise no LOADING 'function' task exists and the series is started as a root. Unless something threw, it reaches at least WAITING. A root series with no outstanding dependency is run by the built-in series loader: it reaches at least LOADED unless something threw, and SUCCEEDED when it has no branches. |
| Scheduler.Runtime.Extend | loader.js:744-747 | A rejected loader changes nothing. An admitted one is added to the items under its trimmed name and queued last. |
| Paths.ReplaceDots | loader.js:158 | The global "/./" replace: never longer, the first character kept, and a path without "/./" unchanged. |
| Paths.CollapseSlashesComplete | loader.js:166 | After the slash replace, no ordinary character is followed by two slashes. |
| Paths.CollapseUps | loader.js:170-172 | Repeating the leftmost "/segment/../" removal leaves none, never lengthens the path, and leaves a path without one unchanged. |
| Paths.FindUp | loader.js:170 | The regular expression's leftmost match, and no earlier one. |
| Paths.Realpath | loader.js:156-174 | The loop computes `Canonical`: the two replaces, then `CollapseUps`. |
| Paths.CanonicalFixes | loader.js:156-174 | A path with nothing to canonicalise is returned unchanged. |

## Left out

- DOM and environment: `getRealUrl`, `isCurrentScript`, `findCurrentScript` and `getCurrentWorkDir`. URL canonicalisation is opaque: a plugin's resolution carries the cache key it produced.
- The concrete js, css and polyfill plugins: their regular-expression `resolve` functions, their `load` bodies, and `toUrl`. A plugin is a partial map from specifier to resolution. Its `load` is the sequence of agent `emit`s the environment (`Env`) chooses.
- The script-element branch of `findHostTask`, because it needs `HTMLScriptElement` and the current script.
- Feature detection, `config`, `noConflict`, `list`, `Loader.series`/`Loader.parallel` as façade calls, and the `console.log` in `emit`.
- `add` given a factory function, which is called first. The model receives the loader object the factory would return.
- `!this._items[name]` also rejects names of `Object.prototype` properties such as "constructor". The model's `items` holds only the registered names.
- `_tasks.get` falls back to `_cache[key]` while no task of the requested type has been indexed under a string key (`_map[type]` does not exist yet). In that window a key such as "constructor" finds an inherited `Object.prototype` member instead of a task, and the caller then throws on it. The model's cache holds only tasks, so such a key finds nothing and a new task is registered. Once `put` has created `_map[type]`, `_map[type]["constructor"]` is the inherited `Object` function, `_cache[Object]` is undefined, and the source registers a new task just as the model does.
- `trim` is modelled on ASCII white space only.
- User callbacks and function bodies are opaque. A function body's only effect is the environment's choice between normal return and a throw. A `Loader.load` nested inside a running body is not modelled as re-entering from within the body.
- Scheduler.Runtime.Emit: requires the event to be one its own callbacks cannot emit again (`Quiet`: 'success' after SUCCEEDED, 'error' after FAILED). Those are the only states in which the scheduler emits. No callback in the model registers new listeners on that list during the emission.
- Scheduler.Runtime.Series: states the chaining that must still be in place ("still waiting") and not the exact dependency counters. A task that appears twice in one series is made to depend on itself, and the model keeps that as the source does.
- Scheduler.Runtime.Exec: the result for plugin loaders is left to the environment, so only the built-in loaders are promised to reach LOADED.
- Scheduler.Runtime.RunAgent: promises the `Evolves` step and the effect of an 'error' report, but nothing about other reports, because the agent's events are arbitrary.
- Scheduler.Runtime.Emit, Scheduler.Runtime.Terminate and Scheduler.Runtime.Checkfor: the rebuilt list and the failed hosts are promised when no callback threw. After a throw only the callbacks that ran are covered (`Emit`'s `fired`).
- `removeDependence`, `removeBranch` and `terminate` are never called on `null` in the source, so the model does not give them the throw that `start` on `null` has.
- A task whose dependency fails stays WAITING forever. The model shows the pieces: the dependency callback is registered on 'success' only (Scheduler.Runtime.AddDependence), and a FAILED task never succeeds (TaskState.FailedIsSticky). It does not state the global "stays WAITING" fact.
- Integer widths: uids, counters and the state codes are unbounded integers. The source's 53-bit limit is never reached in practice.
- `_loaders.each` builds a copy of the queue, pushes 'function' at its end, and loops from the end. So 'function' is tried first and the registered plugins follow, newest first. The model follows this order.
