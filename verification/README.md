# Offline-first synced store, in Dafny

This project models the core of a workout-tracking web app. The core is the
offline-first store built by `useOfflineSyncedStore`
(`src/services/utils/offlineSyncedStore.ts`). It holds three sequences:

- `remoteItems`: the last fetched snapshot;
- `localCache`: optimistic local entries;
- `pending`: a persisted FIFO of `{type, item}` operations that the remote has not accepted.

The project also models the exercise-name normaliser `clean` (`src/services/exercises.ts`).

`OfflineSyncedStore.Store` is a class with these three fields plus `isLoading`.
Its methods are the hook's operations: `Add`, `Remove`, `Update`,
`SquashPendingOperation`, `SyncPending` and the initial `Load`. Each method states
its whole new state as a function of the old one. The pure specification functions
live in `SyncedItems` (find, filter and upsert by `id`) and `PendingQueue` (the merge
rule `Squash`, the replay result `Leftovers`, the replayed calls `Dispatched`).
The lemmas beside them prove what those functions promise.

Each remote handler's result is an input (`Outcome`: `Ok` or `Err`). `fetchRemote`'s
result is a `Fetched` value. A replay takes one outcome per queued op. The outcome of
an op that has no handler (an update when `updateRemote` was not supplied) is ignored,
because the code calls nothing for it. Whether `updateRemote` was supplied is the
constant `hasUpdateRemote`. Identity is `item.id` read as a JavaScript condition: an
absent id and the empty string are both "no id" (`KeyOf`).

Where the hook's tests or its callers expect something other than what the code does,
the model follows the code:

- `items` is the plain concatenation `remoteItems ++ localCache`, with no de-duplication
  (`src/services/utils/offlineSyncedStore.ts:81`). `FailedAddsAreNotSquashed` shows an
  item listed twice.
- A successful `add` leaves the item in `localCache` and does not move it into
  `remoteItems` (`src/services/utils/offlineSyncedStore.ts:83-87`), although the test at
  `src/services/utils/offlineSyncedStore.test.ts:79` is named for that move.
- The merge rule drops a new update or remove whose id first appears in the queue as an
  add or a remove (`src/services/utils/offlineSyncedStore.ts:55-58`). So removing an item
  whose add is still queued keeps only the add, as shown by `RemoveBehindQueuedAddIsDropped`,
  although the test at `src/services/utils/offlineSyncedStore.test.ts:251`, with its comment
  at line 271, expects both operations queued. Likewise an update behind a queued add is
  dropped: `items` shows the new value, but the replay sends only the add with the old
  value, so the remote never receives the update (`UpdateBehindQueuedAddIsDropped`).
- An `update` without `updateRemote` still changes the local state and emits no warning
  (`src/services/utils/offlineSyncedStore.ts:110`), although
  `src/services/utils/offlineSyncedStore.test.ts:221` expects the warning
  "updateRemote handler not provided".
- Only `item.id` identifies an item. The hook takes no `getId` parameter
  (`src/services/utils/offlineSyncedStore.ts:13-19`), although
  `src/services/utils/offlineSyncedStore.test.ts:34` and `src/stores/exercises.ts:20` pass one.

Beyond the listed rules, the model proves one invariant of the queue, `UpdatesLead`.
It says every queued update has an id and is the first queued op with that id. The
merge rule and the replay both preserve it. So, starting from a queue that satisfies
it, such as an empty one, no id ever has two queued updates.

## Model

| member | source | states |
|---|---|---|
| SyncedItems.KeyOf | src/services/utils/offlineSyncedStore.ts:46-47 | `item.id` read as a condition: a key exactly when the id is present and not the empty string, and then the key is that id |
| SyncedItems.HasId | src/services/utils/offlineSyncedStore.ts:49 | `item.id === id`: holds only when the item carries exactly that id; for a non-empty id it agrees with the item's key |
| SyncedItems.IndexOfId | src/services/utils/offlineSyncedStore.ts:49 | `findIndex` by id: -1 exactly when no item has the id, otherwise the first position holding it |
| SyncedItems.WithoutId | src/services/utils/offlineSyncedStore.ts:92-93 | `filter` by id: keeps exactly the items without the id, as an in-order subsequence; returns the input when no item has the id |
| SyncedItems.WithoutIdLength | src/services/utils/offlineSyncedStore.ts:102 | the filter drops exactly as many entries as carry the id |
| SyncedItems.Upsert | src/services/utils/offlineSyncedStore.ts:103-108 | replaces the first entry with the item's id in place (all others unchanged), or appends when there is none; the item is in the result |
| PendingQueue.HasHandler | src/services/utils/offlineSyncedStore.ts:31-35 | the handler table: adds and removes always have a handler, an update has one exactly when `updateRemote` was supplied |
| PendingQueue.Retained | src/services/utils/offlineSyncedStore.ts:66-68 | `result?.isErr()`: a success is never kept, an add or remove is kept exactly on error, an update without a handler is never kept |
| PendingQueue.Squash | src/services/utils/offlineSyncedStore.ts:37-59 | merge rule: an add is appended; an update or remove without id is dropped; with an id no op carries it is appended; if the first op with that id is an update it is overwritten at that index, if it is an add or remove the queue is unchanged |
| PendingQueue.SquashLength | src/services/utils/offlineSyncedStore.ts:40-58 | the queue grows by one exactly for an add or an id-carrying op whose id no queued op carries; otherwise its length is unchanged |
| PendingQueue.Leftovers | src/services/utils/offlineSyncedStore.ts:61-72 | what a replay leaves queued; never longer than the queue |
| PendingQueue.Dispatched | src/services/utils/offlineSyncedStore.ts:65-66 | the handler calls of a replay: each replays a queued op that has a handler; never more calls than ops |
| PendingQueue.DispatchedPositions | src/services/utils/offlineSyncedStore.ts:65-66 | the calls replay the queued ops at strictly increasing positions, and a position is called exactly when its op has a handler: every op with a handler once, in queue order, no other |
| PendingQueue.LeftoversPositions | src/services/utils/offlineSyncedStore.ts:62-71 | the leftovers are the queued ops at strictly increasing positions, and a position is kept exactly when its op had a handler that returned an error |
| PendingQueue.DispatchedIsFilter | src/services/utils/offlineSyncedStore.ts:65-66 | the calls of a replay are the queue's replay calls filtered by which ops have a handler |
| PendingQueue.LeftoversIsFilter | src/services/utils/offlineSyncedStore.ts:62-71 | the leftovers are the queue filtered by which ops had a handler that returned an error |
| PendingQueue.LeftoversAppend | src/services/utils/offlineSyncedStore.ts:65-71 | replaying a queue in two parts leaves the concatenation of what each part leaves |
| PendingQueue.DispatchedAppend | src/services/utils/offlineSyncedStore.ts:65-66 | replaying a queue in two parts makes the calls of each part, in order |
| PendingQueue.LeftoversSubseq | src/services/utils/offlineSyncedStore.ts:62-71 | the leftovers are an in-order subsequence of the queue snapshot |
| PendingQueue.LeftoversMembers | src/services/utils/offlineSyncedStore.ts:65-68 | an op is left over exactly when a queued copy of it had a handler that returned an error |
| PendingQueue.LeftoversAllOk | src/services/utils/offlineSyncedStore.ts:66-68 | when every handler succeeds the queue is emptied |
| PendingQueue.LeftoversAllErr | src/services/utils/offlineSyncedStore.ts:66-68 | when every op has a handler and every handler fails the queue is unchanged |
| PendingQueue.ReplayEmptyIsNoOp | src/services/utils/offlineSyncedStore.ts:61-72 | replaying an empty queue calls no handler and leaves it empty |
| PendingQueue.AtMostOneUpdatePerId | src/services/utils/offlineSyncedStore.ts:49-58 | while every queued update leads its id, no id has two queued updates |
| PendingQueue.SquashKeepsUpdatesLead | src/services/utils/offlineSyncedStore.ts:37-59 | the merge rule preserves "every queued update has an id and is the first op with it" |
| PendingQueue.SubseqKeepsUpdatesLead | src/services/utils/offlineSyncedStore.ts:71 | dropping ops from the queue preserves that invariant |
| PendingQueue.LeftoversKeepUpdatesLead | src/services/utils/offlineSyncedStore.ts:61-72 | a replay preserves that invariant |
| OfflineSyncedStore.Store.Items | src/services/utils/offlineSyncedStore.ts:81 | `items` has length `|remoteItems| + |localCache|`, holds every entry of both and nothing else |
| OfflineSyncedStore.Store.constructor | src/services/utils/offlineSyncedStore.ts:28-29 | before loading: empty snapshot and cache, the persisted queue, `isLoading` true |
| OfflineSyncedStore.Store.SquashPendingOperation | src/services/utils/offlineSyncedStore.ts:37-59 | the queue becomes `Squash` of the old queue; the update invariant is preserved |
| OfflineSyncedStore.Store.SyncPending | src/services/utils/offlineSyncedStore.ts:61-72 | the queue becomes the in-order leftovers of its snapshot; returns the handler calls in queue order; the update invariant is preserved |
| OfflineSyncedStore.Store.Load | src/services/utils/offlineSyncedStore.ts:74-79 | replays the queue, then makes one fetch (the trace ends with the single fetch); the snapshot is the fetched list, or empty on a fetch error; `isLoading` becomes false |
| OfflineSyncedStore.Store.Add | src/services/utils/offlineSyncedStore.ts:83-87 | appends the item to `localCache` and to `items`; `remoteItems` unchanged; on error exactly one add is appended to the queue, on success the queue is unchanged |
| OfflineSyncedStore.Store.Remove | src/services/utils/offlineSyncedStore.ts:89-97 | without an id nothing changes; with one no entry of `items` keeps that id, others keep their order, and a failed call queues a remove by the merge rule |
| OfflineSyncedStore.Store.Update | src/services/utils/offlineSyncedStore.ts:99-112 | without an id nothing changes; with one the id leaves `remoteItems`, the item is upserted into `localCache` and is in `items`; an update is queued only when `updateRemote` exists and fails |
| Exercises.IsWs | src/services/exercises.ts:6 | the white space of `trim()` and `\s`: space, tab, line feed, vertical tab, form feed and carriage return are white space; no other printable ASCII character is |
| Exercises.TrimStart | src/services/exercises.ts:6 | drops exactly the leading white space: a suffix, the removed prefix all white space, the result not starting with white space |
| Exercises.TrimEnd | src/services/exercises.ts:6 | drops exactly the trailing white space: a prefix, the removed suffix all white space, the result not ending with white space |
| Exercises.Trim | src/services/exercises.ts:6 | `trim()`: no longer than the input, neither starting nor ending with white space, and keeping every non-white-space character in order |
| Exercises.TrimSplit | src/services/exercises.ts:6 | a string holding a word is its leading white-space run, then its trimmed form, then its trailing white-space run |
| Exercises.Collapse | src/services/exercises.ts:6 | the result has no white space but single spaces, never two in a row; it is empty exactly for empty input and keeps whether the first and last characters are white space |
| Exercises.Clean | src/services/exercises.ts:6 | `clean`: no longer than the input, no leading or trailing white space, no two adjacent white-space characters, every white-space character a space |
| Exercises.NonWsAppend | src/services/exercises.ts:6 | filtering out white space distributes over concatenation |
| Exercises.NonWsEmpty | src/services/exercises.ts:6 | a string has no non-white-space character exactly when it is all white space |
| Exercises.TrimStartKeepsNonWs | src/services/exercises.ts:6 | trimming the front keeps every non-white-space character in order |
| Exercises.TrimEndKeepsNonWs | src/services/exercises.ts:6 | trimming the back keeps every non-white-space character in order |
| Exercises.CollapseKeepsNonWs | src/services/exercises.ts:6 | collapsing white-space runs keeps every non-white-space character in order |
| Exercises.CleanKeepsNonWs | src/services/exercises.ts:6-8 | the non-white-space characters of a name appear in its cleaned form unchanged and in the same order |
| Exercises.CleanEmpty | src/services/exercises.ts:6 | `clean` yields `""` exactly for an empty or all-white-space input |
| Exercises.CollapseSingleSpaced | src/services/exercises.ts:6 | a string already single-spaced is its own collapse |
| Exercises.CleanIdempotent | src/services/exercises.ts:6-8 | `clean(clean(s)) == clean(s)` |
| Exercises.TrimStartOverWs | src/services/exercises.ts:6 | a white-space run in front of a word is exactly what `TrimStart` removes |
| Exercises.TrimEndOverWs | src/services/exercises.ts:6 | a white-space run behind a word is exactly what `TrimEnd` removes |
| Exercises.TrimStartAppend | src/services/exercises.ts:6 | trimming the front of `x + y` stops inside `x` once `x` holds a non-white-space character |
| Exercises.TrimEndAppend | src/services/exercises.ts:6 | trimming the back of `x + y` stops inside `y` once `y` holds a non-white-space character |
| Exercises.CollapseRun | src/services/exercises.ts:6 | a whole white-space run in front of a word becomes exactly one space |
| Exercises.CollapseAppend | src/services/exercises.ts:6 | no white-space run crosses the end of a string ending with a word, so the two sides collapse separately |
| Exercises.CollapseJoin | src/services/exercises.ts:6 | two words separated by a white-space run collapse to their collapses joined by exactly one space |
| Exercises.TrimJoin | src/services/exercises.ts:6 | trimming two words with white space between them trims each word and keeps one white-space run between them |
| Exercises.CleanJoin | src/services/exercises.ts:6 | `clean(a + w + b) == clean(a) + " " + clean(b)` for words `a`, `b` and any white-space run `w`: a run between words becomes one space and is never deleted |
| Exercises.CleanWithoutWs | src/services/exercises.ts:6 | a name without white space is unchanged by `clean` |

## Left out

- Vue reactivity and persistence: `ref`, `computed`, `useAsyncState` and `useLocalStorage`. The queue is a plain field, and writing it to `localStorage` is modelled as assignment.
- Interleaving: each operation runs atomically. An `add`, `update` or `remove` that runs while a replay is in flight is not modelled. The code would lose an op queued during the drain when it assigns `leftovers` to `pending`.
- Promise rejections from handlers. Only `isErr()` results are modelled, and a rejection would propagate out of the code.
- The `key` namespace: it only names the `localStorage` entry of the queue. The hook has no online flag or connectivity listener, and it returns only `items`, `isLoading`, `add`, `remove` and `update`.
- The warning "updateRemote handler not provided": the code logs nothing.
- The arguments of the handler calls made by `add`, `remove` and `update`: they are always the item itself. Only their outcome is modelled.
- Exercises.IsWs: the Unicode "Zs" category is fixed to its current members. JavaScript strings are UTF-16 code units, while the model uses Unicode scalar values. No white-space character lies outside the Basic Multilingual Plane, so this changes nothing except for lone surrogates, which the model cannot represent.
- The spreadsheet load, add and delete functions of `src/services/exercises.ts`, and the zod schema around `clean`: they are I/O and library calls.
- The leveling maths (floating point and local-timezone dates), Google Sheets and Drive I/O, OAuth, the AI chat store, routing, app bootstrap, unit formatting and zod parsing: none of these drives the store's logic.
