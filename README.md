# WearNetworkObserver request bookkeeping, in Dafny

`WearNetworkObserver` is the Wear OS network factory that watches the network
requests apps file with the connectivity service. It sorts each request into
four categories and keeps one tracker per category, keyed by request id:

- Unmetered: the request has the NOT_METERED capability.
- HighBandwidth: the requested downstream bandwidth is strictly above 200 * 1024 kbps.
- Wifi: the request asks for the WIFI transport.
- Cellular: the request asks for the CELLULAR transport.

Each time a tracker changes, the observer tells its listener the tracker's new size.
The diagnostic dump prints each tracker's size and the requests it holds.

The project has four modules.

- `Requests` (`requests.dfy`) holds the request as classification sees it, the
  four categories with their fixed order, the bandwidth threshold and the
  classification predicate `Matches`.
- `Trackers` (`trackers.dfy`) specifies the handlers as pure functions.
  - `Admit` is one category's block of the add handler.
  - `Evict` is one category's block of the remove handler.
  - `Add` and `Remove` are the whole handlers.
  - `Reports` and `LastReported` read the notification log.
  - The lemmas prove what one add or remove does. It touches the right entries, leaves every other entry alone, reports the tracker's new size, and notifies in the fixed category order. They also prove idempotence, that remove undoes add, and that the handlers preserve the invariants.
- `History` (`history.dfy`) replays any sequence of add and remove events.
  - `Admission` is a reference definition, written without the trackers, of which request each tracker holds for an id. `RunFollowsAdmission` ties the replay to it.
  - `RunKeepsReported` proves that every tracker's size is always the count last reported for its category.
  - Four scenario lemmas fix concrete runs.
- `Observer` (`observer.dfy`) holds the class `WearNetworkObserver`.
  - Its four map fields are updated in place by `HandleAddRequest` and `HandleRemoveRequest`. A `notifications` field records every listener callback, oldest first.
  - The read-only `Dump` lists each tracker's size and entries.
  - Each handler is proved to produce exactly the trackers and notifications of the pure `Add`/`Remove`. It also keeps the class invariant `Valid`: entries are keyed by their own id, entries match their category, and each size is the count last reported.

A Java `SparseArray` becomes a `map<int, Request>`:

- `get(id) == null` is `id !in t`;
- `put` is map update;
- `remove` is map removal.

Only non-null requests are ever stored. A listener call `onXRequestsChanged(n)` is `Notification(X, n)` appended to the log.

The handlers test and notify Unmetered first, then HighBandwidth, Wifi and
Cellular (`WearNetworkObserver.java:54-59` before `:61-66`, `:68-72` and `:74-78`).

## Model

| member | source | states |
|---|---|---|
| Requests.HighBandwidthIsStrict | sources/android-29/com/android/clockwork/connectivity/WearNetworkObserver.java:61-63 | HighBandwidth uses the strict comparison with 200 * 1024: a request at exactly 204800 kbps is not admitted, one at 204801 is |
| Requests.CategoryOrderIsComplete | sources/android-29/com/android/clockwork/connectivity/WearNetworkObserver.java:54-78 | `CategoryOrder` lists the four categories once each, each at the position of its rank. The rank is the order the handlers test them in, which `AddInOrder` and `RemoveInOrder` state about the notifications |
| Requests.Matches | sources/android-29/com/android/clockwork/connectivity/WearNetworkObserver.java:54-75 | the classification tests of the four add blocks: NOT_METERED (:55-56), downstream bandwidth strictly above `HIGH_BANDWIDTH_KBPS` (:62-63), the WIFI transport (:69) and the CELLULAR transport (:75). `HighBandwidthIsStrict` pins the bandwidth boundary |
| Trackers.Empty | sources/android-29/com/android/clockwork/connectivity/WearNetworkObserver.java:37-40 | every tracker starts with no entries |
| Trackers.Admit | sources/android-29/com/android/clockwork/connectivity/WearNetworkObserver.java:54-59 | one category's add block: if the id is absent and the request matches, store it and notify the new size. Otherwise change nothing and send nothing. `AdmitAdmits`, `ReportsOfStep` and `AdmitKeepsValid` state its contract |
| Trackers.Add | sources/android-29/com/android/clockwork/connectivity/WearNetworkObserver.java:50-86 | the add handler: the four add blocks in the order Unmetered, HighBandwidth, Wifi, Cellular, each on its own tracker, with their notifications concatenated. `AddAdmits`, `AddReports`, `AddInOrder`, `AddIsIdempotent`, `AddKeepsWellFormed` and `AddKeepsReported` state its contract |
| Trackers.Evict | sources/android-29/com/android/clockwork/connectivity/WearNetworkObserver.java:92-96 | one category's remove block: if the tracker holds the id, drop it and notify the new size. Otherwise change nothing and send nothing. `EvictDeletes`, `ReportsOfEvict` and `EvictKeepsValid` state its contract |
| Trackers.Remove | sources/android-29/com/android/clockwork/connectivity/WearNetworkObserver.java:89-122 | the remove handler: the four remove blocks in the fixed order, consulting only the request's id. `RemoveDeletes`, `RemoveReports`, `RemoveInOrder`, `RemoveUnknownIsNoOp`, `RemoveIgnoresCapabilities`, `RemoveUndoesAdd` and the two preservation lemmas state its contract |
| Trackers.AdmitKeepsValid | sources/android-29/com/android/clockwork/connectivity/WearNetworkObserver.java:54-59 | one add block keeps every entry under its own id and matching its category, and keeps each tracker's size equal to the count last reported for it |
| Trackers.EvictKeepsValid | sources/android-29/com/android/clockwork/connectivity/WearNetworkObserver.java:92-96 | one remove block keeps every entry under its own id and matching its category, and keeps each tracker's size equal to the count last reported for it |
| Trackers.AdmitAdmits | sources/android-29/com/android/clockwork/connectivity/WearNetworkObserver.java:54-59 | one category's add block stores r under its id iff the id is absent and r matches. An entry already there keeps its request, other ids are untouched, and the size grows by one exactly when r is stored |
| Trackers.ReportsOfStep | sources/android-29/com/android/clockwork/connectivity/WearNetworkObserver.java:57-58 | one category's add block notifies only its own category, once, with the new size, and only when it stores r |
| Trackers.AddAdmits | sources/android-29/com/android/clockwork/connectivity/WearNetworkObserver.java:54-78 | after an add, r's id is in c's tracker iff it was there already or r matches c. A stored request is never replaced, a newly admitted id maps to r, every other id's entry is unchanged, and the size grows by one iff r was admitted |
| Trackers.AddReports | sources/android-29/com/android/clockwork/connectivity/WearNetworkObserver.java:54-78 | an add reports category c exactly once, with the old size plus one, iff it admits r there, and otherwise not at all |
| Trackers.AddInOrder | sources/android-29/com/android/clockwork/connectivity/WearNetworkObserver.java:54-78 | an add sends at most four notifications, no category twice, in the order Unmetered, HighBandwidth, Wifi, Cellular |
| Trackers.AddIsIdempotent | sources/android-29/com/android/clockwork/connectivity/WearNetworkObserver.java:54-78 | adding the same request a second time leaves all four trackers as they are and sends nothing |
| Trackers.AddKeepsWellFormed | sources/android-29/com/android/clockwork/connectivity/WearNetworkObserver.java:54-78 | if every entry is stored under its own id and matches its tracker's category, that still holds after an add |
| Trackers.AddKeepsReported | sources/android-29/com/android/clockwork/connectivity/WearNetworkObserver.java:54-78 | if each tracker's size equals the count last reported for it, that still holds after an add and its notifications |
| Trackers.EvictDeletes | sources/android-29/com/android/clockwork/connectivity/WearNetworkObserver.java:92-96 | one category's remove block leaves the tracker minus the id, one entry smaller when it held the id |
| Trackers.ReportsOfEvict | sources/android-29/com/android/clockwork/connectivity/WearNetworkObserver.java:93-96 | one category's remove block notifies only its own category, once, with the size minus one, and only when the tracker held the id |
| Trackers.RemoveDeletes | sources/android-29/com/android/clockwork/connectivity/WearNetworkObserver.java:92-114 | after a remove, every tracker is its old contents minus the id. The id is in none of them, and each tracker that held it has one entry fewer |
| Trackers.RemoveReports | sources/android-29/com/android/clockwork/connectivity/WearNetworkObserver.java:92-114 | a remove reports category c exactly once, with the old size minus one, iff c's tracker held the id, and otherwise not at all |
| Trackers.RemoveInOrder | sources/android-29/com/android/clockwork/connectivity/WearNetworkObserver.java:92-114 | a remove sends at most four notifications, no category twice, in the order Unmetered, HighBandwidth, Wifi, Cellular |
| Trackers.RemoveUnknownIsNoOp | sources/android-29/com/android/clockwork/connectivity/WearNetworkObserver.java:92-114 | removing an id that no tracker holds leaves all four trackers unchanged and sends nothing |
| Trackers.RemoveIgnoresCapabilities | sources/android-29/com/android/clockwork/connectivity/WearNetworkObserver.java:89-114 | two requests with the same id remove the same entries and send the same notifications, whatever their capabilities |
| Trackers.RemoveKeepsWellFormed | sources/android-29/com/android/clockwork/connectivity/WearNetworkObserver.java:92-114 | a remove keeps every entry stored under its own id and matching its category |
| Trackers.RemoveKeepsReported | sources/android-29/com/android/clockwork/connectivity/WearNetworkObserver.java:92-114 | if each tracker's size equals the count last reported for it, that still holds after a remove and its notifications |
| Trackers.RemoveUndoesAdd | sources/android-29/com/android/clockwork/connectivity/WearNetworkObserver.java:50-122 | adding a request whose id no tracker holds, then removing any request with that id, restores all four trackers |
| History.AddLookup | sources/android-29/com/android/clockwork/connectivity/WearNetworkObserver.java:54-78 | after an add, looking up an id in c's tracker gives r if the add admitted r under that id, and otherwise what it gave before |
| History.RemoveLookup | sources/android-29/com/android/clockwork/connectivity/WearNetworkObserver.java:92-114 | after a remove, looking up the removed id finds nothing, and every other id finds what it found before |
| History.RunFollowsAdmission | sources/android-29/com/android/clockwork/connectivity/WearNetworkObserver.java:50-122 | from empty trackers, after any events, c's tracker holds for an id exactly the first request with that id that matched c since that id's last remove, or nothing |
| History.ApplyKeepsReported | sources/android-29/com/android/clockwork/connectivity/WearNetworkObserver.java:50-122 | one add or remove event keeps each tracker's size equal to the count last reported for it |
| History.RunKeepsReported | sources/android-29/com/android/clockwork/connectivity/WearNetworkObserver.java:50-122 | a sequence of adds and removes keeps each tracker's size equal to the count last reported for it |
| History.SizesAreLastReported | sources/android-29/com/android/clockwork/connectivity/WearNetworkObserver.java:50-122 | from empty trackers, after any events, each tracker's size is the count last reported for its category, or 0 if none was reported |
| History.RunKeepsWellFormed | sources/android-29/com/android/clockwork/connectivity/WearNetworkObserver.java:50-122 | a sequence of adds and removes keeps every entry stored under its own id and matching its category |
| History.DuplicateAddIsNoOp | sources/android-29/com/android/clockwork/connectivity/WearNetworkObserver.java:54-78 | delivering the same add twice gives the same trackers and the same notifications as delivering it once |
| History.ScenarioUnmeteredWifi | sources/android-29/com/android/clockwork/connectivity/WearNetworkObserver.java:54-72 | adding an unmetered wifi request to empty trackers reports Unmetered 1, then Wifi 1 |
| History.ScenarioBandwidth | sources/android-29/com/android/clockwork/connectivity/WearNetworkObserver.java:61-66 | adding a request for 300 * 1024 kbps reports HighBandwidth 1. One for exactly 200 * 1024 kbps reports nothing |
| History.ScenarioDuplicateCellular | sources/android-29/com/android/clockwork/connectivity/WearNetworkObserver.java:74-78 | adding the same cellular request twice reports Cellular 1 once, and the Cellular tracker holds one entry |
| History.ScenarioAddThenRemove | sources/android-29/com/android/clockwork/connectivity/WearNetworkObserver.java:50-122 | adding a wifi and cellular request, then removing it, reports Wifi 1, Cellular 1, Wifi 0, Cellular 0 and leaves every tracker empty |
| Observer.ListTracker | sources/android-29/com/android/clockwork/connectivity/WearNetworkObserver.java:145-153 | the walk over a tracker lists exactly its entries, each once, and no others |
| Observer.WearNetworkObserver.constructor | sources/android-29/com/android/clockwork/connectivity/WearNetworkObserver.java:37-47 | a new observer has four empty trackers, has made no listener call, and satisfies the invariant |
| Observer.WearNetworkObserver.AdmitTo | sources/android-29/com/android/clockwork/connectivity/WearNetworkObserver.java:54-59 | from a valid observer, one add block updates only c's field as Admit says, appends exactly Admit's notification and keeps the invariant `Valid` |
| Observer.WearNetworkObserver.EvictFrom | sources/android-29/com/android/clockwork/connectivity/WearNetworkObserver.java:92-96 | from a valid observer, one remove block updates only c's field as Evict says, appends exactly Evict's notification and keeps the invariant `Valid` |
| Observer.WearNetworkObserver.HandleAddRequest | sources/android-29/com/android/clockwork/connectivity/WearNetworkObserver.java:50-86 | the in-place add leaves the four fields equal to Add's trackers, appends exactly Add's notifications and keeps the invariant |
| Observer.WearNetworkObserver.HandleRemoveRequest | sources/android-29/com/android/clockwork/connectivity/WearNetworkObserver.java:89-122 | the in-place remove leaves the four fields equal to Remove's trackers, appends exactly Remove's notifications and keeps the invariant |
| Observer.WearNetworkObserver.DumpSection | sources/android-29/com/android/clockwork/connectivity/WearNetworkObserver.java:136-153 | one category's part of the dump shows the tracker's size, which equals the count last reported, and lists exactly its entries. It changes nothing |
| Observer.WearNetworkObserver.Dump | sources/android-29/com/android/clockwork/connectivity/WearNetworkObserver.java:134-191 | the dump has one section per category in the fixed order. Each shows its tracker's size, which is the count last reported, and lists exactly its entries. It modifies no field |

## Left out

- The `NetworkFactory` base class, the `Looper` and `Context` given to its constructor, and registration with the connectivity service. This is framework plumbing outside the bookkeeping.
- The `score` parameter of `handleAddRequest`. The method never reads it.
- `DebugAssert.isMainThread()`. The model is sequential, so there is a single writer by construction.
- `verboseLog`, `Log.isLoggable` and the `String.format` log lines. These are I/O that do not affect state.
- The printed text of `dump`: `IndentingPrintWriter`, the headings and `NetworkRequest.toString()`. `Dump` returns the sizes and entries it would print instead.
- The null-guard in `dump`'s loops. It covers entries removed by another thread mid-iteration, which cannot happen in a sequential model.
- Observer.ListTracker: `SparseArray` keeps its keys sorted, so `dump` prints entries in ascending id order. The model lists them in an unspecified order, each exactly once.
- The listener is a log field rather than a callback object. What a listener does with the counts is not part of this model.
- `NetworkRequest` and `NetworkCapabilities` are reduced to the id, the NOT_METERED capability, the WIFI and CELLULAR transports and the downstream bandwidth. No other field is read by the bookkeeping.
- Java's 32-bit `int` for ids, bandwidths and sizes is not modelled. Ids and bandwidths are only compared, and a size cannot exceed the number of distinct ids.
