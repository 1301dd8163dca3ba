# Visual Website Optimizer integration: exposure dedup and reporting

A Dafny model of the core of the Visual Website Optimizer (VWO) integration
for analytics.js, `lib/index.js`. The integration reports which A/B-test
experiments a visitor has been bucketed into, on two channels:

- **replay**: one `identify` call whose traits map `'Experiment: ' + id` to
  the variation name;
- **listen**: one `'Experiment Viewed'` track call per experiment.

In single-page-application (SPA) mode, `findExperiments` deduplicates
exposures across virtual page views with one cache per channel. It returns
every experiment key not yet cached on the channel. It caches only the keys
whose record is ready and has a chosen combination. Outside SPA mode it
passes the vendor's `_vwo_exp_ids` list through.

The model is functional. The module-level variables `replayCache`,
`listenCache` and `spaMode` form one immutable `Session` record. The vendor
globals `_vwo_exp`, `_vwo_exp_ids` and `_vis_debug` are one `Window` snapshot
taken as input. Every pass is a pure function from session and snapshot to
a new session plus the analytics calls it makes. Those calls are records
(`Identify`, `Track`). A JavaScript `TypeError` is a `Failure` result.

Modules:

- `Wrappers` holds `Option` and `Result`.
- `Seqs` holds `Distinct`.
- `Vendor` holds the snapshot types and JavaScript truthiness.
- `Collector` holds `findExperiments`.
- `Resolver` holds `variation`.
- `JsObject` models plain-object property order and assignment.
- `Reporters` holds `experiments`/`replay` and `rootExperiments`/`roots`.
- `Lifecycle` holds `initialize`/`page` scheduling.
- `Scenarios` holds the properties that span several passes, and the worked example.

Four behaviours of the code are easy to get wrong, and the model keeps them
as the code has them:

- **Empty identify is sent.** The replay reporter calls `identify({})`
  whenever the collected id list is defined, even when no id resolved to a
  name, because `{}` is truthy (`Reporters.Replay`,
  `Scenarios.BlueButtonReplay`).
- **Missing table throws.** In SPA mode, a missing `_vwo_exp` makes
  `Object.keys(undefined)` throw instead of giving an empty list
  (`Collector.Collect`).
- **Unknown id throws.** `variation` throws when it reads
  `combination_chosen` of an id that has no record (`Resolver.Variation`).
  This can only happen outside SPA mode, where the ids come from
  `_vwo_exp_ids`.
- **Preview still caches.** The preview flag `_vis_debug` stops resolution
  but not caching. A settled experiment seen during preview is cached and
  never reported (`Scenarios.PreviewSwallowsExposure`).

## Model

| member | source | states |
|---|---|---|
| Vendor.Find | lib/index.js:258 | The lookup `experiments[id]` finds a record exactly when the id is one of the table's keys, and the record it returns is that key's. |
| Vendor.FindEntry | lib/index.js:35-37 | For every key that `Object.keys` enumerates, the record the loop reads is the entry stored under that key. |
| Collector.Unseen | lib/index.js:35-36 | Reference filter: an id is kept exactly when it is a key and not in the cache, with no duplicates when the keys have none. |
| Collector.Admitted | lib/index.js:36-41 | Reference filter: the ids to cache are never already cached, and there are at most as many as there are entries. |
| Collector.AdmittedSound | lib/index.js:36-39 | Every id admitted to the cache belongs to an entry that is ready with a truthy chosen combination. |
| Collector.AdmittedComplete | lib/index.js:36-39 | Every uncached entry that is ready with a truthy chosen combination has its id admitted. |
| Collector.AdmittedDistinct | lib/index.js:36-39 | On a table with distinct keys, the admitted ids are distinct, so `pushIt` never pushes an id twice in one pass. |
| Collector.AdmittedMembers | lib/index.js:36-39 | On a table, an id is admitted exactly when it is uncached and its record is ready with a truthy `combination_chosen`. |
| Collector.SweepFilters | lib/index.js:35-45 | The `forEach` loop returns exactly the unseen keys in key order. It appends exactly the admitted ones to the cache. Pushing inside the loop never hides a later key. |
| Collector.Collect | lib/index.js:14-53 | Outside SPA mode: `_vwo_exp_ids` verbatim, no cache change. In SPA mode: a missing table throws. Otherwise the result is exactly the uncached keys, in key order, each once. The channel's cache gains exactly the returned keys with ready records and a truthy chosen combination, and keeps its old entries first and duplicate-free. The other channel's cache and the SPA flag are unchanged. |
| Resolver.Variation | lib/index.js:255-266 | With no table: `null`. With a table and an unknown id: throws. It returns `comb_n[combination_chosen]` exactly when the record is ready, `_vis_debug` is falsy and `combination_chosen` is truthy. Otherwise it returns `null`. |
| Resolver.Display | lib/index.js:206-207 | The name a reporter uses is defined exactly when `variation` succeeds with a non-empty name, and it is that name. Such an experiment is reportable, so not previewed. |
| JsObject.Assign | lib/index.js:207 | `data[k] = v`: afterwards `data[k]` is `v` and every other property reads as before. An existing key keeps its position, a new key goes last, and keys stay distinct. |
| Reporters.TraitKeyInjective | lib/index.js:229 | Distinct experiment ids give distinct `'Experiment: ' + id` trait names. |
| Reporters.Gather | lib/index.js:202-209 | The `each` loop throws exactly when some id is unknown. Otherwise the object holds, under the id's property name, the name of every id that resolves to a truthy name, and nothing else. |
| Reporters.Replay | lib/index.js:142-148 | The replay pass keeps the collector's new session. It throws exactly when collection throws or a collected id is unknown. It skips identify only when the collected list is undefined. Otherwise it identifies with a trait `'Experiment: ' + id` for exactly the collected ids with a truthy name, valued by that name, even when no id resolved. |
| Reporters.TracksViewOnce | lib/index.js:159-169 | Tracking an object keyed by experiment id views every displayable collected id exactly once, with its resolved name, and nothing else. |
| Reporters.Roots | lib/index.js:156-171 | The listen pass keeps the collector's new session and throws exactly when collection throws or a collected id is unknown. It sends nothing when the list is undefined. Otherwise it sends one `'Experiment Viewed'` track per collected id with a truthy name and none for the others. |
| Lifecycle.Schedule | lib/index.js:102-112 | The replay reporter is scheduled exactly when `replay` is set, and the roots reporter exactly when `listen` is set. Each is scheduled at most once, replay first. |
| Lifecycle.Initialize | lib/index.js:98-112 | `spaMode` becomes `isSpa`, the caches are untouched, and replay and roots are scheduled exactly as the options enable them. |
| Lifecycle.Page | lib/index.js:173-189 | A page call schedules nothing outside SPA mode. In SPA mode it schedules what `initialize` schedules: replay exactly when `replay` is set and roots exactly when `listen` is set, in that order, each once. |
| Lifecycle.DefaultsReplayOnly | lib/index.js:69-71 | With the declared defaults (replay on, listen off, SPA off), page load schedules only the replay reporter, and later page calls schedule nothing. |
| Lifecycle.PageRepeatsInitialize | lib/index.js:173-189 | After `initialize`, `page` schedules the same reporters in SPA mode and none otherwise. |
| Lifecycle.Perform | lib/index.js:103-111 | A reporter only grows caches and keeps them duplicate-free. Outside SPA mode it leaves the session alone. Replay makes at most one identify call, and roots makes only track calls. |
| Lifecycle.Run | lib/index.js:102-112 | Running the scheduled reporters only grows the caches, keeps the SPA flag and keeps caches duplicate-free. Outside SPA mode it changes nothing. |
| Scenarios.Pass | lib/index.js:14-53 | One SPA pass on a channel: a pass that throws returns nothing and keeps the session, a missing table throws. Otherwise it returns exactly the unseen keys and the channel's cache gains exactly the admitted ones. The other channel's cache and SPA mode are kept. |
| Scenarios.Passes | lib/index.js:14-53 | Over successive SPA passes on one channel, including passes that throw, the cache only grows, the other channel's cache is untouched, and SPA mode stays on. |
| Scenarios.SettledIsCached | lib/index.js:36-39 | After an SPA pass, a returned id whose record was ready with a truthy chosen combination is in that channel's cache. |
| Scenarios.CachedNeverReturned | lib/index.js:35-36 | Once an id is in a channel's cache, no later pass on that channel returns it, whatever the snapshots hold, including snapshots that make the pass throw. |
| Scenarios.SettledReportedOnce | lib/index.js:36-43 | An id returned by a pass in which its record is ready with a chosen combination is never returned again on that channel. |
| Scenarios.UnsettledStaysUncached | lib/index.js:36-43 | A pass returns an uncached key whose record is not settled, and leaves it uncached. |
| Scenarios.UnsettledReturnedEveryPass | lib/index.js:36-43 | A key whose record is not settled stays uncached and is returned by every pass over an unchanged snapshot. |
| Scenarios.ChannelsIndependent | lib/index.js:21-32 | A pass on one channel does not change whether the next pass on the other channel throws, or what it returns. |
| Scenarios.PreviewSwallowsExposure | lib/index.js:37 | During preview, a settled experiment is cached on the replay channel. The identify call has no trait for it, and no later replay pass collects it. |
| Scenarios.TrackedIsCached | lib/index.js:36-39 | An id the listen reporter tracks is in the listen cache afterwards. |
| Scenarios.CachedNotTracked | lib/index.js:35-36 | The listen reporter never tracks an id already in the listen cache. |
| Scenarios.NeverTrackedTwice | lib/index.js:156-171 | Once the listen reporter has tracked an id, no later listen pass, from any session whose listen cache extends the one it left, tracks that id again. |
| Scenarios.TraitIsCached | lib/index.js:36-39 | An id the replay reporter gives a trait to is in the replay cache afterwards. |
| Scenarios.NeverTraitTwice | lib/index.js:142-148 | Once the replay reporter has sent a trait for an id, no later replay pass, from any session whose replay cache extends the one it left, sends that trait again. |
| Scenarios.BlueButtonCollect | lib/index.js:35-45 | Example: from empty caches in SPA mode, the first pass returns and caches "7". The second pass returns nothing. |
| Scenarios.BlueButtonResolves | lib/index.js:255-266 | Example: experiment 7 resolves to "Blue Button". |
| Scenarios.BlueButtonReplay | lib/index.js:222-233 | Example: the first replay pass identifies `{'Experiment: 7': 'Blue Button'}`. The second identifies `{}`. |
| Scenarios.BlueButtonListen | lib/index.js:200-211 | Example: two listen passes send exactly one `'Experiment Viewed'` track for 7 with "Blue Button". |

## Left out

- The asynchronous SmartCode snippet and the `accountId`, tolerance and jQuery options (lib/index.js:87-97) are left out. They inject a script, manipulate the DOM, and use timers and `Math.random`, which is I/O.
- `tick`, `enqueue` and `_vis_opt_queue` are left out: they are event-loop scheduling. A scheduled reporter is a `Task`, and running it is one atomic step on a snapshot. `Lifecycle.Run` gives every task the same snapshot. The vendor may change its globals between ticks.
- Exceptions thrown inside a queued callback are modelled as a `Failure` that emits nothing. A later task still runs. What the vendor's queue does with the exception is not part of this model.
- `self.ready()`, the analytics client and `component-each` are left out because they are foreign calls. `identify` and `track` are returned as `Call` records.
- `orderCompleted` is left out: it forwards floating-point revenue to a vendor global.
- JavaScript enumerates integer-like keys (such as `"7"`) before other keys, in ascending order. The model enumerates every key in insertion order.
- Reporters.Roots: states which track calls are sent, but not their order, because the source's order is JavaScript's key order, which is not modelled.
- Reporters.Replay: states which traits the identify call carries, not their property order, for the same reason.
- Every `_vwo_exp` value is modelled as an object with a `comb_n` table. A `null` record makes `experiments[key].ready` throw at lib/index.js:37 after earlier keys were already pushed to the cache. A record without `comb_n` makes `variation` throw at lib/index.js:263 after its id was cached, so the exposure is lost. Neither error path is represented.
- JavaScript truthiness is reduced to `Option<string>`: `None` stands for every falsy non-string, and `""` is falsy. `ready` is a boolean.
