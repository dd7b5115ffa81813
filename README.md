# Sunrise launcher: catalogue store and manifest watchers in Dafny

This project models the sequential core of the Sunrise launcher. The launcher keeps a catalogue of installable applications, runtimes and servers. It builds the catalogue from manifests that it fetches from remote urls and polls for changes.

- **Store** (`state.py`) is modelled in `catalogue.dfy`, `running.dfy` and `state.dfy`.
  - `loadManifest` merges an already-parsed manifest into the `applications`, `runtimes` and `servers` dictionaries. The latest manifest wins for a shared id.
  - It then gives every application and runtime id that lacks an entry a default container-settings entry.
  - For a manifest whose source is not the local snapshot `local://manifests.xml`, it records the url's name and pushes the url onto the manifest list.
  - `resolveDownload` follows `runtime` references and returns the install chain: deepest runtime first, requested item last, and `[]` for an unknown id.
  - `addRunning` and `removeRunning` maintain the list of running ids. `removeRunning` fails like Python's `list.remove` when the id is absent.
  - `getTools` and `getClients` filter the applications by type.
- **Watcher** and **WatcherPool** (`watcher.py`) are modelled in `watcher.dfy`.
  - A watcher stores the digest of the last content it fetched. A poll emits `(url, text)` only when a successful fetch has a new digest.
  - `stop(u)` only stops the watcher whose url is `u`. `shutdown` stops any watcher's timer.
  - The pool maps urls to live watchers and keeps a graveyard of retired ones. Every watcher it ever created stays connected to its stop and shutdown broadcasts, which the model writes as loops over that connection list.

The network fetch is an input of each poll (`Fetch`). SHA-512 is an arbitrary function `fingerprint` given to each watcher. Timers are a three-valued flag. Signal emissions are direct calls, or values returned to the caller. Resolving an id requires that the chain of runtime references starting at that id ends (`Catalogue.ChainEnds`). Loops elsewhere in the catalogue do not matter.

Notes on the behaviour the model follows:
- Only statuses 400 to 599 make `raise_for_status` fail. A 1xx or 3xx response is fingerprinted like a 2xx one.
- A runtime reference is followed when it is present and non-empty, which is Python's truthiness. It is looked up among the applications first, then the runtimes, like any other id.
- Settings are keyed by an entity's `id` field, not by its dictionary key, because that is how the loops in `loadManifest` write them.
- `stop(url)` reaches retired watchers too, and a retired watcher with the same url is stopped again. The pool never disconnects a watcher.
- `manifestNames` entries are never removed.

## Model

| member | source | states |
|---|---|---|
| `Catalogue.Resolve` | state.py:156-168 | The result is empty exactly when the id is neither an application nor a runtime. Otherwise it is an install chain: it ends with the entry the id names (applications first), each element's runtime resolves to the element before it, and the first element has no resolvable runtime. |
| `Catalogue.InstallChainUnique` | state.py:160-165 | Any two install chains for the same id are equal, so the resolver's output is the only possible answer. |
| `Catalogue.ResolveLeaf` | state.py:160-165 | An entry with no runtime, or with a runtime that is not in the catalogue, has a chain that ends and resolves to exactly `[entry]`. |
| `Catalogue.ResolvePrefersApplication` | state.py:157-158 | An id that is both an application and a runtime resolves to a chain ending with the application entry. |
| `Catalogue.ThreeLinkChain` | state.py:162-163 | With A depending on B and B on C, A's chain ends and A resolves to `[C, B, A]`. |
| `Catalogue.CycleNeverEnds` | state.py:160-163 | For a cycle of entries of any length, each naming the next as its runtime and the last naming the first, no entry's chain ends, so resolving any of them has no result. |
| `Catalogue.LeadsIntoNeverEnds` | state.py:160-163 | An entry whose runtime's chain never ends has no ending chain itself. Applied along a path, an id whose chain runs into a cycle has no result. |
| `Catalogue.UnrelatedLoopResolves` | state.py:156-168 | With X and Y naming each other, A (depending on B, which has no runtime) still resolves to `[B, A]`, while the chains of X and Y never end. |
| `Catalogue.WithDefaults` | state.py:120-130 | The settings map after defaulting has the old keys plus the given ids. Old entries are unchanged, and each new id gets the default entry built from that id. |
| `Catalogue.DefaultsComplete` | state.py:120-130 | Defaulting the applications' ids and then the runtimes' ids equals defaulting both at once. Every application and runtime then has settings under its `id`. |
| `Catalogue.AddMissingDefaults` | state.py:122-128 | The loop over a dictionary's entities yields exactly `WithDefaults` of the old settings and those entities' ids. |
| `Catalogue.OfTypeAfterMerge` | state.py:95-99 | The applications of a type after a merge are the old ones of that type minus the replaced ids, plus the manifest's ones of that type. |
| `RunningList.FirstIndex` | state.py:154 | The returned position holds the id, and no earlier position does. |
| `RunningList.RemoveFirst` | state.py:151-154 | Removing takes exactly one copy of the id out of the multiset and shortens the list by one. Everything before the first occurrence is kept, and everything after it shifts down by one place. |
| `RunningList.AddThenRemove` | state.py:147-154 | Appending an id and then removing it leaves the multiset of running ids unchanged. |
| `RunningList.AddThenRemoveFresh` | state.py:147-154 | For an id that was not running, append then remove restores the list exactly. |
| `State.Push` | state.py:134-135 | After a push the url is a member, and the set of members is the old set plus the url. |
| `State.Store.constructor` | state.py:19-76 | A new store has empty dictionaries and an empty running list (`__init__`, lines 19-28). The two modelled settings, `containerSettings` and `manifestList`, start empty, as a first-run `load` seeds them (lines 70-76). |
| `State.Store.LoadManifest` | state.py:110-144 | Each dictionary is the old one overridden by the manifest's, and ids the manifest lacks keep their entries. The settings become `WithDefaults` over every application and runtime id, and all of them are then covered. The local snapshot leaves the names and the manifest list untouched. Any other source sets the name of `url` and adds `url` to the manifest list. The running list is unchanged. |
| `State.Store.FillContainerDefaults` | state.py:120-130 | The settings become `WithDefaults` of the old settings over the ids of all applications and runtimes. Every application and runtime is then covered. |
| `State.Store.RecordSource` | state.py:132-139 | The local snapshot changes nothing. Any other source maps `url` to the manifest's name and makes `url` a member of the manifest list, adding nothing else. |
| `State.Store.ResolveDownload` | state.py:156-168 | The chain is empty exactly for an unknown id. Its last element is the application entry when there is one, otherwise the runtime entry, and it is an install chain. |
| `State.Store.GetTools` | state.py:95-96 | The result holds exactly the applications whose type is "mod", with their entries. |
| `State.Store.GetClients` | state.py:98-99 | The result holds exactly the applications whose type is "client", with their entries. |
| `State.Store.AddRunning` | state.py:146-149 | The id is appended at the end of the running list. |
| `State.Store.RemoveRunning` | state.py:151-154 | When the id is present, the first occurrence is removed. Otherwise a `ValueError` is returned and the list is unchanged. |
| `State.MergeTwice` | state.py:116-118 | After merging two manifests that share an application id, the later manifest's entry is the one kept, and the first remote url is in the manifest list. |
| `State.AddThenRemoveRunning` | state.py:146-154 | On a store, add then remove of one id succeeds and leaves the multiset of running ids unchanged. |
| `Watching.ObserveEmitsOnChange` | watcher.py:105-123 | A failed fetch (a transport error, or a status that `raise_for_status` rejects) keeps the digest and emits nothing. A successful fetch stores its digest and emits `(url, text)` exactly when that digest differs from the stored one. |
| `Watching.PollAll` | watcher.py:84 | A run of polls emits at most one update per poll, each for the watcher's url. |
| `Watching.SteadyContentIsSilent` | watcher.py:114-119 | Once a digest is stored, polls that keep returning content with that digest emit nothing and keep the digest. |
| `Watching.SteadyContentEmitsOnce` | watcher.py:114-119 | A fresh watcher with no digest that keeps fetching the same content emits exactly one update, on the first poll. |
| `Watching.ChangeAfterSteadyEmitsAgain` | watcher.py:114-119 | Same content twice and then different content gives exactly two updates: the first poll's and the third's. |
| `Watching.StopIdempotent` | watcher.py:88-95 | Stopping twice equals stopping once. A matching url never leaves the timer running, and any other url changes nothing. |
| `Watching.Watcher.constructor` | watcher.py:69-76 | A new watcher has the given url, no stored digest and no timer. |
| `Watching.Watcher.Start` | watcher.py:78-86 | The timer is started, and one poll follows at once, with its digest update and emission. |
| `Watching.Watcher.Stop` | watcher.py:88-95 | The timer is stopped only when one exists and the url is the watcher's own. Otherwise nothing changes. |
| `Watching.Watcher.Shutdown` | watcher.py:97-103 | Any existing timer is stopped, whatever the url. Without a timer nothing changes. |
| `Watching.Watcher.Run` | watcher.py:105-123 | The stored digest and the emitted update are those of one poll from the previous digest. |
| `Watching.Watcher.Timeout` | watcher.py:84 | A running timer polls once. A stopped timer, or none, emits nothing and keeps the digest. |
| `Watching.WatcherPool.constructor` | watcher.py:15-21 | A new pool has no watchers, an empty graveyard and no connections, and its thread is running. |
| `Watching.WatcherPool.EmitStop` | watcher.py:48 | Every connected watcher gets `stop(url)`. Only those with that url and a timer stop, and no digest changes. |
| `Watching.WatcherPool.EmitShutdown` | watcher.py:56 | Every connected watcher's timer is stopped if it exists, and no digest changes. |
| `Watching.WatcherPool.Remove` | watcher.py:46-52 | An absent url changes nothing. For a present url, the url is no longer a key, its watcher is appended to the graveyard, other keys are unchanged, and watchers with that url stop their timers. |
| `Watching.WatcherPool.Add` | watcher.py:23-44 | The url maps to a fresh watcher for that url, and any previous watcher for it moves to the graveyard. Only the new watcher is started, polling once from no digest. Other watchers keep their digests, and their timers are only stopped by the retirement's `stop(url)`. |
| `Watching.WatcherPool.Install` | watcher.py:27-44 | A fresh watcher is created, keyed, connected and, while the thread runs, started. The graveyard is unchanged. |
| `Watching.WatcherPool.Shutdown` | watcher.py:54-66 | Every watcher ever added, live or retired, gets `shutdown()`. Afterwards no watcher's timer is running and the thread is stopped. |
| `Watching.NoUpdateAfterShutdown` | watcher.py:54-66 | After a pool shutdown, a timer firing on any watcher the pool ever connected, live or retired, emits nothing. |

## Left out

- `main.py`: application bootstrap and signal wiring, with no logic of its own.
- Theme discovery in the `Store` constructor, and `installTheme`: filesystem work that depends on `Theme` and `Loader`. `theme.py` is not part of this model. The `themes` and `cache` fields are left out for the same reason.
- Persistence: `load`, `saveSettings`, `saveManifests`, the pickle and XML encodings, `fromXMLString` and `Manifest.toXML`. `LoadManifest` takes an already-parsed `Manifest`.
- The settings object: only the two keys that `loadManifest` uses (`containerSettings` and `manifestList`) are modelled, as fields. `commit`, the `committed` signal and the `updated` signal are left out.
- `State.Push`: does not state whether a url that is already present gets duplicated, because `uList` lives in `helpers.py`, which is not part of this model.
- `ContainerSettings`: only the default built from an id is modelled, because `settings.py` is not part of this model.
- `State.Store.GetTools` and `State.Store.GetClients`: return a map keyed like `applications` rather than a list in dictionary insertion order. Dafny maps have no order.
- `Catalogue.Resolve`: requires that the chain starting at the id ends. When the chain from an id reaches a cycle, the source recurses until Python raises `RecursionError`. `Catalogue.CycleNeverEnds` covers ids on a cycle of any length and `Catalogue.LeadsIntoNeverEnds` covers ids whose chain runs into one, which shows that all such ids are outside the precondition. Python's recursion limit is not modelled either, so an acyclic chain deeper than that limit resolves in the model, while the source raises `RecursionError`. `State.Store.ResolveDownload` has the same precondition.
- `State.Store.RemoveRunning`: returns a `ValueError` outcome instead of raising it.
- Threads and timing: `QThread`, `moveToThread`, cross-thread delivery, the 6000 ms timer interval, the 5 s request timeout, `time.sleep(0.25)`, `quit` and `wait`. In-flight fetches that finish after a stop are part of this and are not modelled.
- The deferred start in `add` (connecting `start` to `thread.started`) is modelled as "not started". The pool's thread starts in the constructor and is never restarted, so that connection never fires.
- Network and hashing: `requests.get` is the `Fetch` input, including the response body decoded as text. SHA-512 is an arbitrary `fingerprint` function.
- Logging: all `print` output.
