# Tracker registry and lifecycle, modelled in Dafny

This project models the bookkeeping core of ttorrent's closed BitTorrent
tracker, the `Tracker` class. It has four parts:

- **Registry.** A map from a torrent's hex info-hash to its `TrackedTorrent`. Registration is insert-if-absent and hands back the existing entry on a clash. Removal is either immediate or deferred through the executor.
- **Lifecycle.** `start` creates the listening connection and the background executor only when they are missing. `stop` closes the connection and shuts the executor down with `shutdownNow`, but keeps the registry.
- **Executor.** It holds pending tasks: the periodic stale-peer collector (15 s initial delay and fixed delay) and one-shot deferred removals. The `Fire` method runs one pending task; time is not modelled.
- **Sweep.** `PeerCollector.run` asks every registered torrent once to collect its stale peers and adds up the counts.

Modules, one file each:

- `Wrappers`: `Option`, which stands for a Java reference that may be null.
- `Torrents`: `Torrent` metadata, a datatype, and `TrackedTorrent`, a class, so that two objects with the same hash stay distinct.
- `Registry`: the registry as a `map` value, plus the specification functions `Register`, `Unregister`, `RegisterEach` and `SweepTotal` and their lemmas.
- `Tasks`: the executor's task type and the "exactly one periodic collector" invariant.
- `Scheduling`: the executor as a class with a pending-task sequence and a shut-down flag.
- `TrackerCore`: the `Tracker` class. Its fields are `torrents`, `connection` and `scheduler`. Its methods are proved against the `Registry` functions and keep the invariant `Valid()`.
- `Scenarios`: runs of several calls on a fresh tracker, such as start, register, defer a removal, stop and restart. What each run ends in is proved from the method contracts alone.

Where the documented intent (a closed tracker whose registry is discarded on
shutdown, whose deferred removals are dropped once it is stopped, and whose
torrent list is handed out as a snapshot) and the code disagree, the model
follows the code, except for the list of tracked torrents:

- `stop` keeps the registry; it is not discarded.
- A deferred removal requested with no executor (before `start` or after `stop`) ends in a NullPointerException. It is neither rejected nor dropped. This is `Failed(NullScheduler)` in the model.
- A deferred removal deletes whatever is registered under the hash, including a replacement object registered after the original was removed.
- `getTrackedTorrents` hands out `torrents.values()`, a live view backed by the map, not a snapshot. The model returns the set of values at the time of the call (see "## Left out").
- The delay of `remove(torrent, delay)` is in seconds. The doc comment says milliseconds, but the code passes `TimeUnit.SECONDS`.

## Model

| member | source | states |
|---|---|---|
| Registry.Register | src/main/java/com/turn/ttorrent/tracker/Tracker.java:194-207 | registration adds the hash to the keys and nothing else, keeps every existing entry, returns what is stored under the hash, and returns the supplied object when the hash was new |
| Registry.Unregister | src/main/java/com/turn/ttorrent/tracker/Tracker.java:219-225 | removal drops exactly the given hash and leaves every other entry as it was |
| Registry.RegisterKeepsKeying | src/main/java/com/turn/ttorrent/tracker/Tracker.java:194-207 | registration keeps every entry stored under its own hash, and the returned entry has the requested hash |
| Registry.UnregisterKeepsKeying | src/main/java/com/turn/ttorrent/tracker/Tracker.java:219-225 | removal keeps every entry stored under its own hash |
| Registry.RegisterPresent | src/main/java/com/turn/ttorrent/tracker/Tracker.java:194-201 | a hash already present: the existing entry is returned and the registry is unchanged |
| Registry.RegisterAbsent | src/main/java/com/turn/ttorrent/tracker/Tracker.java:203-206 | a new hash: the supplied object is stored under its hash and returned |
| Registry.RegisterGrowth | src/main/java/com/turn/ttorrent/tracker/Tracker.java:194-207 | the registry grows by one for a new hash and not at all for a known one |
| Registry.RegisterIdempotent | src/main/java/com/turn/ttorrent/tracker/Tracker.java:194-207 | a second registration with the same hash, even with a different object, returns the first entry and changes nothing |
| Registry.RegisterThenUnregister | src/main/java/com/turn/ttorrent/tracker/Tracker.java:194-225 | registering a new hash and then removing it restores the registry |
| Registry.UnregisterThenRegister | src/main/java/com/turn/ttorrent/tracker/Tracker.java:194-225 | after a removal, registering under that hash installs and returns the new object |
| Registry.UnregisterSize | src/main/java/com/turn/ttorrent/tracker/Tracker.java:219-225 | removing an absent hash changes nothing; removing a present one shrinks the registry by one |
| Registry.FirstRegistrationWins | src/main/java/com/turn/ttorrent/tracker/Tracker.java:194-207 | for any series of registrations under one hash, the registry holds one entry for it (the existing one, else the first supplied) and every caller gets that entry |
| Registry.KeyedValuesCount | src/main/java/com/turn/ttorrent/tracker/Tracker.java:175-177 | in a registry keyed by hash there are as many tracked torrents as hashes |
| Registry.SweepTotalPick | src/main/java/com/turn/ttorrent/tracker/Tracker.java:273-277 | the sweep total is the same whichever torrent is visited first |
| Registry.SweepTotalZero | src/main/java/com/turn/ttorrent/tracker/Tracker.java:274-279 | a sweep reports zero exactly when no torrent evicted any peer |
| Registry.SweepAfterRegister | src/main/java/com/turn/ttorrent/tracker/Tracker.java:273-277 | after registering a new torrent, a sweep reports that torrent's count plus the previous total |
| Registry.SweepAfterUnregister | src/main/java/com/turn/ttorrent/tracker/Tracker.java:273-277 | after removing a torrent, a sweep reports the previous total minus that torrent's count |
| Registry.SweepOfTwo | src/main/java/com/turn/ttorrent/tracker/Tracker.java:273-277 | a registry of two torrents with distinct hashes sweeps to the sum of their two counts |
| Tasks.CollectorCount | src/main/java/com/turn/ttorrent/tracker/Tracker.java:140-147 | the number of collector tasks pending is at most the number of tasks, and zero exactly when all are removals |
| Tasks.AppendRemoverKeepsCollector | src/main/java/com/turn/ttorrent/tracker/Tracker.java:233-239 | submitting a deferred removal keeps exactly one 15-second collector pending |
| Tasks.TakeRemoverKeepsCollector | src/main/java/com/turn/ttorrent/tracker/Tracker.java:248-260 | dequeuing a fired removal keeps exactly one 15-second collector pending |
| Scheduling.Scheduler.constructor | src/main/java/com/turn/ttorrent/tracker/Tracker.java:142 | a new executor has nothing pending and is not shut down |
| Scheduling.Scheduler.Schedule | src/main/java/com/turn/ttorrent/tracker/Tracker.java:238 | a live executor queues the task at the end; a shut-down one rejects it and queues nothing |
| Scheduling.Scheduler.ShutdownNow | src/main/java/com/turn/ttorrent/tracker/Tracker.java:165 | shutting down cancels every pending task, returns them and marks the executor shut down |
| Scheduling.Scheduler.Take | src/main/java/com/turn/ttorrent/tracker/Tracker.java:248-260 | running a one-shot task removes exactly that task from the pending ones |
| TrackerCore.Tracker.WithDefaultPort | src/main/java/com/turn/ttorrent/tracker/Tracker.java:74-77 | a new tracker binds to the given host on port 6969, serves the default version, tracks nothing and is not started |
| TrackerCore.Tracker.WithAddress | src/main/java/com/turn/ttorrent/tracker/Tracker.java:86-88 | a new tracker has the given address, the default version, tracks nothing and is not started |
| TrackerCore.Tracker.constructor | src/main/java/com/turn/ttorrent/tracker/Tracker.java:98-102 | a new tracker has the given address and version, tracks nothing and is not started |
| TrackerCore.Tracker.Start | src/main/java/com/turn/ttorrent/tracker/Tracker.java:127-148 | as written: a connection is created and bound only when none exists; an executor with exactly one 15-second collector is created only when none exists; an existing executor is untouched; a failed bind leaves the created, unbound connection in place and starts no executor |
| TrackerCore.Tracker.StartCleanly | src/main/java/com/turn/ttorrent/tracker/Tracker.java:127-148 | the same as Start, except that a failed bind leaves no connection, so the tracker is left not started |
| TrackerCore.Tracker.Stop | src/main/java/com/turn/ttorrent/tracker/Tracker.java:158-170 | afterwards there is no connection and no executor; the old executor is shut down with nothing pending (collector and deferred removals cancelled); the registry is unchanged |
| TrackerCore.Tracker.TrackedTorrents | src/main/java/com/turn/ttorrent/tracker/Tracker.java:175-177 | the view holds exactly the registered torrents, one per hash |
| TrackerCore.Tracker.Announce | src/main/java/com/turn/ttorrent/tracker/Tracker.java:194-207 | the new registry and the returned entry are those of `Register` on the old registry; the connection and executor are unchanged |
| TrackerCore.Tracker.AnnounceTorrent | src/main/java/com/turn/ttorrent/tracker/Tracker.java:209-212 | a known hash returns the existing entry and changes nothing; a new hash registers and returns a new tracked torrent wrapping the metadata |
| TrackerCore.Tracker.Remove | src/main/java/com/turn/ttorrent/tracker/Tracker.java:219-225 | a null torrent changes nothing; otherwise exactly the torrent's hash is removed |
| TrackerCore.Tracker.RemoveLater | src/main/java/com/turn/ttorrent/tracker/Tracker.java:233-239 | a null torrent changes nothing; with no executor the call fails with a NullPointerException; otherwise a removal with the delay in seconds is appended to the pending tasks |
| TrackerCore.Tracker.RunTorrentRemover | src/main/java/com/turn/ttorrent/tracker/Tracker.java:248-260 | a fired removal removes whatever is registered under the torrent's hash |
| TrackerCore.Tracker.RunPeerCollector | src/main/java/com/turn/ttorrent/tracker/Tracker.java:270-281 | a sweep visits every registered torrent once and reports the sum of their counts |
| TrackerCore.Tracker.Fire | src/main/java/com/turn/ttorrent/tracker/Tracker.java:143-146 | running the collector sweeps, leaves it queued and changes nothing else; running a removal dequeues it and removes its hash |
| Scenarios.StartTwiceKeepsOneExecutor | src/main/java/com/turn/ttorrent/tracker/Tracker.java:131-147 | a second start keeps the same executor, with one collector |
| Scenarios.StopTwiceKeepsRegistry | src/main/java/com/turn/ttorrent/tracker/Tracker.java:158-170 | stopping twice leaves nothing running and the registered torrent still tracked |
| Scenarios.StopCancelsDeferredRemoval | src/main/java/com/turn/ttorrent/tracker/Tracker.java:164-166 | a removal deferred before stop never fires: after a restart only the new collector is pending and the torrent is still tracked |
| Scenarios.RemoveLaterBeforeStart | src/main/java/com/turn/ttorrent/tracker/Tracker.java:233-239 | a deferred removal before start fails with a NullPointerException |
| Scenarios.RemoveLaterAfterStop | src/main/java/com/turn/ttorrent/tracker/Tracker.java:233-239 | a deferred removal after stop fails with a NullPointerException |
| Scenarios.DeferredRemovalDeletesReplacement | src/main/java/com/turn/ttorrent/tracker/Tracker.java:248-260 | a replacement registered under the same hash after the original's removal is deleted when the original's deferred removal fires |
| Scenarios.RetryAfterBindFailure | src/main/java/com/turn/ttorrent/tracker/Tracker.java:131-138 | as written, after a failed bind the retry reports success and the collector runs, but nothing listens |
| Scenarios.RetryAfterBindFailureCleanly | src/main/java/com/turn/ttorrent/tracker/Tracker.java:131-138 | with the failed bind undone, the retry binds and the tracker both listens and sweeps |
| Scenarios.SweepCountsEveryTorrent | src/main/java/com/turn/ttorrent/tracker/Tracker.java:270-281 | after registering two torrents, the collector fired by the executor reports the sum of their two counts |

The scenarios call the as-written `Start`, except `RetryAfterBindFailureCleanly`,
which shows the corrected `StartCleanly`.

## Left out

- Network transport: `SocketConnection`, `TrackerService` and the HTTP announce handling are not modelled. The connection is only "created" and "bound", and the bind result is the parameter `bindSucceeds`. The version string is stored but never served.
- `getAnnounceUrl` is not modelled. It depends on DNS (`getCanonicalHostName`) and on the `URL` library, so only the `/announce` path and port 6969 are kept as constants. `start` calls it only for logging.
- Time: delays and the 15-second period are recorded in the tasks but never elapse. `Fire` may run any pending task, so ordering by due time is not modelled.
- Concurrency: `synchronized`, the weakly consistent iteration of `ConcurrentHashMap` and races between the sweep and announces are not modelled. Every method is atomic.
- `TrackedTorrent.collectUnfreshPeers` is not part of this model. It is the parameter `collect`: a count per torrent, with no model of its effect on the torrent's peer list.
- TrackerCore.Tracker.TrackedTorrents: the model returns a snapshot, the set of registered torrents at the moment of the call. Java returns `torrents.values()`, a live view backed by the map: it shows later announces and removals, and `remove` or `clear` on it deletes registry entries. That sharing is not modelled.
- TrackerCore.Tracker.RunPeerCollector: the total is an unbounded `nat`. Java's `int count` would wrap past 2^31-1, which needs more than two billion stale peers.
- TrackerCore.Tracker.Stop: an `IOException` from `connection.close()` is not modelled.
- Scheduling.Scheduler.Take: the thread pool itself is not modelled. That includes its worker thread, the interruption of a running task by `shutdownNow`, and the rescheduling of the fixed-delay collector, which simply stays pending.
- `announce(null)` is not modelled: Java would throw a NullPointerException, and here the parameter is a non-null reference.
- Logging (all SLF4J calls) is not modelled.
- The integration test `ReplicationTest.java` is not modelled. It runs real clients, directories, sleeps and latches.

## Findings

| source | as written | input that shows it | evidently intended | confidence | as-written member | corrected member |
|---|---|---|---|---|---|---|
| src/main/java/com/turn/ttorrent/tracker/Tracker.java:131-138 | the new `SocketConnection` is stored in the field before `connect(address)`. When `connect` throws, the field keeps the unbound connection | `start()` while the address is taken (it throws), then `start()` again once it is free: the second call skips binding, starts the collector and returns normally, and nothing listens | a failed start leaves no connection, so a retry binds | medium, not executed | TrackerCore.Tracker.Start, Scenarios.RetryAfterBindFailure | TrackerCore.Tracker.StartCleanly, Scenarios.RetryAfterBindFailureCleanly |
