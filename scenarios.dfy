/**
 * Runs of the tracker's operations one after another, from a freshly
 * constructed tracker, with what each run ends in proved from the
 * operations' contracts alone.
 */
module Scenarios {
  import opened Wrappers
  import opened Torrents
  import opened Registry
  import opened Tasks
  import opened TrackerCore

  /** Starting a started tracker creates no second executor and no second collector. */
  method StartTwiceKeepsOneExecutor(host: string) returns (sameExecutor: bool, collectors: nat)
    ensures sameExecutor && collectors == 1
  {
    var tracker := new Tracker.WithDefaultPort(host);
    var _ := tracker.Start(true);
    var first := tracker.scheduler;
    var _ := tracker.Start(true);
    sameExecutor := first == tracker.scheduler;
    collectors := CollectorCount(tracker.scheduler.pending);
  }

  /** Stopping twice is harmless, leaves nothing running and keeps the registered torrent. */
  method StopTwiceKeepsRegistry(torrent: Torrent) returns (running: bool, tracked: bool)
    ensures !running && tracked
  {
    var tracker := new Tracker.WithDefaultPort("localhost");
    var _ := tracker.Start(true);
    var _ := tracker.AnnounceTorrent(torrent);
    tracker.Stop();
    tracker.Stop();
    running := tracker.connection.Some? || tracker.scheduler != null;
    tracked := torrent.hexInfoHash in tracker.torrents;
  }

  /**
   * A removal deferred before `Stop` never fires: after a restart only the
   * new collector is pending and the torrent is still registered.
   */
  method StopCancelsDeferredRemoval(torrent: Torrent, delay: int) returns (pendingAfterRestart: nat, tracked: bool)
    ensures pendingAfterRestart == 1 && tracked
  {
    var tracker := new Tracker.WithDefaultPort("localhost");
    var _ := tracker.Start(true);
    var _ := tracker.AnnounceTorrent(torrent);
    var _ := tracker.RemoveLater(Some(torrent), delay);
    assert |tracker.scheduler.pending| == 2;
    tracker.Stop();
    var _ := tracker.Start(true);
    pendingAfterRestart := |tracker.scheduler.pending|;
    tracked := torrent.hexInfoHash in tracker.torrents;
  }

  /** A deferred removal asked for before `Start` ends in a NullPointerException. */
  method RemoveLaterBeforeStart(torrent: Torrent, delay: int) returns (r: Outcome)
    ensures r == Failed(NullScheduler)
  {
    var tracker := new Tracker.WithDefaultPort("localhost");
    r := tracker.RemoveLater(Some(torrent), delay);
  }

  /** A deferred removal asked for after `Stop` ends in a NullPointerException too. */
  method RemoveLaterAfterStop(torrent: Torrent, delay: int) returns (r: Outcome)
    ensures r == Failed(NullScheduler)
  {
    var tracker := new Tracker.WithDefaultPort("localhost");
    var _ := tracker.Start(true);
    tracker.Stop();
    r := tracker.RemoveLater(Some(torrent), delay);
  }

  /**
   * The deferred removal deletes by hash: a replacement registered under
   * the same hash after the original was removed is deleted when the
   * original's removal fires.
   */
  method DeferredRemovalDeletesReplacement(original: Torrent, replacement: Torrent, delay: int)
    returns (replacementRegistered: bool, replacementTracked: bool)
    requires replacement.hexInfoHash == original.hexInfoHash
    ensures replacementRegistered && !replacementTracked
  {
    var tracker := new Tracker.WithDefaultPort("localhost");
    var _ := tracker.Start(true);
    var _ := tracker.AnnounceTorrent(original);
    var _ := tracker.RemoveLater(Some(original), delay);
    tracker.Remove(Some(original));
    var entry := tracker.AnnounceTorrent(replacement);
    var h := replacement.hexInfoHash;
    replacementRegistered := h in tracker.torrents && tracker.torrents[h] == entry && entry.torrent == replacement;
    assert tracker.scheduler.pending == [PeriodicCollector, Remover(original, delay)];
    var _ := tracker.Fire(1, _ => 0);
    replacementTracked := h in tracker.torrents;
  }

  /**
   * As written, a start whose bind fails leaves the unbound connection in
   * place, so the retry skips binding: the collector runs but nothing
   * listens.
   */
  method RetryAfterBindFailure(host: string) returns (first: Outcome, second: Outcome, listening: bool, sweeping: bool)
    ensures first == Failed(BindFailure) && second == Ok
    ensures !listening && sweeping
  {
    var tracker := new Tracker.WithDefaultPort(host);
    first := tracker.Start(false);
    second := tracker.Start(true);
    listening := tracker.connection.Some? && tracker.connection.value.bound;
    sweeping := tracker.scheduler != null;
  }

  /** With the failed bind undone, the retry binds and the tracker both listens and sweeps. */
  method RetryAfterBindFailureCleanly(host: string) returns (first: Outcome, second: Outcome, listening: bool, sweeping: bool)
    ensures first == Failed(BindFailure) && second == Ok
    ensures listening && sweeping
  {
    var tracker := new Tracker.WithDefaultPort(host);
    first := tracker.StartCleanly(false);
    second := tracker.StartCleanly(true);
    listening := tracker.connection.Some? && tracker.connection.value.bound;
    sweeping := tracker.scheduler != null;
  }

  /** A sweep fired by the executor reports the sum over all registered torrents. */
  method SweepCountsEveryTorrent(a: Torrent, b: Torrent, collect: TrackedTorrent -> nat)
    returns (registered: nat, swept: nat, total: nat)
    requires a.hexInfoHash != b.hexInfoHash
    ensures registered == 2 && swept == total
  {
    var tracker := new Tracker.WithDefaultPort("localhost");
    var _ := tracker.Start(true);
    var ta := tracker.AnnounceTorrent(a);
    var tb := tracker.AnnounceTorrent(b);
    registered := |tracker.TrackedTorrents()|;
    assert tracker.torrents == map[a.hexInfoHash := ta, b.hexInfoHash := tb];
    SweepOfTwo(ta, tb, collect);
    swept := tracker.Fire(0, collect);
    total := collect(ta) + collect(tb);
  }
}
