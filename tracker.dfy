/**
 * The tracker's registry and lifecycle controller: the map of tracked
 * torrents, the listening connection and the background executor, and the
 * operations that change them. Every operation is treated as atomic.
 */
module TrackerCore {
  import opened Wrappers
  import opened Torrents
  import opened Registry
  import opened Tasks
  import opened Scheduling

  /** Request path handled by the announce handler. */
  const AnnouncePath: string := "/announce"
  /** Port used when only a host is given (the standard BitTorrent tracker port). */
  const DefaultTrackerPort: int := 6969
  /** Server name and version served in the HTTP headers by default. */
  const DefaultVersionString: string := "BitTorrent Tracker (ttorrent)"

  datatype SocketAddress = SocketAddress(host: string, port: int)

  /** The listening connection: created first, then bound to the tracker's address. */
  datatype Connection = Connection(bound: bool)

  /** The exceptions the modelled operations can end with. */
  datatype TrackerError =
    | BindFailure    // IOException from connect(address)
    | NullScheduler  // NullPointerException from a deferred removal with no executor

  datatype Outcome = Ok | Failed(error: TrackerError)

  class Tracker {
    const address: SocketAddress
    const version: string
    /** The in-memory repository of tracked torrents, by hex info-hash. */
    var torrents: Registry
    var connection: Option<Connection>
    var scheduler: Scheduler?<Task>

    /**
     * Every torrent is stored under its own hash, and a live executor is
     * accepting work and runs exactly one periodic collector.
     */
    ghost predicate Valid()
      reads this, scheduler
    {
      && KeyedByHash(torrents)
      && (scheduler != null ==> !scheduler.shutdown && OnePeriodicCollector(scheduler.pending))
    }

    /** A tracker on the given host and the default port, not started. */
    constructor WithDefaultPort(host: string)
      ensures Valid()
      ensures address == SocketAddress(host, DefaultTrackerPort) && version == DefaultVersionString
      ensures torrents == map[] && connection == None && scheduler == null
    {
      address := SocketAddress(host, DefaultTrackerPort);
      version := DefaultVersionString;
      torrents := map[];
      connection := None;
      scheduler := null;
    }

    /** A tracker on the given address with the default version string, not started. */
    constructor WithAddress(address: SocketAddress)
      ensures Valid()
      ensures this.address == address && version == DefaultVersionString
      ensures torrents == map[] && connection == None && scheduler == null
    {
      this.address := address;
      version := DefaultVersionString;
      torrents := map[];
      connection := None;
      scheduler := null;
    }

    /** A tracker on the given address serving the given version string, not started. */
    constructor (address: SocketAddress, version: string)
      ensures Valid()
      ensures this.address == address && this.version == version
      ensures torrents == map[] && connection == None && scheduler == null
    {
      this.address := address;
      this.version := version;
      torrents := map[];
      connection := None;
      scheduler := null;
    }

    /**
     * Starts the tracker, as written: a connection is created and bound
     * only when there is none, and an executor with the periodic collector
     * is created only when there is none (or it was shut down).
     * `bindSucceeds` is the outcome of binding to `address`. When binding
     * fails, the created connection stays in the field, unbound, and the
     * executor is not started.
     */
    method Start(bindSucceeds: bool) returns (r: Outcome)
      requires Valid()
      modifies this
      ensures Valid()
      ensures torrents == old(torrents)
      ensures r == if old(connection).None? && !bindSucceeds then Failed(BindFailure) else Ok
      ensures connection == if old(connection).None? then Some(Connection(bindSucceeds)) else old(connection)
      ensures r.Failed? ==> scheduler == old(scheduler)
      ensures r.Ok? && old(scheduler) == null ==>
        scheduler != null && fresh(scheduler) && !scheduler.shutdown && scheduler.pending == [PeriodicCollector]
      ensures r.Ok? && old(scheduler) != null ==> scheduler == old(scheduler) && unchanged(scheduler)
    {
      if connection.None? {
        connection := Some(Connection(false));
        if !bindSucceeds {
          return Failed(BindFailure);
        }
        connection := Some(Connection(true));
      }
      if scheduler == null || scheduler.shutdown {
        var s := new Scheduler<Task>();
        var _ := s.Schedule(PeriodicCollector);
        scheduler := s;
      }
      r := Ok;
    }

    /**
     * `Start` with a failed bind undone: the unbound connection is dropped,
     * so the tracker is left not started and a later call binds again.
     */
    method StartCleanly(bindSucceeds: bool) returns (r: Outcome)
      requires Valid()
      modifies this
      ensures Valid()
      ensures torrents == old(torrents)
      ensures r == if old(connection).None? && !bindSucceeds then Failed(BindFailure) else Ok
      ensures connection == if old(connection).Some? then old(connection)
                            else if bindSucceeds then Some(Connection(true)) else None
      ensures r.Failed? ==> scheduler == old(scheduler)
      ensures r.Ok? && old(scheduler) == null ==>
        scheduler != null && fresh(scheduler) && !scheduler.shutdown && scheduler.pending == [PeriodicCollector]
      ensures r.Ok? && old(scheduler) != null ==> scheduler == old(scheduler) && unchanged(scheduler)
    {
      if connection.None? {
        connection := Some(Connection(false));
        if !bindSucceeds {
          connection := None;
          return Failed(BindFailure);
        }
        connection := Some(Connection(true));
      }
      if scheduler == null || scheduler.shutdown {
        var s := new Scheduler<Task>();
        var _ := s.Schedule(PeriodicCollector);
        scheduler := s;
      }
      r := Ok;
    }

    /**
     * Stops the tracker: closes the connection and shuts the executor down,
     * cancelling the collector and every pending deferred removal. The
     * registry is kept.
     */
    method Stop()
      requires Valid()
      modifies this, scheduler
      ensures Valid()
      ensures connection == None && scheduler == null
      ensures torrents == old(torrents)
      ensures old(scheduler) != null ==> old(scheduler).shutdown && old(scheduler).pending == []
    {
      if connection.Some? {
        connection := None;
      }
      if scheduler != null {
        var _ := scheduler.ShutdownNow();
        scheduler := null;
      }
    }

    /** The tracked torrents, one per registered hash. */
    function TrackedTorrents(): (r: set<TrackedTorrent>)
      reads this
      requires KeyedByHash(torrents)
      ensures forall t :: t in r ==> t.HexInfoHash() in torrents && torrents[t.HexInfoHash()] == t
      ensures forall k :: k in torrents ==> torrents[k] in r
      ensures |r| == |torrents|
    {
      KeyedValuesCount(torrents);
      torrents.Values
    }

    /**
     * Registers a tracked torrent under its hash. If one is already
     * registered under that hash, that one is returned and nothing changes.
     */
    method Announce(torrent: TrackedTorrent) returns (r: TrackedTorrent)
      requires Valid()
      modifies this
      ensures Valid()
      ensures connection == old(connection) && scheduler == old(scheduler)
      ensures Registration(torrents, r) == Register(old(torrents), torrent)
      ensures r.HexInfoHash() == torrent.HexInfoHash()
    {
      var h := torrent.HexInfoHash();
      var existing := if h in torrents then Some(torrents[h]) else None;
      if existing.Some? {
        return existing.value;
      }
      torrents := torrents[h := torrent];
      r := torrent;
    }

    /** Wraps the metadata in a new tracked torrent and registers that. */
    method AnnounceTorrent(torrent: Torrent) returns (r: TrackedTorrent)
      requires Valid()
      modifies this
      ensures Valid()
      ensures connection == old(connection) && scheduler == old(scheduler)
      ensures torrent.hexInfoHash in old(torrents) ==> r == old(torrents)[torrent.hexInfoHash] && torrents == old(torrents)
      ensures torrent.hexInfoHash !in old(torrents) ==>
        fresh(r) && r.torrent == torrent && torrents == old(torrents)[torrent.hexInfoHash := r]
    {
      var t := new TrackedTorrent(torrent);
      r := Announce(t);
    }

    /** Stops tracking the torrent with the given hash at once; `None` (a null torrent) is ignored. */
    method Remove(torrent: Option<Torrent>)
      requires Valid()
      modifies this
      ensures Valid()
      ensures connection == old(connection) && scheduler == old(scheduler)
      ensures torrents == if torrent.None? then old(torrents) else Unregister(old(torrents), torrent.value.hexInfoHash)
    {
      if torrent.None? {
        return;
      }
      torrents := torrents - {torrent.value.hexInfoHash};
    }

    /**
     * Submits a removal of the torrent to run after `delay` seconds. With no
     * executor (before `Start` or after `Stop`) this ends in a
     * NullPointerException and nothing is queued.
     */
    method RemoveLater(torrent: Option<Torrent>, delay: int) returns (r: Outcome)
      requires Valid()
      modifies scheduler
      ensures Valid()
      ensures r == if torrent.Some? && scheduler == null then Failed(NullScheduler) else Ok
      ensures scheduler != null && torrent.None? ==> unchanged(scheduler)
      ensures scheduler != null && torrent.Some? ==>
        !scheduler.shutdown && scheduler.pending == old(scheduler.pending) + [Remover(torrent.value, delay)]
    {
      if torrent.None? {
        return Ok;
      }
      if scheduler == null {
        return Failed(NullScheduler);
      }
      AppendRemoverKeepsCollector(scheduler.pending, torrent.value, delay);
      var _ := scheduler.Schedule(Remover(torrent.value, delay));
      r := Ok;
    }

    /** A deferred removal firing: removes whatever is registered under the torrent's hash. */
    method RunTorrentRemover(torrent: Torrent)
      requires Valid()
      modifies this
      ensures Valid()
      ensures connection == old(connection) && scheduler == old(scheduler)
      ensures torrents == Unregister(old(torrents), torrent.hexInfoHash)
    {
      Remove(Some(torrent));
    }

    /**
     * One sweep of the stale-peer collector: asks every registered torrent
     * once to evict its stale peers (`collect` stands for that call) and
     * reports the total evicted.
     */
    method RunPeerCollector(collect: TrackedTorrent -> nat) returns (count: nat)
      requires KeyedByHash(torrents)
      ensures count == SweepTotal(torrents.Values, collect)
    {
      count := 0;
      var remaining := torrents.Values;
      while remaining != {}
        invariant remaining <= torrents.Values
        invariant count + SweepTotal(remaining, collect) == SweepTotal(torrents.Values, collect)
        decreases remaining
      {
        var t :| t in remaining;
        SweepTotalPick(remaining, collect, t);
        count := count + collect(t);
        remaining := remaining - {t};
      }
    }

    /**
     * The executor runs its pending task at index `i`. The collector sweeps
     * and stays queued (fixed-delay repetition); a deferred removal is
     * dequeued and removes by hash. `collected` is the sweep's total, 0 for
     * a removal.
     */
    method Fire(i: nat, collect: TrackedTorrent -> nat) returns (collected: nat)
      requires Valid()
      requires scheduler != null && i < |scheduler.pending|
      modifies this, scheduler
      ensures Valid()
      ensures connection == old(connection) && scheduler == old(scheduler)
      ensures old(scheduler.pending[i]).Collect? ==>
        && torrents == old(torrents)
        && scheduler.pending == old(scheduler.pending)
        && collected == SweepTotal(torrents.Values, collect)
      ensures old(scheduler.pending[i]).Remover? ==>
        && torrents == Unregister(old(torrents), old(scheduler.pending[i]).torrent.hexInfoHash)
        && scheduler.pending == old(scheduler.pending[..i] + scheduler.pending[i + 1..])
        && collected == 0
    {
      var task := scheduler.pending[i];
      match task
      case Collect(_, _) =>
        collected := RunPeerCollector(collect);
      case Remover(torrent, _) =>
        TakeRemoverKeepsCollector(scheduler.pending, i);
        var _ := scheduler.Take(i);
        RunTorrentRemover(torrent);
        collected := 0;
    }
  }
}
