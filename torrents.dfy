/**
 * Torrents as the tracker sees them. A `Torrent` is the immutable
 * metadata the operator supplies; a `TrackedTorrent` is the tracker's own
 * object for it, which owns the swarm of peers (not modelled here).
 * Two `TrackedTorrent` objects with the same hash are still two objects.
 */
module Torrents {

  /** The hex rendering of a torrent's 20-byte info-hash: the registry key. */
  type Key = string

  datatype Torrent = Torrent(hexInfoHash: Key, name: string)

  class TrackedTorrent {
    const torrent: Torrent

    /** `new TrackedTorrent(torrent)`: wraps the metadata, starts with no peers. */
    constructor (torrent: Torrent)
      ensures this.torrent == torrent
    {
      this.torrent := torrent;
    }

    function HexInfoHash(): Key {
      torrent.hexInfoHash
    }
  }
}
