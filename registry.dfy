/**
 * The torrent registry as a value: a map from hex info-hash to the tracked
 * torrent registered under it. The functions here are the specification
 * that the tracker's methods are proved against; the lemmas state what
 * registration, removal and the stale-peer sweep promise.
 */
module Registry {
  import opened Torrents

  type Registry = map<Key, TrackedTorrent>

  /** Every entry is stored under its own hash: the registry's invariant. */
  predicate KeyedByHash(m: Registry) {
    forall k :: k in m ==> m[k].HexInfoHash() == k
  }

  /** The registry after a registration attempt, and the entry handed back to the caller. */
  datatype Registration = Registration(registry: Registry, entry: TrackedTorrent)

  /** Insert-if-absent: an existing entry under the same hash wins and is returned. */
  function Register(m: Registry, t: TrackedTorrent): (r: Registration)
    ensures r.registry.Keys == m.Keys + {t.HexInfoHash()}
    ensures t.HexInfoHash() in r.registry && r.registry[t.HexInfoHash()] == r.entry
    ensures forall k :: k in m ==> r.registry[k] == m[k]
    ensures t.HexInfoHash() !in m ==> r.entry == t
  {
    var h := t.HexInfoHash();
    if h in m then Registration(m, m[h]) else Registration(m[h := t], t)
  }

  /** Removal by hash; an absent hash leaves the registry as it is. */
  function Unregister(m: Registry, h: Key): (r: Registry)
    ensures r.Keys == m.Keys - {h}
    ensures forall k :: k in r ==> r[k] == m[k]
  {
    m - {h}
  }

  lemma RegisterKeepsKeying(m: Registry, t: TrackedTorrent)
    requires KeyedByHash(m)
    ensures KeyedByHash(Register(m, t).registry)
    ensures Register(m, t).entry.HexInfoHash() == t.HexInfoHash()
  {
  }

  lemma UnregisterKeepsKeying(m: Registry, h: Key)
    requires KeyedByHash(m)
    ensures KeyedByHash(Unregister(m, h))
  {
  }

  /** A registration under a hash already present changes nothing and returns the first entry. */
  lemma RegisterPresent(m: Registry, t: TrackedTorrent)
    requires t.HexInfoHash() in m
    ensures Register(m, t) == Registration(m, m[t.HexInfoHash()])
  {
  }

  /** A registration under a new hash stores the supplied object and returns it. */
  lemma RegisterAbsent(m: Registry, t: TrackedTorrent)
    requires t.HexInfoHash() !in m
    ensures Register(m, t).entry == t
    ensures Register(m, t).registry == m[t.HexInfoHash() := t]
  {
  }

  /** The registry grows by exactly one when the hash is new and not at all otherwise. */
  lemma RegisterGrowth(m: Registry, t: TrackedTorrent)
    ensures |Register(m, t).registry| == |m| + (if t.HexInfoHash() in m then 0 else 1)
  {
    var r := Register(m, t).registry;
    if t.HexInfoHash() !in m {
      assert r.Keys == m.Keys + {t.HexInfoHash()};
      assert |r.Keys| == |m.Keys| + 1;
    }
  }

  /** Registering a second object under the same hash returns the first one and changes nothing. */
  lemma RegisterIdempotent(m: Registry, t1: TrackedTorrent, t2: TrackedTorrent)
    requires t1.HexInfoHash() == t2.HexInfoHash()
    ensures Register(Register(m, t1).registry, t2) == Register(m, t1)
  {
  }

  /** Registering a new hash and then removing it gives back the registry it started from. */
  lemma RegisterThenUnregister(m: Registry, t: TrackedTorrent)
    requires t.HexInfoHash() !in m
    ensures Unregister(Register(m, t).registry, t.HexInfoHash()) == m
  {
  }

  /** After a removal, the next registration under that hash installs the new object. */
  lemma UnregisterThenRegister(m: Registry, t: TrackedTorrent)
    ensures Register(Unregister(m, t.HexInfoHash()), t).entry == t
  {
  }

  /** Removing a hash that is absent changes nothing; a present one shrinks the registry by one. */
  lemma UnregisterSize(m: Registry, h: Key)
    ensures h !in m ==> Unregister(m, h) == m
    ensures h in m ==> |Unregister(m, h)| == |m| - 1
  {
    if h in m {
      assert Unregister(m, h).Keys == m.Keys - {h};
    }
  }

  /** The outcome of a series of registration calls, one after the other. */
  datatype Batch = Batch(registry: Registry, entries: seq<TrackedTorrent>)

  function RegisterEach(m: Registry, ts: seq<TrackedTorrent>): (b: Batch)
    ensures |b.entries| == |ts|
    decreases |ts|
  {
    if ts == [] then Batch(m, [])
    else
      var r := Register(m, ts[0]);
      var rest := RegisterEach(r.registry, ts[1..]);
      Batch(rest.registry, [r.entry] + rest.entries)
  }

  /**
   * Exactly one registration per hash wins: however many objects are
   * registered under one hash, the registry ends up holding one entry for
   * it (the one already present, or else the first supplied), and every
   * caller is handed that same entry.
   */
  lemma {:induction false} FirstRegistrationWins(m: Registry, ts: seq<TrackedTorrent>, h: Key)
    requires |ts| > 0
    requires forall i :: 0 <= i < |ts| ==> ts[i].HexInfoHash() == h
    decreases |ts|
    ensures var winner := if h in m then m[h] else ts[0];
      && RegisterEach(m, ts).registry == m[h := winner]
      && forall i :: 0 <= i < |ts| ==> RegisterEach(m, ts).entries[i] == winner
  {
    var winner := if h in m then m[h] else ts[0];
    var r := Register(m, ts[0]);
    assert r.registry == m[h := winner] && r.entry == winner;
    if |ts| > 1 {
      FirstRegistrationWins(r.registry, ts[1..], h);
      assert r.registry[h] == winner;
    }
  }

  /** A fixed choice of an element, so that `SweepTotal` is a function. */
  ghost function PickOne(ts: set<TrackedTorrent>): (t: TrackedTorrent)
    requires ts != {}
    ensures t in ts
  {
    var t :| t in ts; t
  }

  /** The sum of `collect` over a set of torrents: the count one sweep reports. */
  ghost function SweepTotal(ts: set<TrackedTorrent>, collect: TrackedTorrent -> nat): nat
    decreases ts
  {
    if ts == {} then 0
    else
      var t := PickOne(ts);
      collect(t) + SweepTotal(ts - {t}, collect)
  }

  /** The sum does not depend on the order the torrents are visited in. */
  lemma {:induction false} SweepTotalPick(ts: set<TrackedTorrent>, collect: TrackedTorrent -> nat, t: TrackedTorrent)
    requires t in ts
    ensures SweepTotal(ts, collect) == collect(t) + SweepTotal(ts - {t}, collect)
    decreases ts
  {
    var p := PickOne(ts);
    if p != t {
      calc {
        SweepTotal(ts, collect);
        collect(p) + SweepTotal(ts - {p}, collect);
        { SweepTotalPick(ts - {p}, collect, t); }
        collect(p) + collect(t) + SweepTotal(ts - {p} - {t}, collect);
        { assert ts - {p} - {t} == ts - {t} - {p}; }
        collect(t) + collect(p) + SweepTotal(ts - {t} - {p}, collect);
        { SweepTotalPick(ts - {t}, collect, p); }
        collect(t) + SweepTotal(ts - {t}, collect);
      }
    }
  }

  /** A sweep reports zero exactly when no torrent had a stale peer to evict. */
  lemma {:induction false} SweepTotalZero(ts: set<TrackedTorrent>, collect: TrackedTorrent -> nat)
    ensures SweepTotal(ts, collect) == 0 <==> forall t :: t in ts ==> collect(t) == 0
    decreases ts
  {
    if ts != {} {
      var p := PickOne(ts);
      SweepTotalZero(ts - {p}, collect);
    }
  }

  /** Inserting a new hash adds exactly the new object to the registry's values. */
  lemma ValuesAfterInsert(m: Registry, t: TrackedTorrent)
    requires KeyedByHash(m) && t.HexInfoHash() !in m
    ensures m[t.HexInfoHash() := t].Values == m.Values + {t}
    ensures t !in m.Values
  {
    var h := t.HexInfoHash();
    var m' := m[h := t];
    forall v | v in m.Values ensures v in m'.Values {
      var k :| k in m && m[k] == v;
      assert m'[k] == v;
    }
    forall v | v in m'.Values ensures v in m.Values + {t} {
      var k :| k in m' && m'[k] == v;
      if k != h {
        assert m[k] == v;
      }
    }
    assert m'[h] == t;
  }

  /** In a registry keyed by hash no object sits under two keys, so it has as many values as keys. */
  lemma {:induction false} KeyedValuesCount(m: Registry)
    requires KeyedByHash(m)
    ensures |m.Values| == |m|
    decreases |m|
  {
    if m != map[] {
      var k :| k in m;
      var rest := m - {k};
      assert |rest.Keys| == |m.Keys| - 1;
      KeyedValuesCount(rest);
      assert rest[k := m[k]] == m;
      ValuesAfterInsert(rest, m[k]);
    }
  }

  /** A sweep after registering a new torrent reports that torrent's evictions on top of the rest. */
  lemma SweepAfterRegister(m: Registry, t: TrackedTorrent, collect: TrackedTorrent -> nat)
    requires KeyedByHash(m) && t.HexInfoHash() !in m
    ensures SweepTotal(Register(m, t).registry.Values, collect) == SweepTotal(m.Values, collect) + collect(t)
  {
    ValuesAfterInsert(m, t);
    var vs := m.Values + {t};
    assert vs - {t} == m.Values;
    SweepTotalPick(vs, collect, t);
  }

  /** A sweep after removing a torrent reports everything but that torrent's evictions. */
  lemma SweepAfterUnregister(m: Registry, h: Key, collect: TrackedTorrent -> nat)
    requires KeyedByHash(m) && h in m
    ensures SweepTotal(Unregister(m, h).Values, collect) + collect(m[h]) == SweepTotal(m.Values, collect)
  {
    var rest := Unregister(m, h);
    assert rest[h := m[h]] == m;
    SweepAfterRegister(rest, m[h], collect);
  }

  /** A registry of two torrents sweeps to the sum of their two counts. */
  lemma SweepOfTwo(a: TrackedTorrent, b: TrackedTorrent, collect: TrackedTorrent -> nat)
    requires a.HexInfoHash() != b.HexInfoHash()
    ensures SweepTotal(map[a.HexInfoHash() := a, b.HexInfoHash() := b].Values, collect) == collect(a) + collect(b)
  {
    var empty: Registry := map[];
    var one := Register(empty, a).registry;
    assert empty.Values == {};
    SweepAfterRegister(empty, a, collect);
    SweepAfterRegister(one, b, collect);
    assert Register(one, b).registry == map[a.HexInfoHash() := a, b.HexInfoHash() := b];
  }
}
