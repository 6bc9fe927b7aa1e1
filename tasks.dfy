/**
 * The two kinds of work the tracker hands to its executor: the periodic
 * stale-peer collector and the one-shot deferred removal of a torrent.
 */
module Tasks {
  import opened Torrents

  /** How often, in seconds, the stale-peer sweep runs (also its initial delay). */
  const PeerCollectionFrequencySeconds: int := 15

  datatype Task =
    | Collect(initialDelaySeconds: int, periodSeconds: int)
    | Remover(torrent: Torrent, delaySeconds: int)

  /** The collector the tracker submits when it starts an executor. */
  const PeriodicCollector: Task := Collect(PeerCollectionFrequencySeconds, PeerCollectionFrequencySeconds)

  /** The number of collector tasks among the pending ones. */
  function CollectorCount(tasks: seq<Task>): (n: nat)
    ensures n <= |tasks|
    ensures n == 0 <==> forall i :: 0 <= i < |tasks| ==> tasks[i].Remover?
    decreases |tasks|
  {
    if tasks == [] then 0
    else (if tasks[0].Collect? then 1 else 0) + CollectorCount(tasks[1..])
  }

  /** The executor runs exactly one collector, and it is the 15-second one. */
  predicate OnePeriodicCollector(tasks: seq<Task>) {
    && CollectorCount(tasks) == 1
    && forall i :: 0 <= i < |tasks| && tasks[i].Collect? ==> tasks[i] == PeriodicCollector
  }

  lemma {:induction false} CollectorCountAppend(s: seq<Task>, u: seq<Task>)
    ensures CollectorCount(s + u) == CollectorCount(s) + CollectorCount(u)
    decreases |s|
  {
    if s == [] {
      assert s + u == u;
    } else {
      assert (s + u)[1..] == s[1..] + u;
      CollectorCountAppend(s[1..], u);
    }
  }

  /** Submitting a removal keeps the single periodic collector. */
  lemma AppendRemoverKeepsCollector(tasks: seq<Task>, torrent: Torrent, delay: int)
    requires OnePeriodicCollector(tasks)
    ensures OnePeriodicCollector(tasks + [Remover(torrent, delay)])
  {
    CollectorCountAppend(tasks, [Remover(torrent, delay)]);
  }

  /** Dequeuing a removal keeps the single periodic collector. */
  lemma TakeRemoverKeepsCollector(tasks: seq<Task>, i: nat)
    requires OnePeriodicCollector(tasks)
    requires i < |tasks| && tasks[i].Remover?
    ensures OnePeriodicCollector(tasks[..i] + tasks[i + 1..])
  {
    assert tasks == tasks[..i] + [tasks[i]] + tasks[i + 1..];
    CollectorCountAppend(tasks[..i] + [tasks[i]], tasks[i + 1..]);
    CollectorCountAppend(tasks[..i], [tasks[i]]);
    CollectorCountAppend(tasks[..i], tasks[i + 1..]);
    var rest := tasks[..i] + tasks[i + 1..];
    forall j | 0 <= j < |rest| && rest[j].Collect? ensures rest[j] == PeriodicCollector {
      if j < i {
        assert rest[j] == tasks[j];
      } else {
        assert rest[j] == tasks[j + 1];
      }
    }
  }
}
