/** Ring distances, bootstrap tags and connection rounds of the
    point-to-point setup (src/transport.cc:102-105, 159, 234, 254-257). */
module Ring {
  import opened Types

  /** The peer this rank receives from at ring distance `i`:
      `(rank - i + nRanks) % nRanks`, with the wrap-around written out
      (RingMod shows the two agree). */
  function RecvPeer(rank: int, n: int, i: int): int
    requires 0 <= rank < n && 0 <= i < n
  {
    if rank - i >= 0 then rank - i else rank - i + n
  }

  /** The peer this rank sends to at ring distance `i`: `(rank + i) % nRanks`. */
  function SendPeer(rank: int, n: int, i: int): int
    requires 0 <= rank < n && 0 <= i < n
  {
    if rank + i < n then rank + i else rank + i - n
  }

  /** The distance at which `q` is this rank's recv peer. */
  function RecvDist(rank: int, n: int, q: int): int
    requires 0 <= rank < n && 0 <= q < n
  {
    if rank - q >= 0 then rank - q else rank - q + n
  }

  /** The distance at which `q` is this rank's send peer. */
  function SendDist(rank: int, n: int, q: int): int
    requires 0 <= rank < n && 0 <= q < n
  {
    if q - rank >= 0 then q - rank else q - rank + n
  }

  /** A positive multiple of `n` is at least `n`. */
  lemma {:induction false} MulMono(a: int, n: int)
    requires n > 0 && a >= 1
    ensures a * n >= n
  {
    if a > 1 {
      MulMono(a - 1, n);
      assert a * n == (a - 1) * n + n;
    }
  }

  /** The remainder is the `r` of any `x == q * n + r` with `0 <= r < n`. */
  lemma ModUnique(x: int, n: int, q: int, r: int)
    requires n > 0 && 0 <= r < n && x == q * n + r
    ensures x % n == r
  {
    var q', r' := x / n, x % n;
    assert x == q' * n + r';
    assert (q - q') * n == r' - r;
    if q > q' {
      MulMono(q - q', n);
    } else if q < q' {
      MulMono(q' - q, n);
    }
  }

  /** `%` on `0 <= x < 2n` subtracts `n` at most once. */
  lemma Mod(x: int, n: int)
    requires 0 <= x < 2 * n
    ensures x % n == if x < n then x else x - n
  {
    if x < n {
      ModUnique(x, n, 0, x);
    } else {
      ModUnique(x, n, 1, x - n);
    }
  }

  /** The peers and distances are the modular expressions of the source. */
  lemma RingMod(rank: int, n: int, i: int)
    requires 0 <= rank < n && 0 <= i < n
    ensures RecvPeer(rank, n, i) == (rank - i + n) % n
    ensures SendPeer(rank, n, i) == (rank + i) % n
    ensures RecvDist(rank, n, i) == (rank - i + n) % n
    ensures SendDist(rank, n, i) == (i - rank + n) % n
  {
    Mod(rank - i + n, n);
    Mod(rank + i, n);
    Mod(i - rank + n, n);
  }

  /** Every distance 1..n-1 names a peer other than self, the distance of
      that peer is `i` again, and the two peers coincide exactly when the
      distance is half the ring. */
  lemma Distance(rank: int, n: int, i: int)
    requires 0 <= rank < n && 1 <= i < n
    ensures 0 <= RecvPeer(rank, n, i) < n && RecvPeer(rank, n, i) != rank
    ensures 0 <= SendPeer(rank, n, i) < n && SendPeer(rank, n, i) != rank
    ensures RecvDist(rank, n, RecvPeer(rank, n, i)) == i
    ensures SendDist(rank, n, SendPeer(rank, n, i)) == i
    ensures RecvPeer(rank, n, i) == SendPeer(rank, n, i) <==> 2 * i == n
  {
  }

  /** Every peer other than self is reached at one distance in 1..n-1. */
  lemma PeerDistance(rank: int, n: int, q: int)
    requires 0 <= rank < n && 0 <= q < n && q != rank
    ensures 1 <= RecvDist(rank, n, q) < n && RecvPeer(rank, n, RecvDist(rank, n, q)) == q
    ensures 1 <= SendDist(rank, n, q) < n && SendPeer(rank, n, SendDist(rank, n, q)) == q
  {
  }

  /** `(i<<8) + (graph ? graph->id+1 : 0)`: the tag of the handle exchange. */
  function ExchangeTag(i: int, graphId: Option<int>): int
    requires i >= 0
  {
    i * 256 + (match graphId case Some(g) => g + 1 case None => 0)
  }

  /** `(i << 8) + (1 << 7) + (graph ? graph->id + 1 : 0)`: the barrier tag. */
  function BarrierTag(i: int, graphId: Option<int>): int
    requires i >= 0
  {
    i * 256 + 128 + (match graphId case Some(g) => g + 1 case None => 0)
  }

  /** With graph ids in 0..126, the exchange and barrier tags of all
      distances are pairwise distinct, so no barrier flag can be matched
      against a handle message. */
  lemma TagsDistinct(i: int, j: int, graphId: Option<int>)
    requires i >= 0 && j >= 0
    requires graphId.Some? ==> 0 <= graphId.value < 127
    ensures ExchangeTag(i, graphId) != BarrierTag(j, graphId)
    ensures i != j ==> ExchangeTag(i, graphId) != ExchangeTag(j, graphId)
    ensures i != j ==> BarrierTag(i, graphId) != BarrierTag(j, graphId)
  {
    var g := match graphId case Some(x) => x + 1 case None => 0;
    assert 0 <= g < 128;
  }

  /** Whether the round that started after distance `done` drains at
      distance `i`: `i-done == maxPeers || i == nRanks-1`. */
  predicate DrainsAt(done: int, i: int, n: int, maxPeers: int) {
    i - done == maxPeers || i == n - 1
  }

  /** The rounds, as (first, last) distance pairs, into which the distances
      `start..n-1` fall. */
  function Rounds(start: int, n: int, maxPeers: int): seq<(int, int)>
    requires 1 <= start && maxPeers > 0
    decreases n - start
  {
    if start >= n then []
    else
      var last := if start + maxPeers - 1 < n - 1 then start + maxPeers - 1 else n - 1;
      [(start, last)] + Rounds(last + 1, n, maxPeers)
  }

  /** The rounds partition `start..n-1` into consecutive runs of at most
      `maxPeers` distances, each but the last of exactly `maxPeers`. */
  lemma {:induction false} RoundsPartition(start: int, n: int, maxPeers: int)
    requires 1 <= start <= n && maxPeers > 0
    ensures var rs := Rounds(start, n, maxPeers);
      && (rs == [] <==> start == n)
      && (rs != [] ==> rs[0].0 == start && rs[|rs| - 1].1 == n - 1)
      && (forall k :: 0 <= k < |rs| ==> rs[k].0 <= rs[k].1 < rs[k].0 + maxPeers)
      && (forall k :: 0 <= k < |rs| - 1 ==> rs[k].1 + 1 == rs[k + 1].0 && rs[k].1 - rs[k].0 + 1 == maxPeers)
    decreases n - start
  {
    if start < n {
      var last := if start + maxPeers - 1 < n - 1 then start + maxPeers - 1 else n - 1;
      RoundsPartition(last + 1, n, maxPeers);
      var rest := Rounds(last + 1, n, maxPeers);
      var rs := [(start, last)] + rest;
      assert Rounds(start, n, maxPeers) == rs;
      assert rest != [] ==> last + 1 < n && last == start + maxPeers - 1 && rest[0].0 == last + 1;
      forall k | 0 <= k < |rs|
        ensures rs[k].0 <= rs[k].1 < rs[k].0 + maxPeers
      {
        if k > 0 {
          assert rs[k] == rest[k - 1];
        }
      }
      forall k | 0 <= k < |rs| - 1
        ensures rs[k].1 + 1 == rs[k + 1].0 && rs[k].1 - rs[k].0 + 1 == maxPeers
      {
        if k > 0 {
          assert rs[k] == rest[k - 1] && rs[k + 1] == rest[k];
        }
      }
      assert rest != [] ==> rs[|rs| - 1] == rest[|rest| - 1];
    }
  }

  /** Draining at the first distance `i` after `done` that satisfies the
      drain test produces exactly the head round of `Rounds(done + 1, ...)`. */
  lemma {:induction false} DrainIsRound(done: int, i: int, n: int, maxPeers: int)
    requires 0 <= done < i < n && maxPeers > 0 && i - done <= maxPeers
    requires DrainsAt(done, i, n, maxPeers)
    requires forall j :: done < j < i ==> !DrainsAt(done, j, n, maxPeers)
    ensures Rounds(done + 1, n, maxPeers) == [(done + 1, i)] + Rounds(i + 1, n, maxPeers)
  {
    if done + maxPeers < n - 1 {
      assert i == done + maxPeers;
    } else {
      assert !DrainsAt(done, n - 2, n, maxPeers) || n - 2 <= done;
    }
  }
}
