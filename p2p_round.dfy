/** The retry loop of one connection round of the point-to-point setup
    (src/transport.cc:159-235): passes over the distances `done+1..last` of
    the round, each draining every distance in order, until a pass in which
    every connector of the round ended connected. */
module P2pRound {
  import opened Types
  import opened CommState
  import opened Ring
  import opened P2pDrain

  /** One round as the retry loop sees it: this rank, the ring size, the
      distances `done+1..last`, the connection index, the intent masks and,
      per slot `p = j-(done+1)`, the offsets of the recv and send halves in
      the slot's block. */
  datatype Round = Round(rank: int, n: int, done: int, last: int, connIndex: int,
                         recvMasks: seq<Mask>, sendMasks: seq<Mask>, recvOffs: seq<int>, sendOffs: seq<int>)

  predicate RoundOk(R: Round) {
    && 0 <= R.rank < R.n && |R.recvMasks| == R.n && |R.sendMasks| == R.n
    && 0 <= R.done < R.last < R.n
    && |R.recvOffs| >= R.last - R.done && |R.sendOffs| >= R.last - R.done
  }

  /** The distance at which connector `k`'s peer is reached in its direction. */
  function KeyDist(R: Round, k: ConnKey): int
    requires RoundOk(R) && 0 <= k.peer < R.n
  {
    if k.dir == Send then SendDist(R.rank, R.n, k.peer) else RecvDist(R.rank, R.n, k.peer)
  }

  /** Connector `k` is one the round connects: its peer is reached at a
      distance of the round and its channel is in that peer's mask. */
  predicate InRound(R: Round, k: ConnKey)
    requires RoundOk(R)
  {
    && k.index == R.connIndex && 0 <= k.peer < R.n && k.peer != R.rank && 0 <= k.channel < MaxChannels
    && R.done < KeyDist(R, k) <= R.last
    && k.channel in (if k.dir == Send then R.sendMasks[k.peer] else R.recvMasks[k.peer])
  }

  /** Connector `k` is one of the round's distances up to `j`. */
  predicate InRoundTo(R: Round, k: ConnKey, j: int)
    requires RoundOk(R)
  {
    InRound(R, k) && KeyDist(R, k) <= j
  }

  /** Whether distance `j` has anything to connect. */
  predicate NonEmpty(R: Round, j: int)
    requires RoundOk(R) && R.done < j <= R.last
  {
    R.recvMasks[RecvPeer(R.rank, R.n, j)] != {} || R.sendMasks[SendPeer(R.rank, R.n, j)] != {}
  }

  /** Distance `j` of the round, with the blocks `blks` in the slots. */
  function SlotAt(R: Round, blks: seq<Buf>, j: int): Slot
    requires RoundOk(R) && R.done < j <= R.last && |blks| >= R.last - R.done
  {
    var p := j - (R.done + 1);
    var rp := RecvPeer(R.rank, R.n, j);
    var sp := SendPeer(R.rank, R.n, j);
    Slot(rp, sp, R.recvMasks[rp], R.sendMasks[sp], blks[p], p, R.recvOffs[p], R.sendOffs[p], R.connIndex)
  }

  /** The handle reference the round hands connector `k` in a pass that
      starts with connectors `conns` and blocks `blks`. */
  function RoundRef(R: Round, blks: seq<Buf>, conns: map<ConnKey, Connector>, k: ConnKey): HandleRef
    requires RoundOk(R) && InRound(R, k) && |blks| >= R.last - R.done
  {
    PeerRef(conns, k, SlotAt(R, blks, KeyDist(R, k)))
  }

  /** `blks` is `blks0` with the blocks of the non-empty distances up to `j` freed. */
  predicate FreedTo(R: Round, blks0: seq<Buf>, blks: seq<Buf>, j: int)
    requires RoundOk(R) && j <= R.last
  {
    && |blks| == |blks0|
    && forall p :: 0 <= p < |blks| ==>
         blks[p] == (if p < j - R.done && NonEmpty(R, R.done + 1 + p) then Null else blks0[p])
  }

  /** The connectors of distance `j` are exactly the round's connectors at distance `j`. */
  lemma SlotKeys(R: Round, blks: seq<Buf>, j: int)
    requires RoundOk(R) && R.done < j <= R.last && |blks| >= R.last - R.done
    ensures forall k :: InPeer(k, SlotAt(R, blks, j), MaxChannels, false) <==> InRound(R, k) && KeyDist(R, k) == j
  {
    Distance(R.rank, R.n, j);
    forall k ensures InPeer(k, SlotAt(R, blks, j), MaxChannels, false) <==> InRound(R, k) && KeyDist(R, k) == j {
      if 0 <= k.peer < R.n && k.peer != R.rank {
        PeerDistance(R.rank, R.n, k.peer);
      }
    }
  }

  /** A connector of the round lies in a distance with something to connect. */
  lemma InRoundNonEmpty(R: Round, k: ConnKey)
    requires RoundOk(R) && InRound(R, k)
    ensures NonEmpty(R, KeyDist(R, k))
  {
    PeerDistance(R.rank, R.n, k.peer);
  }

  /** The pass over distances `done+1..j`, started from `v0` with blocks
      `blks0`: every connector of those distances was visited with the
      reference the round hands it, nothing else changed, their blocks are
      freed, and the all-connected flag is as in `PeerDrained`. */
  ghost predicate PassState(be: Backends, pass: nat, R: Round, blks0: seq<Buf>, v0: View, j: int, v: View,
                            blks: seq<Buf>, all: bool)
    requires RoundOk(R)
  {
    && R.done <= j <= R.last && |blks0| >= R.last - R.done
    && Sound(be, v0, v)
    && (forall k :: InRoundTo(R, k, j) ==> Visited(be, pass, k, RoundRef(R, blks0, v0.conns, k), v0, v))
    && (forall k :: !InRoundTo(R, k, j) ==> Untouched(k, v0, v))
    && (all ==> forall k :: InRoundTo(R, k, j) ==> Get(v.conns, k).connected)
    && (NoInProgressAt(be, pass) ==> all)
    && FreedTo(R, blks0, blks, j)
  }

  /** The reference distance `j` hands a connector in its own drain is the
      one the round hands it: the connectors of earlier distances, which
      are the only ones changed before, do not move its offset counter. */
  lemma RefFrame(R: Round, blks0: seq<Buf>, v0: View, j: int, v: View, k: ConnKey)
    requires RoundOk(R) && R.done < j <= R.last && |blks0| >= R.last - R.done
    requires forall q :: !InRoundTo(R, q, j - 1) ==> Untouched(q, v0, v)
    requires InRound(R, k) && KeyDist(R, k) == j
    ensures PeerRef(v.conns, k, SlotAt(R, blks0, j)) == RoundRef(R, blks0, v0.conns, k)
  {
    var S := SlotAt(R, blks0, j);
    forall c' | 0 <= c' < k.channel
      ensures Get(v0.conns, ConnKey(k.dir, c', k.peer, k.index)).connected
           == Get(v.conns, ConnKey(k.dir, c', k.peer, k.index)).connected
    {
      var q := ConnKey(k.dir, c', k.peer, k.index);
      assert KeyDist(R, q) == KeyDist(R, k);
      assert Untouched(q, v0, v);
    }
    PendingFrame(v0.conns, v.conns, k.dir, k.peer, k.index, DirMask(S, k.dir), k.channel);
  }

  /** Visiting connector `k` during distance `j` is visiting it during the pass. */
  lemma VisitedCompose(be: Backends, pass: nat, k: ConnKey, ref: HandleRef, v0: View, v: View, v': View)
    requires Untouched(k, v0, v) && Visited(be, pass, k, ref, v, v')
    ensures Visited(be, pass, k, ref, v0, v')
  {
  }

  /** A connector visited earlier in the pass and untouched since stays visited. */
  lemma VisitedThen(be: Backends, pass: nat, k: ConnKey, ref: HandleRef, v0: View, v: View, v': View)
    requires Visited(be, pass, k, ref, v0, v) && Untouched(k, v, v')
    ensures Visited(be, pass, k, ref, v0, v')
  {
  }

  /** The visited and untouched connectors after draining distance `j`. */
  lemma PassStepKeys(be: Backends, pass: nat, R: Round, blks0: seq<Buf>, v0: View, j: int, v: View, v': View,
                     allIn: bool, all: bool)
    requires RoundOk(R) && R.done < j <= R.last && |blks0| >= R.last - R.done
    requires forall k :: InRoundTo(R, k, j - 1) ==> Visited(be, pass, k, RoundRef(R, blks0, v0.conns, k), v0, v)
    requires forall k :: !InRoundTo(R, k, j - 1) ==> Untouched(k, v0, v)
    requires PeerDrained(be, pass, SlotAt(R, blks0, j), allIn, v, v', all)
    ensures forall k :: InRoundTo(R, k, j) ==> Visited(be, pass, k, RoundRef(R, blks0, v0.conns, k), v0, v')
    ensures forall k :: !InRoundTo(R, k, j) ==> Untouched(k, v0, v')
  {
    var S := SlotAt(R, blks0, j);
    SlotKeys(R, blks0, j);
    forall k | InRoundTo(R, k, j)
      ensures Visited(be, pass, k, RoundRef(R, blks0, v0.conns, k), v0, v')
    {
      if KeyDist(R, k) == j {
        RefFrame(R, blks0, v0, j, v, k);
        assert Visited(be, pass, k, PeerRef(v.conns, k, S), v, v');
        VisitedCompose(be, pass, k, RoundRef(R, blks0, v0.conns, k), v0, v, v');
      } else {
        assert !InPeer(k, S, MaxChannels, false);
        VisitedThen(be, pass, k, RoundRef(R, blks0, v0.conns, k), v0, v, v');
      }
    }
    forall k | !InRoundTo(R, k, j)
      ensures Untouched(k, v0, v')
    {
      assert !InPeer(k, S, MaxChannels, false);
      assert Untouched(k, v0, v) && Untouched(k, v, v');
    }
  }

  /** The all-connected flag after draining distance `j`. */
  lemma PassStepAll(be: Backends, pass: nat, R: Round, blks0: seq<Buf>, j: int, v: View, v': View,
                    allIn: bool, all: bool)
    requires RoundOk(R) && R.done < j <= R.last && |blks0| >= R.last - R.done
    requires allIn ==> forall k :: InRoundTo(R, k, j - 1) ==> Get(v.conns, k).connected
    requires NoInProgressAt(be, pass) ==> allIn
    requires PeerDrained(be, pass, SlotAt(R, blks0, j), allIn, v, v', all)
    ensures all ==> forall k :: InRoundTo(R, k, j) ==> Get(v'.conns, k).connected
    ensures NoInProgressAt(be, pass) ==> all
  {
    var S := SlotAt(R, blks0, j);
    SlotKeys(R, blks0, j);
    if all {
      forall k | InRoundTo(R, k, j)
        ensures Get(v'.conns, k).connected
      {
        if KeyDist(R, k) != j {
          assert !InPeer(k, S, MaxChannels, false);
          assert Untouched(k, v, v');
        }
      }
    }
  }

  /** Freeing the block of distance `j` extends the freed prefix by one. */
  lemma FreedStep(R: Round, blks0: seq<Buf>, blks: seq<Buf>, j: int, blks': seq<Buf>)
    requires RoundOk(R) && R.done < j <= R.last && |blks0| >= R.last - R.done
    requires FreedTo(R, blks0, blks, j - 1)
    requires blks' == if NonEmpty(R, j) then blks[j - (R.done + 1) := Null] else blks
    ensures FreedTo(R, blks0, blks', j)
  {
  }

  /** Draining distance `j` and freeing its block advances the pass by one distance. */
  lemma PassStep(be: Backends, pass: nat, R: Round, blks0: seq<Buf>, v0: View, j: int, v: View, blks: seq<Buf>,
                 allIn: bool, v': View, all: bool, blks': seq<Buf>)
    requires RoundOk(R) && R.done < j <= R.last
    requires PassState(be, pass, R, blks0, v0, j - 1, v, blks, allIn)
    requires Sound(be, v, v') && PeerDrained(be, pass, SlotAt(R, blks0, j), allIn, v, v', all)
    requires blks' == if NonEmpty(R, j) then blks[j - (R.done + 1) := Null] else blks
    ensures PassState(be, pass, R, blks0, v0, j, v', blks', all)
  {
    SoundTrans(be, v0, v, v');
    PassStepKeys(be, pass, R, blks0, v0, j, v, v', allIn, all);
    PassStepAll(be, pass, R, blks0, j, v, v', allIn, all);
    FreedStep(R, blks0, blks, j, blks');
  }

  /** No connector of the round can fail to connect. */
  ghost predicate ConnectsOk(be: Backends, cuda: Cuda, R: Round)
    requires RoundOk(R)
  {
    forall k {:trigger KeyOk(be, cuda, k)} :: InRound(R, k) ==> KeyOk(be, cuda, k)
  }

  /** One retry pass, the `for (int j=done+1; j<=i; j++)` loop of
      src/transport.cc:164-219: with `allChannelsConnected` set, drains every
      distance of the round in order and frees the block of each distance
      with a non-empty mask. */
  method DrainPass(comm: Comm, be: Backends, cuda: Cuda, R: Round, data: array<Buf>, recvOff: array<int>,
                   sendOff: array<int>, pass: nat, stIn: Status)
    returns (st: Status, all: bool)
    requires RoundOk(R) && !Failed(stIn)
    requires comm.rank == R.rank && comm.nRanks == R.n
    requires comm.connectRecv == R.recvMasks && comm.connectSend == R.sendMasks
    requires data.Length >= R.last - R.done && recvOff[..] == R.recvOffs && sendOff[..] == R.sendOffs
    modifies comm`conns, comm`connectedBy, comm`published, data
    ensures Sound(be, old(comm.Snapshot()), comm.Snapshot())
    ensures ConnectsOk(be, cuda, R) ==> !Failed(st)
    ensures !Failed(st) ==> PassState(be, pass, R, old(data[..]), old(comm.Snapshot()), R.last, comm.Snapshot(), data[..], all)
  {
    ghost var v0, blks0 := comm.Snapshot(), data[..];
    SoundRefl(be, v0);
    st, all := stIn, true;
    for j := R.done + 1 to R.last + 1
      invariant !Failed(st)
      invariant PassState(be, pass, R, blks0, v0, j - 1, comm.Snapshot(), data[..], all)
    {
      var p := j - (R.done + 1);
      var recvPeer := RecvPeer(comm.rank, comm.nRanks, j);
      var sendPeer := SendPeer(comm.rank, comm.nRanks, j);
      var recvMask := comm.connectRecv[recvPeer];
      var sendMask := comm.connectSend[sendPeer];
      var S := Slot(recvPeer, sendPeer, recvMask, sendMask, data[p], p, recvOff[p], sendOff[p], R.connIndex);
      assert S == SlotAt(R, blks0, j);
      ghost var v, blks, allIn := comm.Snapshot(), data[..], all;
      st, all := DrainPeer(comm, be, cuda, S, pass, st, all);
      if Failed(st) {
        SoundTrans(be, v0, v, comm.Snapshot());
        SlotKeys(R, blks0, j);
        return;
      }
      if sendMask != {} || recvMask != {} {
        data[p] := Null;
      }
      PassStep(be, pass, R, blks0, v0, j, v, blks, allIn, comm.Snapshot(), all, data[..]);
    }
  }

  /** What the round recorded for connector `k`, which it connected: the
      call that connected it and the descriptor published for it. A call in
      the first pass was handed the reference the round computes from the
      blocks and connectors at the start; a call in a later pass was handed
      a pointer into a block already freed. */
  ghost predicate RecOk(R: Round, B0: seq<Buf>, V0: View, v: View, k: ConnKey)
    requires RoundOk(R) && InRound(R, k) && |B0| >= R.last - R.done
  {
    && k in v.rec && k in v.pub && v.pub[k] == P2pDesc(v.rec[k].0)
    && (v.rec[k].1 == 0 ==> v.rec[k].0 == RoundRef(R, B0, V0.conns, k))
    && (v.rec[k].1 > 0 ==> v.rec[k].0.Dangling?)
  }

  /** The retry loop before pass `pass`, starting from `V0` with the blocks `B0`. */
  ghost predicate BatchState(be: Backends, R: Round, B0: seq<Buf>, V0: View, pass: nat, v: View, blks: seq<Buf>, all: bool)
    requires RoundOk(R)
  {
    && |B0| >= R.last - R.done
    && (pass == 0 ==> v == V0 && blks == B0 && !all)
    && (pass > 0 ==> FreedTo(R, B0, blks, R.last))
    && Sound(be, V0, v)
    && (forall k :: !InRound(R, k) || Get(V0.conns, k).connected ==> Untouched(k, V0, v))
    && (forall k :: InRound(R, k) && !Get(V0.conns, k).connected && Get(v.conns, k).connected ==> RecOk(R, B0, V0, v, k))
    && (all ==> forall k :: InRound(R, k) ==> Get(v.conns, k).connected)
  }

  /** In a pass after the first every block of the round is freed, so the
      reference handed to any connector of the round dangles. */
  lemma LaterRefDangles(R: Round, B0: seq<Buf>, blks: seq<Buf>, conns: map<ConnKey, Connector>, k: ConnKey)
    requires RoundOk(R) && |B0| >= R.last - R.done && FreedTo(R, B0, blks, R.last) && InRound(R, k)
    ensures RoundRef(R, blks, conns, k).Dangling?
  {
    InRoundNonEmpty(R, k);
  }

  /** The records of the round's connectors after one more pass. */
  lemma BatchStepRec(be: Backends, R: Round, B0: seq<Buf>, V0: View, pass: nat, v: View, blks: seq<Buf>,
                     v': View, blks': seq<Buf>, all': bool)
    requires RoundOk(R)
    requires BatchState(be, R, B0, V0, pass, v, blks, false)
    requires PassState(be, pass, R, blks, v, R.last, v', blks', all')
    ensures forall k :: InRound(R, k) && !Get(V0.conns, k).connected && Get(v'.conns, k).connected ==> RecOk(R, B0, V0, v', k)
  {
    forall k | InRound(R, k) && !Get(V0.conns, k).connected && Get(v'.conns, k).connected
      ensures RecOk(R, B0, V0, v', k)
    {
      assert InRoundTo(R, k, R.last);
      var ref := RoundRef(R, blks, v.conns, k);
      assert Visited(be, pass, k, ref, v, v');
      if Get(v.conns, k).connected {
        assert RecOk(R, B0, V0, v, k) && Untouched(k, v, v');
      } else {
        assert v'.rec[k] == (ref, pass);
        if pass > 0 {
          LaterRefDangles(R, B0, blks, v.conns, k);
        }
      }
    }
  }

  /** One more retry pass keeps the state of the retry loop. */
  lemma BatchStep(be: Backends, R: Round, B0: seq<Buf>, V0: View, pass: nat, v: View, blks: seq<Buf>,
                  v': View, blks': seq<Buf>, all': bool)
    requires RoundOk(R)
    requires BatchState(be, R, B0, V0, pass, v, blks, false)
    requires PassState(be, pass, R, blks, v, R.last, v', blks', all')
    ensures BatchState(be, R, B0, V0, pass + 1, v', blks', all')
  {
    SoundTrans(be, V0, v, v');
    BatchStepRec(be, R, B0, V0, pass, v, blks, v', blks', all');
    forall k | !InRound(R, k) || Get(V0.conns, k).connected
      ensures Untouched(k, V0, v')
    {
      assert Untouched(k, V0, v);
      if InRound(R, k) {
        assert InRoundTo(R, k, R.last);
        assert Visited(be, pass, k, RoundRef(R, blks, v.conns, k), v, v');
      } else {
        assert !InRoundTo(R, k, R.last);
      }
    }
    if all' {
      forall k | InRound(R, k) ensures Get(v'.conns, k).connected {
        assert InRoundTo(R, k, R.last);
      }
    }
  }

  /** The retry loop has finished the round: every connector of the round
      is connected and recorded as `RecOk` says if this loop connected it,
      every other connector and every connector connected before is as it
      was, and every non-empty distance's block is freed. */
  ghost predicate BatchDone(be: Backends, R: Round, B0: seq<Buf>, V0: View, v: View, blks: seq<Buf>)
    requires RoundOk(R)
  {
    && |B0| >= R.last - R.done
    && FreedTo(R, B0, blks, R.last)
    && Sound(be, V0, v)
    && (forall k :: !InRound(R, k) || Get(V0.conns, k).connected ==> Untouched(k, V0, v))
    && (forall k :: InRound(R, k) && !Get(V0.conns, k).connected ==> Get(v.conns, k).connected && RecOk(R, B0, V0, v, k))
  }

  /** The `while (!allChannelsConnected)` loop of src/transport.cc:163-233.
      It ends once the backend stops answering in-progress, which
      EventuallyConnects assumes of it from pass `bound` on. */
  method DrainBatch(comm: Comm, be: Backends, cuda: Cuda, R: Round, data: array<Buf>, recvOff: array<int>,
                    sendOff: array<int>, ghost bound: nat, stIn: Status)
    returns (st: Status)
    requires RoundOk(R) && !Failed(stIn) && EventuallyConnects(be, bound)
    requires comm.rank == R.rank && comm.nRanks == R.n
    requires comm.connectRecv == R.recvMasks && comm.connectSend == R.sendMasks
    requires data.Length >= R.last - R.done && recvOff[..] == R.recvOffs && sendOff[..] == R.sendOffs
    modifies comm`conns, comm`connectedBy, comm`published, data
    ensures Sound(be, old(comm.Snapshot()), comm.Snapshot())
    ensures ConnectsOk(be, cuda, R) ==> !Failed(st)
    ensures !Failed(st) ==> BatchDone(be, R, old(data[..]), old(comm.Snapshot()), comm.Snapshot(), data[..])
  {
    ghost var V0, B0 := comm.Snapshot(), data[..];
    SoundRefl(be, V0);
    st := stIn;
    var all := false;
    var pass: nat := 0;
    while !all
      invariant !Failed(st) && (!all ==> pass <= bound)
      invariant BatchState(be, R, B0, V0, pass, comm.Snapshot(), data[..], all)
      decreases bound + 1 - pass
    {
      ghost var v, blks := comm.Snapshot(), data[..];
      st, all := DrainPass(comm, be, cuda, R, data, recvOff, sendOff, pass, st);
      if Failed(st) {
        SoundTrans(be, V0, v, comm.Snapshot());
        return;
      }
      assert pass >= bound ==> NoInProgressAt(be, pass);
      BatchStep(be, R, B0, V0, pass, v, blks, comm.Snapshot(), data[..], all);
      pass := pass + 1;
    }
  }
}
