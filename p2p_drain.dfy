/** The connect phase of one round of the point-to-point setup
    (src/transport.cc:159-233): retry passes over the distances of the round,
    each visiting, per peer and in increasing channel order, the send and
    then the recv connector of every channel of the masks, and calling the
    backend `connect` on the ones not yet connected. */
module P2pDrain {
  import opened Types
  import opened CommState
  import opened Ring

  /** The number of channels of `mask` below `c` whose `dir` connector to
      `peer` is not connected in `conns`: the value of the data offset
      counter when channel `c` is visited, because the counter advances
      only for connectors that are still unconnected. */
  function Pending(conns: map<ConnKey, Connector>, dir: Dir, peer: int, connIndex: int, mask: Mask, c: int): (k: nat)
    requires 0 <= c <= MaxChannels
    ensures k <= CountBelow(mask, c)
    decreases c
  {
    if c == 0 then 0
    else Pending(conns, dir, peer, connIndex, mask, c - 1)
         + (if c - 1 in mask && !Get(conns, ConnKey(dir, c - 1, peer, connIndex)).connected then 1 else 0)
  }

  /** When no connector of the mask is connected yet, channel `c` reads the
      slot CountBelow(mask, c): the slot its handle was packed into. */
  lemma {:induction false} PendingFresh(conns: map<ConnKey, Connector>, dir: Dir, peer: int, connIndex: int, mask: Mask, c: int)
    requires 0 <= c <= MaxChannels
    requires forall c' :: 0 <= c' < c && c' in mask ==> !Get(conns, ConnKey(dir, c', peer, connIndex)).connected
    ensures Pending(conns, dir, peer, connIndex, mask, c) == CountBelow(mask, c)
    decreases c
  {
    if c > 0 {
      PendingFresh(conns, dir, peer, connIndex, mask, c - 1);
    }
  }

  /** Once some lower channel of the mask is connected, channel `c` reads a
      slot below the one its handle was packed into. */
  lemma {:induction false} PendingShifted(conns: map<ConnKey, Connector>, dir: Dir, peer: int, connIndex: int, mask: Mask,
                                          c: int, c': int)
    requires 0 <= c' < c <= MaxChannels && c' in mask
    requires Get(conns, ConnKey(dir, c', peer, connIndex)).connected
    ensures Pending(conns, dir, peer, connIndex, mask, c) < CountBelow(mask, c)
    decreases c
  {
    if c' < c - 1 {
      PendingShifted(conns, dir, peer, connIndex, mask, c - 1, c');
    }
  }

  /** The counter depends only on the `connected` flags of the channels below `c`. */
  lemma {:induction false} PendingFrame(a: map<ConnKey, Connector>, b: map<ConnKey, Connector>, dir: Dir, peer: int,
                                        connIndex: int, mask: Mask, c: int)
    requires 0 <= c <= MaxChannels
    requires forall c' :: 0 <= c' < c ==> Get(a, ConnKey(dir, c', peer, connIndex)).connected == Get(b, ConnKey(dir, c', peer, connIndex)).connected
    ensures Pending(a, dir, peer, connIndex, mask, c) == Pending(b, dir, peer, connIndex, mask, c)
    decreases c
  {
    if c > 0 {
      PendingFrame(a, b, dir, peer, connIndex, mask, c - 1);
    }
  }

  /** Key `k` is bound to the same value in both maps, or to none in both. */
  predicate MapSame<K, V(==)>(a: map<K, V>, b: map<K, V>, k: K) {
    (k in a <==> k in b) && (k in a ==> a[k] == b[k])
  }

  /** Connector `k` changed at most its `connected` flag; a connected
      connector stays connected with the same record of how it connected;
      a connector that became connected did so by a `connect` call that
      returned success. */
  ghost predicate Progressed(be: Backends, k: ConnKey, v0: View, v: View) {
    && Get(v.conns, k).(connected := Get(v0.conns, k).connected) == Get(v0.conns, k)
    && (Get(v0.conns, k).connected ==> Get(v.conns, k).connected && MapSame(v0.rec, v.rec, k))
    && (!Get(v0.conns, k).connected && Get(v.conns, k).connected ==> k in v.rec && be.connect(k, v.rec[k].0, v.rec[k].1) == Success)
  }

  /** `Progressed` for every connector. */
  ghost predicate Sound(be: Backends, v0: View, v: View) {
    forall k :: Progressed(be, k, v0, v)
  }

  /** Progress composes: two sound steps make a sound step. */
  lemma SoundTrans(be: Backends, v0: View, v1: View, v2: View)
    requires Sound(be, v0, v1) && Sound(be, v1, v2)
    ensures Sound(be, v0, v2)
  {
    forall k ensures Progressed(be, k, v0, v2) {
      assert Progressed(be, k, v0, v1) && Progressed(be, k, v1, v2);
    }
  }

  /** Nothing changed is a sound step. */
  lemma SoundRefl(be: Backends, v: View)
    ensures Sound(be, v, v)
  {
    forall k ensures Progressed(be, k, v, v) {
    }
  }

  /** Connector `k` and what is recorded about it are as before. */
  ghost predicate Untouched(k: ConnKey, v0: View, v: View) {
    Get(v.conns, k) == Get(v0.conns, k) && MapSame(v0.rec, v.rec, k) && MapSame(v0.pub, v.pub, k)
  }

  /** Connector `k` was visited in retry pass `pass` with the handle
      reference `ref`: an already connected connector is skipped; otherwise
      `connect` is called, and on success the connector is marked connected,
      the call is recorded and its descriptor is published; on in-progress
      nothing changes. */
  ghost predicate Visited(be: Backends, pass: nat, k: ConnKey, ref: HandleRef, v0: View, v: View) {
    if !Get(v0.conns, k).connected && be.connect(k, ref, pass) == Success then
      && Get(v.conns, k) == Get(v0.conns, k).(connected := true)
      && k in v.rec && v.rec[k] == (ref, pass) && k in v.pub && v.pub[k] == P2pDesc(ref)
    else Untouched(k, v0, v)
  }

  /** The view once a successful `connect` of the unconnected connector `k`
      is recorded and, when `pub`, its descriptor published: a sound step
      that leaves every other connector untouched. */
  lemma ConnectedView(be: Backends, v0: View, k: ConnKey, ref: HandleRef, pass: nat, pub: bool, v: View)
    requires !Get(v0.conns, k).connected && be.connect(k, ref, pass) == Success
    requires v == View(v0.conns[k := Get(v0.conns, k).(connected := true)], v0.rec[k := (ref, pass)],
                       if pub then v0.pub[k := P2pDesc(ref)] else v0.pub)
    ensures Sound(be, v0, v)
    ensures forall q :: q != k ==> Untouched(q, v0, v)
    ensures pub ==> Visited(be, pass, k, ref, v0, v)
  {
    forall q ensures Progressed(be, q, v0, v) {
    }
  }

  /** One `connect` call on the unconnected connector `k` (src/transport.cc:181-191
      and 200-211): on success the connector is marked connected and its
      connection info is copied to the device, a failed copy giving an
      unhandled-CUDA-error result. */
  method ConnectOne(comm: Comm, be: Backends, cuda: Cuda, k: ConnKey, ref: HandleRef, pass: nat)
    returns (st: Status)
    requires !comm.Conn(k).connected
    modifies comm`conns, comm`connectedBy, comm`published
    ensures var r := be.connect(k, ref, pass);
      st == (if r == Success && !cuda.copyOk(k) then CudaError else r)
    ensures Sound(be, old(comm.Snapshot()), comm.Snapshot())
    ensures forall q :: q != k ==> Untouched(q, old(comm.Snapshot()), comm.Snapshot())
    ensures !Failed(st) ==> Visited(be, pass, k, ref, old(comm.Snapshot()), comm.Snapshot())
  {
    ghost var v0 := comm.Snapshot();
    st := be.connect(k, ref, pass);
    if st == Success {
      ConnectedView(be, v0, k, ref, pass, cuda.copyOk(k),
                    View(v0.conns[k := Get(v0.conns, k).(connected := true)], v0.rec[k := (ref, pass)],
                         if cuda.copyOk(k) then v0.pub[k := P2pDesc(ref)] else v0.pub));
      comm.conns := comm.conns[k := comm.Conn(k).(connected := true)];
      comm.connectedBy := comm.connectedBy[k := (ref, pass)];
      if !cuda.copyOk(k) {
        st := CudaError;
        return;
      }
      comm.published := comm.published[k := P2pDesc(ref)];
    } else {
      SoundRefl(be, v0);
    }
  }

  /** Connector `k`'s `connect` fails with no handle and in no retry pass,
      and the copy of its connection info to the device succeeds. */
  ghost predicate KeyOk(be: Backends, cuda: Cuda, k: ConnKey) {
    cuda.copyOk(k) && forall h, pass: nat :: !Failed(be.connect(k, h, pass))
  }

  /** Visits connector `k` with the data offset counter at `off`: an
      unconnected connector is handed the handle at `base + off` of the
      block in slot `p`, and the counter advances. */
  method Visit(comm: Comm, be: Backends, cuda: Cuda, k: ConnKey, blk: Buf, p: int, base: int, off: int, pass: nat,
               stIn: Status, allIn: bool)
    returns (st: Status, off': int, all: bool)
    modifies comm`conns, comm`connectedBy, comm`published
    ensures off' == off + (if old(comm.Conn(k)).connected then 0 else 1)
    ensures old(comm.Conn(k)).connected ==> st == stIn && all == allIn
    ensures !Failed(stIn) && KeyOk(be, cuda, k) ==> !Failed(st)
    ensures Sound(be, old(comm.Snapshot()), comm.Snapshot())
    ensures forall q :: q != k ==> Untouched(q, old(comm.Snapshot()), comm.Snapshot())
    ensures !Failed(st) ==>
      && Visited(be, pass, k, ReadRef(blk, p, base + off), old(comm.Snapshot()), comm.Snapshot())
      && (all ==> allIn && comm.Conn(k).connected)
      && (NoInProgressAt(be, pass) && allIn ==> all)
  {
    if comm.Conn(k).connected {
      return stIn, off, allIn;
    }
    var ref := ReadRef(blk, p, base + off);
    off' := off + 1;
    all := allIn;
    st := ConnectOne(comm, be, cuda, k, ref, pass);
    if Failed(st) {
      return;
    }
    if st.InProgress? {
      all := false;
    }
  }

  /** One distance of a round as the drain sees it: its recv and send peers,
      their intent masks, the slot `p` of its handle block, the offsets of
      the recv and send halves in it (`recvData[p]`, `sendData[p]`), and the
      connection index. */
  datatype Slot = Slot(recvPeer: int, sendPeer: int, recvMask: Mask, sendMask: Mask, blk: Buf, p: int,
                       recvOff: int, sendOff: int, connIndex: int)

  function DirPeer(S: Slot, dir: Dir): int {
    if dir == Send then S.sendPeer else S.recvPeer
  }

  function DirMask(S: Slot, dir: Dir): Mask {
    if dir == Send then S.sendMask else S.recvMask
  }

  function DirOff(S: Slot, dir: Dir): int {
    if dir == Send then S.sendOff else S.recvOff
  }

  /** Connector `k` belongs to distance `S` and is visited before the point
      reached after channels `0..c-1` and, if `half`, the send connector of
      channel `c`: channel by channel, the send connector comes before the
      recv one. */
  predicate InPeer(k: ConnKey, S: Slot, c: int, half: bool) {
    && k.index == S.connIndex && 0 <= k.channel < MaxChannels
    && (k.channel < c || (half && k.channel == c && k.dir == Send))
    && k.peer == DirPeer(S, k.dir) && k.channel in DirMask(S, k.dir)
  }

  /** The connector visited next from that point. */
  function Next(S: Slot, c: int, half: bool): ConnKey {
    var dir := if half then Recv else Send;
    ConnKey(dir, c, DirPeer(S, dir), S.connIndex)
  }

  /** The handle reference connector `k` is handed in a pass that starts in
      `conns`: its direction's half of the block read at the offset counter. */
  function PeerRef(conns: map<ConnKey, Connector>, k: ConnKey, S: Slot): HandleRef
    requires 0 <= k.channel < MaxChannels
  {
    ReadRef(S.blk, S.p, DirOff(S, k.dir) + Pending(conns, k.dir, k.peer, k.index, DirMask(S, k.dir), k.channel))
  }

  /** The drain of distance `S` at the point (`c`, `half`), starting from
      `v0`: the offset counters, what every visited connector went through,
      and the all-connected flag. */
  ghost predicate PeerState(be: Backends, pass: nat, S: Slot, allIn: bool, v0: View, c: int, half: bool, v: View,
                            so: int, ro: int, all: bool)
  {
    && 0 <= c <= MaxChannels && (half ==> c < MaxChannels)
    && so == Pending(v0.conns, Send, S.sendPeer, S.connIndex, S.sendMask, if half then c + 1 else c)
    && ro == Pending(v0.conns, Recv, S.recvPeer, S.connIndex, S.recvMask, c)
    && Sound(be, v0, v)
    && (forall k :: InPeer(k, S, c, half) ==> Visited(be, pass, k, PeerRef(v0.conns, k, S), v0, v))
    && (forall k :: !InPeer(k, S, c, half) ==> Untouched(k, v0, v))
    && (all ==> allIn && forall k :: InPeer(k, S, c, half) ==> Get(v.conns, k).connected)
    && (NoInProgressAt(be, pass) && allIn ==> all)
  }

  /** The point after visiting the next connector. */
  function After(c: int, half: bool): (int, bool) {
    if half then (c + 1, false) else (c, true)
  }

  /** The visited connectors after the step: the earlier ones, and the next
      one if it belongs to the distance. */
  lemma StepVisited(be: Backends, pass: nat, S: Slot, v0: View, c: int, half: bool, v: View, v': View)
    requires 0 <= c < MaxChannels
    requires forall k :: InPeer(k, S, c, half) ==> Visited(be, pass, k, PeerRef(v0.conns, k, S), v0, v)
    requires forall q :: q != Next(S, c, half) ==> Untouched(q, v, v')
    requires Next(S, c, half).channel in DirMask(S, Next(S, c, half).dir) ==>
      Visited(be, pass, Next(S, c, half), PeerRef(v0.conns, Next(S, c, half), S), v0, v')
    ensures forall k :: InPeer(k, S, After(c, half).0, After(c, half).1) ==> Visited(be, pass, k, PeerRef(v0.conns, k, S), v0, v')
  {
    forall q | InPeer(q, S, After(c, half).0, After(c, half).1)
      ensures Visited(be, pass, q, PeerRef(v0.conns, q, S), v0, v')
    {
      if q != Next(S, c, half) {
        assert Visited(be, pass, q, PeerRef(v0.conns, q, S), v0, v) && Untouched(q, v, v');
      }
    }
  }

  /** The connectors not yet visited stay untouched. */
  lemma StepUntouched(S: Slot, v0: View, c: int, half: bool, v: View, v': View)
    requires 0 <= c < MaxChannels
    requires forall k :: !InPeer(k, S, c, half) ==> Untouched(k, v0, v)
    requires forall q :: q != Next(S, c, half) ==> Untouched(q, v, v')
    requires Next(S, c, half).channel !in DirMask(S, Next(S, c, half).dir) ==> Untouched(Next(S, c, half), v, v')
    ensures forall k :: !InPeer(k, S, After(c, half).0, After(c, half).1) ==> Untouched(k, v0, v')
  {
    forall q | !InPeer(q, S, After(c, half).0, After(c, half).1)
      ensures Untouched(q, v0, v')
    {
      assert Untouched(q, v0, v) && Untouched(q, v, v');
    }
  }

  /** The all-connected flag after the step. */
  lemma StepAll(be: Backends, pass: nat, S: Slot, allIn: bool, c: int, half: bool, v: View, v': View, all: bool, all': bool)
    requires 0 <= c < MaxChannels
    requires all ==> allIn && forall k :: InPeer(k, S, c, half) ==> Get(v.conns, k).connected
    requires NoInProgressAt(be, pass) && allIn ==> all
    requires forall q :: q != Next(S, c, half) ==> Untouched(q, v, v')
    requires all' ==> all && (Next(S, c, half).channel in DirMask(S, Next(S, c, half).dir) ==> Get(v'.conns, Next(S, c, half)).connected)
    requires NoInProgressAt(be, pass) && all ==> all'
    ensures all' ==> allIn && forall k :: InPeer(k, S, After(c, half).0, After(c, half).1) ==> Get(v'.conns, k).connected
    ensures NoInProgressAt(be, pass) && allIn ==> all'
  {
    if all' {
      forall q | InPeer(q, S, After(c, half).0, After(c, half).1)
        ensures Get(v'.conns, q).connected
      {
        if q != Next(S, c, half) {
          assert Untouched(q, v, v');
        }
      }
    }
  }

  /** One more channel adds one to the count when it is an unconnected
      connector of the mask. */
  lemma PendingNext(conns: map<ConnKey, Connector>, dir: Dir, peer: int, connIndex: int, mask: Mask, c: int)
    requires 0 <= c < MaxChannels
    ensures Pending(conns, dir, peer, connIndex, mask, c + 1)
            == Pending(conns, dir, peer, connIndex, mask, c)
               + (if c in mask && !Get(conns, ConnKey(dir, c, peer, connIndex)).connected then 1 else 0)
  {
  }

  /** The offset counters after the step: the visited direction's counter
      moves past the connector when it was still unconnected. */
  lemma StepOffsets(S: Slot, v0: View, c: int, half: bool, v: View, so: int, ro: int, off': int)
    requires 0 <= c < MaxChannels
    requires so == Pending(v0.conns, Send, S.sendPeer, S.connIndex, S.sendMask, if half then c + 1 else c)
    requires ro == Pending(v0.conns, Recv, S.recvPeer, S.connIndex, S.recvMask, c)
    requires Get(v.conns, Next(S, c, half)) == Get(v0.conns, Next(S, c, half))
    requires var k := Next(S, c, half);
      var off := if half then ro else so;
      if c in DirMask(S, k.dir) then off' == off + (if Get(v.conns, k).connected then 0 else 1) else off' == off
    ensures var c', half' := After(c, half).0, After(c, half).1;
      && (if half then so else off') == Pending(v0.conns, Send, S.sendPeer, S.connIndex, S.sendMask,
                                                if half' then c' + 1 else c')
      && (if half then off' else ro) == Pending(v0.conns, Recv, S.recvPeer, S.connIndex, S.recvMask, c')
  {
    if half {
      PendingNext(v0.conns, Recv, S.recvPeer, S.connIndex, S.recvMask, c);
    } else {
      PendingNext(v0.conns, Send, S.sendPeer, S.connIndex, S.sendMask, c);
    }
  }

  /** Visiting the next connector advances the drain state by one connector. */
  lemma DrainStep(be: Backends, pass: nat, S: Slot, allIn: bool, v0: View, c: int, half: bool, v: View,
                  so: int, ro: int, all: bool, v': View, off': int, all': bool)
    requires 0 <= c < MaxChannels
    requires PeerState(be, pass, S, allIn, v0, c, half, v, so, ro, all)
    requires Sound(be, v, v') && forall q :: q != Next(S, c, half) ==> Untouched(q, v, v')
    requires var k := Next(S, c, half);
      var off := if half then ro else so;
      if c in DirMask(S, k.dir) then
        && Visited(be, pass, k, ReadRef(S.blk, S.p, DirOff(S, k.dir) + off), v, v')
        && off' == off + (if Get(v.conns, k).connected then 0 else 1)
        && (all' ==> all && Get(v'.conns, k).connected) && (NoInProgressAt(be, pass) && all ==> all')
      else Untouched(k, v, v') && off' == off && all' == all
    ensures PeerState(be, pass, S, allIn, v0, After(c, half).0, After(c, half).1, v',
                      if half then so else off', if half then off' else ro, all')
  {
    var k := Next(S, c, half);
    assert !InPeer(k, S, c, half);
    assert Untouched(k, v0, v);
    SoundTrans(be, v0, v, v');
    StepOffsets(S, v0, c, half, v, so, ro, off');
    if c in DirMask(S, k.dir) {
      assert PeerRef(v0.conns, k, S) == ReadRef(S.blk, S.p, DirOff(S, k.dir) + (if half then ro else so));
    }
    StepVisited(be, pass, S, v0, c, half, v, v');
    StepUntouched(S, v0, c, half, v, v');
    StepAll(be, pass, S, allIn, c, half, v, v', all, all');
  }

  /** One half of an iteration of the channel loop of src/transport.cc:172-214:
      the `dir` connector of channel `c` if `c` is in that direction's mask,
      handed its half of the block at the offset counter `off`. */
  method DrainOne(comm: Comm, be: Backends, cuda: Cuda, dir: Dir, c: int, S: Slot, pass: nat, allIn: bool,
                  ghost v0: View, off: int, ghost other: int, stIn: Status, allCur: bool)
    returns (st: Status, off': int, all: bool)
    requires 0 <= c < MaxChannels && !Failed(stIn)
    requires PeerState(be, pass, S, allIn, v0, c, dir == Recv, comm.Snapshot(),
                       if dir == Send then off else other, if dir == Send then other else off, allCur)
    modifies comm`conns, comm`connectedBy, comm`published
    ensures Sound(be, v0, comm.Snapshot())
    ensures (c in DirMask(S, dir) ==> KeyOk(be, cuda, ConnKey(dir, c, DirPeer(S, dir), S.connIndex))) ==> !Failed(st)
    ensures !Failed(st) ==>
      PeerState(be, pass, S, allIn, v0, After(c, dir == Recv).0, After(c, dir == Recv).1, comm.Snapshot(),
                if dir == Send then off' else other, if dir == Send then other else off', all)
  {
    ghost var v := comm.Snapshot();
    var k := ConnKey(dir, c, DirPeer(S, dir), S.connIndex);
    assert k == Next(S, c, dir == Recv);
    st, off', all := stIn, off, allCur;
    if c in DirMask(S, dir) {
      st, off', all := Visit(comm, be, cuda, k, S.blk, S.p, DirOff(S, dir), off, pass, st, all);
      SoundTrans(be, v0, v, comm.Snapshot());
      if Failed(st) {
        return;
      }
    }
    DrainStep(be, pass, S, allIn, v0, c, dir == Recv, v, if dir == Send then off else other,
              if dir == Send then other else off, allCur, comm.Snapshot(), off', all);
  }

  /** A whole distance drained from `v0` to `v`: every connector of its
      masks was visited with the handle at its offset counter, nothing
      else changed, and the all-connected flag stays set only if every
      visited connector ended connected, and does whenever no connect of
      this pass can answer in-progress. */
  ghost predicate PeerDrained(be: Backends, pass: nat, S: Slot, allIn: bool, v0: View, v: View, all: bool) {
    && (forall k :: InPeer(k, S, MaxChannels, false) ==> Visited(be, pass, k, PeerRef(v0.conns, k, S), v0, v))
    && (forall k :: !InPeer(k, S, MaxChannels, false) ==> Untouched(k, v0, v))
    && (all ==> allIn && forall k :: InPeer(k, S, MaxChannels, false) ==> Get(v.conns, k).connected)
    && (NoInProgressAt(be, pass) && allIn ==> all)
  }

  /** No connector of distance `S` can fail to connect. */
  ghost predicate PeerOk(be: Backends, cuda: Cuda, S: Slot) {
    forall k {:trigger KeyOk(be, cuda, k)} :: InPeer(k, S, MaxChannels, false) ==> KeyOk(be, cuda, k)
  }

  /** The body of the `for (int j ...)` loop for one distance of a retry
      pass: over channels in increasing order, the send connector and then
      the recv connector of every channel of the masks. */
  method DrainPeer(comm: Comm, be: Backends, cuda: Cuda, S: Slot, pass: nat, stIn: Status, allIn: bool)
    returns (st: Status, all: bool)
    requires !Failed(stIn)
    modifies comm`conns, comm`connectedBy, comm`published
    ensures Sound(be, old(comm.Snapshot()), comm.Snapshot())
    ensures PeerOk(be, cuda, S) ==> !Failed(st)
    ensures !Failed(st) ==> PeerDrained(be, pass, S, allIn, old(comm.Snapshot()), comm.Snapshot(), all)
  {
    ghost var v0 := comm.Snapshot();
    st, all := stIn, allIn;
    var so, ro := 0, 0;
    for c := 0 to MaxChannels
      invariant !Failed(st)
      invariant PeerState(be, pass, S, allIn, v0, c, false, comm.Snapshot(), so, ro, all)
    {
      st, so, all := DrainOne(comm, be, cuda, Send, c, S, pass, allIn, v0, so, ro, st, all);
      if Failed(st) {
        assert InPeer(Next(S, c, false), S, MaxChannels, false);
        return;
      }
      st, ro, all := DrainOne(comm, be, cuda, Recv, c, S, pass, allIn, v0, ro, so, st, all);
      if Failed(st) {
        assert InPeer(Next(S, c, true), S, MaxChannels, false);
        return;
      }
    }
  }
}
