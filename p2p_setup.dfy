/** `ncclTransportP2pSetup` (src/transport.cc:79-291): for every ring
    distance in turn, transport selection and handle exchange with the two
    peers of the distance; every `maxPeers` distances, and after the last
    one, the retry loop that connects the round; then a barrier with every
    peer that clears the intent masks. */
module P2pSetup {
  import opened Types
  import opened CommState
  import opened Ring
  import opened Select
  import opened P2pPack
  import opened P2pDrain
  import opened P2pRound

  /** The inputs of one setup: this rank, the ring size, the connection
      index, the graph id of the tags and the intent masks at entry. */
  datatype Plan = Plan(rank: int, n: int, connIndex: int, graphId: Option<int>,
                       recvMasks: seq<Mask>, sendMasks: seq<Mask>)

  predicate PlanOk(P: Plan) {
    0 <= P.rank < P.n && |P.recvMasks| == P.n && |P.sendMasks| == P.n
  }

  /** The recv and send masks of distance `j`. */
  function RMask(P: Plan, j: int): Mask
    requires PlanOk(P) && 0 <= j < P.n
  {
    P.recvMasks[RecvPeer(P.rank, P.n, j)]
  }

  function SMask(P: Plan, j: int): Mask
    requires PlanOk(P) && 0 <= j < P.n
  {
    P.sendMasks[SendPeer(P.rank, P.n, j)]
  }

  /** `recvChannels` and `sendChannels` of distance `j`: the popcounts of its masks. */
  function RC(P: Plan, j: int): int
    requires PlanOk(P) && 0 <= j < P.n
  {
    CountBelow(RMask(P, j), MaxChannels)
  }

  function SC(P: Plan, j: int): int
    requires PlanOk(P) && 0 <= j < P.n
  {
    CountBelow(SMask(P, j), MaxChannels)
  }

  predicate Symmetric(P: Plan, j: int)
    requires PlanOk(P) && 0 <= j < P.n
  {
    RecvPeer(P.rank, P.n, j) == SendPeer(P.rank, P.n, j)
  }

  /** Distance `j` has a recv or a send intent. */
  predicate Busy(P: Plan, j: int)
    requires PlanOk(P) && 0 <= j < P.n
  {
    RMask(P, j) != {} || SMask(P, j) != {}
  }

  /** The setup calls of distance `j`: every recv channel, then every
      send channel, each in increasing order, on the transport the scan
      selects for the peer. */
  function Calls(P: Plan, be: Backends, j: int): seq<SetupCall>
    requires PlanOk(P) && 0 <= j < P.n
  {
    PeerCalls(be, RecvPeer(P.rank, P.n, j), SendPeer(P.rank, P.n, j), RMask(P, j), SMask(P, j), P.connIndex)
  }

  /** The setup calls of distances `1..i-1`, in order. */
  function CallsUpTo(P: Plan, be: Backends, i: int): seq<SetupCall>
    requires PlanOk(P) && 1 <= i <= P.n
    decreases i
  {
    if i == 1 then [] else CallsUpTo(P, be, i - 1) + Calls(P, be, i - 1)
  }

  /** This rank's recv handles and send handles of distance `j`. */
  function RecvHandlesOf(P: Plan, be: Backends, j: int): seq<Handle>
    requires PlanOk(P) && 0 <= j < P.n
  {
    DirHandles(be, Recv, RecvPeer(P.rank, P.n, j), RMask(P, j), P.connIndex)
  }

  function SendHandlesOf(P: Plan, be: Backends, j: int): seq<Handle>
    requires PlanOk(P) && 0 <= j < P.n
  {
    DirHandles(be, Send, SendPeer(P.rank, P.n, j), SMask(P, j), P.connIndex)
  }

  /** The bootstrap messages of the handle exchange of distance `j` when
      this rank's recv and send handles are `rh` and `sh`. With one peer on
      both sides the combined block goes out and comes back; otherwise the
      recv handles go to the recv peer and the send handles to the send
      peer, and both replies are received, an empty half sending and
      receiving nothing. */
  function ExchangeMsgsOf(P: Plan, j: int, rh: seq<Handle>, sh: seq<Handle>): seq<BootMsg>
    requires PlanOk(P) && 0 <= j < P.n
  {
    var rp := RecvPeer(P.rank, P.n, j);
    var sp := SendPeer(P.rank, P.n, j);
    var tag := ExchangeTag(j, P.graphId);
    var rc, sc := |rh|, |sh|;
    if Symmetric(P, j) then
      if rc + sc > 0 then [SendHandles(rp, tag, rh + sh), RecvHandles(rp, tag, rc + sc)] else []
    else
      (if rc > 0 then [SendHandles(rp, tag, rh)] else [])
      + (if sc > 0 then [SendHandles(sp, tag, sh)] else [])
      + (if sc > 0 then [RecvHandles(sp, tag, sc)] else [])
      + (if rc > 0 then [RecvHandles(rp, tag, rc)] else [])
  }

  /** The bootstrap messages of the handle exchange of distance `j`. */
  function ExchangeMsgs(P: Plan, be: Backends, j: int): seq<BootMsg>
    requires PlanOk(P) && 0 <= j < P.n
  {
    ExchangeMsgsOf(P, j, RecvHandlesOf(P, be, j), SendHandlesOf(P, be, j))
  }

  function ExchangeMsgsUpTo(P: Plan, be: Backends, i: int): seq<BootMsg>
    requires PlanOk(P) && 1 <= i <= P.n
    decreases i
  {
    if i == 1 then [] else ExchangeMsgsUpTo(P, be, i - 1) + ExchangeMsgs(P, be, i - 1)
  }

  /** The handle at index `x` of distance `j`'s block after the exchange:
      what the peer sent, read from the combined reply, or from the recv
      peer's reply below `recvChannels` and the send peer's above. */
  function XHandle(P: Plan, boot: Bootstrap, j: int, x: int): Handle
    requires PlanOk(P) && 0 <= j < P.n
  {
    var rp := RecvPeer(P.rank, P.n, j);
    var sp := SendPeer(P.rank, P.n, j);
    var tag := ExchangeTag(j, P.graphId);
    if Symmetric(P, j) || x < RC(P, j) then boot.recvData(rp, tag, x) else boot.recvData(sp, tag, x - RC(P, j))
  }

  /** Where `recvData[p]` and `sendData[p]` point in the block after the
      exchange: after the send handles with one peer on both sides, at the
      start and after the recv handles otherwise. */
  function XRecvOff(P: Plan, j: int): int
    requires PlanOk(P) && 0 <= j < P.n
  {
    if Symmetric(P, j) then SC(P, j) else 0
  }

  function XSendOff(P: Plan, j: int): int
    requires PlanOk(P) && 0 <= j < P.n
  {
    if Symmetric(P, j) then 0 else RC(P, j)
  }

  /** Slot contents of distance `j` once its handles are exchanged. */
  predicate SlotOk(P: Plan, boot: Bootstrap, j: int, b: Buf, recvOff: int, sendOff: int)
    requires PlanOk(P) && 0 <= j < P.n
  {
    && b.Block? && |b.hs| == 2 * MaxChannels
    && (forall x :: 0 <= x < RC(P, j) + SC(P, j) ==> b.hs[x] == XHandle(P, boot, j, x))
    && recvOff == XRecvOff(P, j) && sendOff == XSendOff(P, j)
  }

  /** The connectors once distance `j`'s transports are bound to them. */
  function PackedConns(P: Plan, be: Backends, conns: map<ConnKey, Connector>, j: int): map<ConnKey, Connector>
    requires PlanOk(P) && 0 <= j < P.n
  {
    PeerConns(conns, be, RecvPeer(P.rank, P.n, j), SendPeer(P.rank, P.n, j), RMask(P, j), SMask(P, j), P.connIndex)
  }

  /** No bootstrap call of distance `j`'s exchange can fail: the send to
      and the receive from each peer that has handles to exchange. */
  predicate ExchangeOk(P: Plan, boot: Bootstrap, j: int)
    requires PlanOk(P) && 0 <= j < P.n
  {
    var tag := ExchangeTag(j, P.graphId);
    && (RC(P, j) > 0 ==> MsgOk(boot, RecvPeer(P.rank, P.n, j), tag))
    && (SC(P, j) > 0 ==> MsgOk(boot, SendPeer(P.rank, P.n, j), tag))
  }

  /** No call of distance `j`'s selection and exchange can fail: every
      selection for a channel of its masks, and the exchange. */
  predicate DistanceOk(P: Plan, be: Backends, boot: Bootstrap, j: int)
    requires PlanOk(P) && 0 <= j < P.n
  {
    && SelectOk(be, Recv, RecvPeer(P.rank, P.n, j), RMask(P, j), P.connIndex)
    && SelectOk(be, Send, SendPeer(P.rank, P.n, j), SMask(P, j), P.connIndex)
    && ExchangeOk(P, boot, j)
  }

  /** No call of the selection and exchange of any distance can fail. */
  predicate DistancesOk(P: Plan, be: Backends, boot: Bootstrap) {
    PlanOk(P) && forall j :: 1 <= j < P.n ==> DistanceOk(P, be, boot, j)
  }

  /** After the exchange the block of distance `i` holds what the peers
      sent, where `XHandle` says. */
  lemma ExchangedBuf(P: Plan, boot: Bootstrap, i: int, out: seq<Handle>, rc: int, sc: int)
    requires PlanOk(P) && 1 <= i < P.n
    requires rc == RC(P, i) && sc == SC(P, i) && rc + sc <= |out|
    requires Symmetric(P, i) ==> out[..rc + sc] == Received(boot, RecvPeer(P.rank, P.n, i), ExchangeTag(i, P.graphId), rc + sc)
    requires !Symmetric(P, i) ==>
      && out[..rc] == Received(boot, RecvPeer(P.rank, P.n, i), ExchangeTag(i, P.graphId), rc)
      && out[rc..rc + sc] == Received(boot, SendPeer(P.rank, P.n, i), ExchangeTag(i, P.graphId), sc)
    ensures forall x :: 0 <= x < rc + sc ==> out[x] == XHandle(P, boot, i, x)
  {
    forall x | 0 <= x < rc + sc ensures out[x] == XHandle(P, boot, i, x) {
      if Symmetric(P, i) || x < rc {
        assert out[x] == out[..rc + sc][x];
        if !Symmetric(P, i) {
          assert out[x] == out[..rc][x];
        }
      } else {
        assert out[x] == out[rc..rc + sc][x - rc];
      }
    }
  }

  /** The handle exchange of distance `i` (src/transport.cc:141-157) of
      the block `buf` that holds the recv handles `rh` and then the send
      handles `sh`. */
  method ExchangeDistance(comm: Comm, boot: Bootstrap, P: Plan, i: int, buf: seq<Handle>,
                          rc: int, sc: int, ghost rh: seq<Handle>, ghost sh: seq<Handle>, stIn: Status)
    returns (st: Status, out: seq<Handle>, recvOff: int, sendOff: int)
    requires PlanOk(P) && 1 <= i < P.n
    requires rc == RC(P, i) && sc == SC(P, i) && rc + sc <= |buf|
    requires buf[..rc] == rh && buf[rc..rc + sc] == sh
    modifies comm`bootLog
    ensures |out| == |buf|
    ensures !Failed(stIn) && ExchangeOk(P, boot, i) ==> !Failed(st)
    ensures !Failed(st) ==>
      && comm.bootLog == old(comm.bootLog) + ExchangeMsgsOf(P, i, rh, sh)
      && (forall x :: 0 <= x < rc + sc ==> out[x] == XHandle(P, boot, i, x))
      && recvOff == XRecvOff(P, i) && sendOff == XSendOff(P, i)
  {
    var recvPeer := RecvPeer(P.rank, P.n, i);
    var sendPeer := SendPeer(P.rank, P.n, i);
    assert buf[..rc + sc] == buf[..rc] + buf[rc..rc + sc];
    st, out, recvOff, sendOff := Exchange(comm, boot, recvPeer, sendPeer, ExchangeTag(i, P.graphId), buf, rc, sc, stIn);
    if !Failed(st) {
      ExchangedBuf(P, boot, i, out, rc, sc);
    }
  }

  /** The distance at which connector `k`'s peer is reached in its direction. */
  function Dist(P: Plan, k: ConnKey): int
    requires PlanOk(P) && 0 <= k.peer < P.n
  {
    if k.dir == Send then SendDist(P.rank, P.n, k.peer) else RecvDist(P.rank, P.n, k.peer)
  }

  /** The intent mask that covers connector `k`. */
  function KeyMask(P: Plan, k: ConnKey): Mask
    requires PlanOk(P) && 0 <= k.peer < P.n
  {
    if k.dir == Send then P.sendMasks[k.peer] else P.recvMasks[k.peer]
  }

  /** Connector `k` is one the setup is asked to connect: at this connection
      index, to a peer other than this rank, on a channel of its intent mask. */
  predicate Intent(P: Plan, k: ConnKey) {
    && PlanOk(P) && k.index == P.connIndex && 0 <= k.peer < P.n && k.peer != P.rank
    && 0 <= k.channel < MaxChannels && k.channel in KeyMask(P, k)
  }

  /** No intent connector can fail to connect. */
  ghost predicate IntentsOk(P: Plan, be: Backends, cuda: Cuda) {
    forall k {:trigger KeyOk(be, cuda, k)} :: Intent(P, k) ==> KeyOk(be, cuda, k)
  }

  /** No call of the selection and connect phases can fail: no selection
      or exchange of any distance, and no connect of an intent connector. */
  ghost predicate SetupOk(P: Plan, be: Backends, boot: Bootstrap, cuda: Cuda) {
    DistancesOk(P, be, boot) && IntentsOk(P, be, cuda)
  }

  /** No call of the whole setup can fail: `SetupOk` and `BarrierOk`. */
  ghost predicate NoFailure(P: Plan, be: Backends, boot: Bootstrap, cuda: Cuda) {
    SetupOk(P, be, boot, cuda) && BarrierOk(P, boot)
  }

  /** Connector `c` once setup has bound to it, for `k`, the transport
      selected for `k`'s peer. */
  function BoundTo(P: Plan, be: Backends, c: Connector, k: ConnKey): Connector {
    var t := SelectedT(be, k.peer);
    Bound(c, t, k.dir, be.setup(t, k.dir, k.channel, k.peer, P.connIndex))
  }

  /** Connector `k` of `conns` once the distances below `i` are bound,
      apart from its `connected` flag. */
  function Expected(P: Plan, be: Backends, conns: map<ConnKey, Connector>, i: int, k: ConnKey): Connector {
    if Intent(P, k) && Dist(P, k) < i then BoundTo(P, be, Get(conns, k), k) else Get(conns, k)
  }

  /** Where the handle for connector `k`, at distance `d`, starts in the block. */
  function XOff(P: Plan, d: int, dir: Dir): int
    requires PlanOk(P) && 0 <= d < P.n
  {
    if dir == Send then XSendOff(P, d) else XRecvOff(P, d)
  }

  /** The reference a first-pass `connect` of the intent connector `k`
      is handed, when the connectors are `conns` at the start of the round:
      the handle the peer sent, read at the connector's offset half plus
      the number of still unconnected connectors below it. */
  function FirstRef(P: Plan, boot: Bootstrap, conns: map<ConnKey, Connector>, k: ConnKey): HandleRef
    requires Intent(P, k)
  {
    var d := Dist(P, k);
    Live(XHandle(P, boot, d, XOff(P, d, k.dir) + Pending(conns, k.dir, k.peer, P.connIndex, KeyMask(P, k), k.channel)))
  }

  /** With none of the lower connectors of its mask connected at entry, a
      first-pass connect reads the exchanged slot at its own channel's
      position in the mask's visit order, which is where the handles of
      the mask were packed. */
  lemma FirstRefFresh(P: Plan, boot: Bootstrap, conns: map<ConnKey, Connector>, k: ConnKey)
    requires Intent(P, k)
    requires forall c :: 0 <= c < k.channel && c in KeyMask(P, k) ==> !Get(conns, ConnKey(k.dir, c, k.peer, P.connIndex)).connected
    ensures var d, x := Dist(P, k), CountBelow(KeyMask(P, k), k.channel);
      && FirstRef(P, boot, conns, k) == Live(XHandle(P, boot, d, XOff(P, d, k.dir) + x))
      && x < |Channels(KeyMask(P, k), MaxChannels)| && Channels(KeyMask(P, k), MaxChannels)[x] == k.channel
  {
    PendingFresh(conns, k.dir, k.peer, P.connIndex, KeyMask(P, k), k.channel);
    ChannelsSpec(KeyMask(P, k), MaxChannels);
  }

  /** How the intent connector `k` was connected: a `connect` call that
      returned success with the recorded reference and pass, whose
      descriptor was published; in the first pass the reference is
      `FirstRef`, in a later one a pointer into a freed block. */
  ghost predicate TopRec(P: Plan, be: Backends, boot: Bootstrap, conns0: map<ConnKey, Connector>, v: View, k: ConnKey)
    requires Intent(P, k)
  {
    && k in v.rec && k in v.pub && v.pub[k] == P2pDesc(v.rec[k].0)
    && be.connect(k, v.rec[k].0, v.rec[k].1) == Success
    && (v.rec[k].1 == 0 ==> v.rec[k].0 == FirstRef(P, boot, conns0, k))
    && (v.rec[k].1 > 0 ==> v.rec[k].0.Dangling?)
  }

  /** Intent connector `k` lies in a round already drained and was not
      connected at the start. */
  predicate DoneKey(P: Plan, conns0: map<ConnKey, Connector>, done: int, k: ConnKey) {
    Intent(P, k) && Dist(P, k) <= done && !Get(conns0, k).connected
  }

  /** Apart from their `connected` flags, the connectors of `v` are those
      of `V0` with the distances below `i` bound. */
  ghost predicate Shaped(P: Plan, be: Backends, V0: View, i: int, v: View) {
    forall k :: Get(v.conns, k).(connected := Get(V0.conns, k).connected) == Expected(P, be, V0.conns, i, k)
  }

  /** Every connector outside the drained rounds, and every one connected
      at the start, keeps its flag, record and descriptor. */
  ghost predicate Kept(P: Plan, V0: View, done: int, v: View) {
    forall k :: !DoneKey(P, V0.conns, done, k) ==>
      Get(v.conns, k).connected == Get(V0.conns, k).connected && MapSame(V0.rec, v.rec, k) && MapSame(V0.pub, v.pub, k)
  }

  /** Every intent connector of the drained rounds not connected at the
      start is connected, as `TopRec` says. */
  ghost predicate Connected(P: Plan, be: Backends, boot: Bootstrap, V0: View, done: int, v: View) {
    forall k :: DoneKey(P, V0.conns, done, k) ==> Get(v.conns, k).connected && TopRec(P, be, boot, V0.conns, v, k)
  }

  /** The slots of the distances `done+1..i-1` hold their exchanged blocks and offsets. */
  predicate Slots(P: Plan, boot: Bootstrap, i: int, done: int, blks: seq<Buf>, ro: seq<int>, so: seq<int>)
    requires PlanOk(P) && 0 <= done < i <= P.n && |blks| == |ro| == |so| && i - 1 - done <= |blks|
  {
    forall j :: done < j < i && Busy(P, j) ==> SlotOk(P, boot, j, blks[j - done - 1], ro[j - done - 1], so[j - done - 1])
  }

  /** The state of the setup loop from `V0` once the distances below `i`
      are bound and exchanged and those up to `done` are connected, with
      the round's blocks and offsets in `blks`, `ro` and `so`. */
  ghost predicate TopState(P: Plan, be: Backends, boot: Bootstrap, V0: View, i: int, done: int, v: View,
                           blks: seq<Buf>, ro: seq<int>, so: seq<int>)
  {
    && PlanOk(P) && 0 <= done < i <= P.n
    && |blks| == |ro| == |so| && i - 1 - done <= |blks|
    && Shaped(P, be, V0, i, v) && Kept(P, V0, done, v) && Connected(P, be, boot, V0, done, v)
    && Slots(P, boot, i, done, blks, ro, so)
  }

  /** Binding the recv channels of `rm` to `rp` and then the send channels
      of `sm` to `sp` changes exactly those connectors. */
  lemma BindBothGet(conns: map<ConnKey, Connector>, be: Backends, rp: int, sp: int, rm: Mask, sm: Mask,
                    connIndex: int, k: ConnKey)
    ensures var r := Get(PeerConns(conns, be, rp, sp, rm, sm, connIndex), k);
      var t := SelectedT(be, k.peer);
      var mask := if k.dir == Send then sm else rm;
      r == if k.peer == (if k.dir == Send then sp else rp) && k.index == connIndex && 0 <= k.channel < MaxChannels && k.channel in mask
           then Bound(Get(conns, k), t, k.dir, be.setup(t, k.dir, k.channel, k.peer, connIndex))
           else Get(conns, k)
  {
    var rcs := Channels(rm, MaxChannels);
    var m := BindAll(conns, be, SelectedT(be, rp), Recv, rp, connIndex, rcs);
    BindAllGet(conns, be, SelectedT(be, rp), Recv, rp, connIndex, rcs, k);
    BindAllGet(m, be, SelectedT(be, sp), Send, sp, connIndex, Channels(sm, MaxChannels), k);
    ChannelsMembers(rm, MaxChannels);
    ChannelsMembers(sm, MaxChannels);
  }

  /** Binding distance `i` changes exactly its intent connectors. */
  lemma PackedConnsGet(P: Plan, be: Backends, conns: map<ConnKey, Connector>, i: int, k: ConnKey)
    requires PlanOk(P) && 1 <= i < P.n
    ensures Get(PackedConns(P, be, conns, i), k)
         == if Intent(P, k) && Dist(P, k) == i then BoundTo(P, be, Get(conns, k), k) else Get(conns, k)
  {
    var rp := RecvPeer(P.rank, P.n, i);
    var sp := SendPeer(P.rank, P.n, i);
    BindBothGet(conns, be, rp, sp, RMask(P, i), SMask(P, i), P.connIndex, k);
    Distance(P.rank, P.n, i);
    if 0 <= k.peer < P.n && k.peer != P.rank {
      PeerDistance(P.rank, P.n, k.peer);
    }
  }

  /** One connector across the binding of distance `i`. */
  lemma PackStepKey(P: Plan, be: Backends, V0: View, i: int, v: View, k: ConnKey)
    requires PlanOk(P) && 1 <= i < P.n && Shaped(P, be, V0, i, v)
    ensures var c := Get(PackedConns(P, be, v.conns, i), k);
      && c.(connected := Get(V0.conns, k).connected) == Expected(P, be, V0.conns, i + 1, k)
      && c.connected == Get(v.conns, k).connected
  {
    PackedConnsGet(P, be, v.conns, i, k);
    assert Get(v.conns, k).(connected := Get(V0.conns, k).connected) == Expected(P, be, V0.conns, i, k);
  }

  /** Binding leaves the flags, records and descriptors alone. */
  lemma PackStepFlags(P: Plan, be: Backends, boot: Bootstrap, V0: View, done: int, v: View, v': View)
    requires Kept(P, V0, done, v) && Connected(P, be, boot, V0, done, v)
    requires v'.rec == v.rec && v'.pub == v.pub
    requires forall k :: Get(v'.conns, k).connected == Get(v.conns, k).connected
    ensures Kept(P, V0, done, v') && Connected(P, be, boot, V0, done, v')
  {
    forall k | DoneKey(P, V0.conns, done, k)
      ensures Get(v'.conns, k).connected && TopRec(P, be, boot, V0.conns, v', k)
    {
      assert TopRec(P, be, boot, V0.conns, v, k);
    }
  }

  /** The slot of distance `i` holds its exchanged block and offsets;
      the slots of the earlier distances of the round are as before. */
  lemma PackStepSlots(P: Plan, boot: Bootstrap, i: int, done: int, blks: seq<Buf>, ro: seq<int>, so: seq<int>,
                      out: seq<Handle>)
    requires PlanOk(P) && 0 <= done < i < P.n && |blks| == |ro| == |so| && i - done <= |blks|
    requires Slots(P, boot, i, done, blks, ro, so)
    requires Busy(P, i) ==> |out| == 2 * MaxChannels
    requires RC(P, i) + SC(P, i) <= |out|
    requires forall x :: 0 <= x < RC(P, i) + SC(P, i) ==> out[x] == XHandle(P, boot, i, x)
    ensures var p := i - done - 1;
      var blks', ro', so' := if Busy(P, i) then blks[p := Block(out)] else blks, ro[p := XRecvOff(P, i)], so[p := XSendOff(P, i)];
      Slots(P, boot, i + 1, done, blks', ro', so')
  {
    var p := i - done - 1;
    var blks', ro', so' := if Busy(P, i) then blks[p := Block(out)] else blks, ro[p := XRecvOff(P, i)], so[p := XSendOff(P, i)];
    forall j | done < j < i + 1 && Busy(P, j)
      ensures SlotOk(P, boot, j, blks'[j - done - 1], ro'[j - done - 1], so'[j - done - 1])
    {
      if j < i {
        assert SlotOk(P, boot, j, blks[j - done - 1], ro[j - done - 1], so[j - done - 1]);
      }
    }
  }

  /** Packing and exchanging distance `i` moves the setup loop on by one distance. */
  lemma PackStep(P: Plan, be: Backends, boot: Bootstrap, V0: View, i: int, done: int, v: View,
                 blks: seq<Buf>, ro: seq<int>, so: seq<int>, out: seq<Handle>)
    requires TopState(P, be, boot, V0, i, done, v, blks, ro, so) && i < P.n && i - done <= |blks|
    requires Busy(P, i) ==> |out| == 2 * MaxChannels
    requires RC(P, i) + SC(P, i) <= |out|
    requires forall x :: 0 <= x < RC(P, i) + SC(P, i) ==> out[x] == XHandle(P, boot, i, x)
    ensures var p := i - done - 1;
      TopState(P, be, boot, V0, i + 1, done, View(PackedConns(P, be, v.conns, i), v.rec, v.pub),
               if Busy(P, i) then blks[p := Block(out)] else blks, ro[p := XRecvOff(P, i)], so[p := XSendOff(P, i)])
  {
    var v' := View(PackedConns(P, be, v.conns, i), v.rec, v.pub);
    forall k ensures Get(v'.conns, k).(connected := Get(V0.conns, k).connected) == Expected(P, be, V0.conns, i + 1, k)
                  && Get(v'.conns, k).connected == Get(v.conns, k).connected
    {
      PackStepKey(P, be, V0, i, v, k);
    }
    PackStepFlags(P, be, boot, V0, done, v, v');
    PackStepSlots(P, boot, i, done, blks, ro, so, out);
  }

  /** The round of distances `done+1..last` with the slots' offsets `ro` and `so`. */
  function RoundOf(P: Plan, done: int, last: int, ro: seq<int>, so: seq<int>): Round {
    Round(P.rank, P.n, done, last, P.connIndex, P.recvMasks, P.sendMasks, ro, so)
  }

  /** The round's connectors are the intent connectors of its distances. */
  lemma InRoundIntent(P: Plan, done: int, last: int, ro: seq<int>, so: seq<int>, k: ConnKey)
    requires RoundOk(RoundOf(P, done, last, ro, so))
    ensures InRound(RoundOf(P, done, last, ro, so), k) <==> Intent(P, k) && done < Dist(P, k) <= last
  {
  }

  /** The count of unconnected connectors below an intent connector of a
      round not yet drained is as at the start. */
  lemma PendingKept(P: Plan, V0: View, done: int, v: View, k: ConnKey)
    requires Kept(P, V0, done, v) && Intent(P, k) && done < Dist(P, k)
    ensures Pending(v.conns, k.dir, k.peer, k.index, KeyMask(P, k), k.channel)
         == Pending(V0.conns, k.dir, k.peer, k.index, KeyMask(P, k), k.channel)
  {
    forall c' | 0 <= c' < k.channel
      ensures Get(v.conns, ConnKey(k.dir, c', k.peer, k.index)).connected
           == Get(V0.conns, ConnKey(k.dir, c', k.peer, k.index)).connected
    {
      assert !DoneKey(P, V0.conns, done, ConnKey(k.dir, c', k.peer, k.index));
    }
    PendingFrame(v.conns, V0.conns, k.dir, k.peer, k.index, KeyMask(P, k), k.channel);
  }

  /** The offset an intent connector reads lies inside the exchanged handles. */
  lemma FirstOffInside(P: Plan, conns: map<ConnKey, Connector>, k: ConnKey)
    requires Intent(P, k)
    ensures var d := Dist(P, k);
      0 <= XOff(P, d, k.dir) + Pending(conns, k.dir, k.peer, k.index, KeyMask(P, k), k.channel) < RC(P, d) + SC(P, d) <= 2 * MaxChannels
  {
    PeerDistance(P.rank, P.n, k.peer);
    CountBelowMono(KeyMask(P, k), k.channel, MaxChannels);
  }

  /** The slot a connector of the round is drained from: the one of its
      distance, with its mask and its half's offset. */
  lemma SlotFields(P: Plan, done: int, i: int, ro: seq<int>, so: seq<int>, blks: seq<Buf>, k: ConnKey)
    requires RoundOk(RoundOf(P, done, i, ro, so)) && |blks| >= i - done
    requires InRound(RoundOf(P, done, i, ro, so), k)
    ensures var R := RoundOf(P, done, i, ro, so);
      var d := Dist(P, k);
      var p := d - (done + 1);
      var S := SlotAt(R, blks, KeyDist(R, k));
      && Intent(P, k) && KeyDist(R, k) == d && done < d <= i && Busy(P, d)
      && S.blk == blks[p] && S.p == p && DirMask(S, k.dir) == KeyMask(P, k)
      && DirOff(S, k.dir) == (if k.dir == Send then so[p] else ro[p])
  {
    PeerDistance(P.rank, P.n, k.peer);
  }

  /** A first-pass `connect` in the round is handed `FirstRef`: the slot
      holds the exchanged block, the offset of the connector's half is the
      one the exchange left, and the count of unconnected connectors below
      it is as at the start. */
  lemma RoundRefFirst(P: Plan, boot: Bootstrap, conns0: map<ConnKey, Connector>, conns: map<ConnKey, Connector>,
                      i: int, done: int, blks: seq<Buf>, ro: seq<int>, so: seq<int>, k: ConnKey)
    requires RoundOk(RoundOf(P, done, i, ro, so)) && |blks| == |ro| == |so| && i - done <= |blks|
    requires InRound(RoundOf(P, done, i, ro, so), k) && Intent(P, k) && done < Dist(P, k) <= i
    requires SlotOk(P, boot, Dist(P, k), blks[Dist(P, k) - done - 1], ro[Dist(P, k) - done - 1], so[Dist(P, k) - done - 1])
    requires Pending(conns, k.dir, k.peer, k.index, KeyMask(P, k), k.channel)
          == Pending(conns0, k.dir, k.peer, k.index, KeyMask(P, k), k.channel)
    ensures RoundRef(RoundOf(P, done, i, ro, so), blks, conns, k) == FirstRef(P, boot, conns0, k)
  {
    var p := Dist(P, k) - done - 1;
    FirstRead(P, boot, conns0, k, blks[p], p, ro[p], so[p]);
    RoundRefSlot(P, conns0, conns, i, done, blks, ro, so, k);
  }

  /** A connector of the round reads its slot at its half's offset plus the
      count of unconnected connectors below it. */
  lemma RoundRefSlot(P: Plan, conns0: map<ConnKey, Connector>, conns: map<ConnKey, Connector>,
                     i: int, done: int, blks: seq<Buf>, ro: seq<int>, so: seq<int>, k: ConnKey)
    requires RoundOk(RoundOf(P, done, i, ro, so)) && |blks| == |ro| == |so| && i - done <= |blks|
    requires InRound(RoundOf(P, done, i, ro, so), k)
    requires Pending(conns, k.dir, k.peer, k.index, KeyMask(P, k), k.channel)
          == Pending(conns0, k.dir, k.peer, k.index, KeyMask(P, k), k.channel)
    requires PlanOk(P) && 0 <= k.peer < P.n && done < Dist(P, k) <= i
    requires ro[Dist(P, k) - done - 1] == XRecvOff(P, Dist(P, k)) && so[Dist(P, k) - done - 1] == XSendOff(P, Dist(P, k))
    ensures RoundRef(RoundOf(P, done, i, ro, so), blks, conns, k)
         == ReadRef(blks[Dist(P, k) - done - 1], Dist(P, k) - done - 1,
                    XOff(P, Dist(P, k), k.dir) + Pending(conns0, k.dir, k.peer, P.connIndex, KeyMask(P, k), k.channel))
  {
    SlotFields(P, done, i, ro, so, blks, k);
  }

  /** Reading the slot the exchange filled for an intent connector's
      distance, at its half's offset plus its count of unconnected
      connectors below it, yields `FirstRef`. */
  lemma FirstRead(P: Plan, boot: Bootstrap, conns0: map<ConnKey, Connector>, k: ConnKey, b: Buf, p: int,
                  recvOff: int, sendOff: int)
    requires Intent(P, k) && SlotOk(P, boot, Dist(P, k), b, recvOff, sendOff)
    ensures ReadRef(b, p, XOff(P, Dist(P, k), k.dir) + Pending(conns0, k.dir, k.peer, P.connIndex, KeyMask(P, k), k.channel))
         == FirstRef(P, boot, conns0, k)
  {
    FirstOffInside(P, conns0, k);
    var d := Dist(P, k);
    var x := XOff(P, d, k.dir) + Pending(conns0, k.dir, k.peer, k.index, KeyMask(P, k), k.channel);
    assert k.index == P.connIndex && 0 <= x < RC(P, d) + SC(P, d);
    assert ReadRef(b, p, x) == Live(b.hs[x]) && b.hs[x] == XHandle(P, boot, d, x);
  }

  /** `RoundRefFirst` for a connector of the round drained from the loop state. */
  lemma RoundRefFirstAt(P: Plan, boot: Bootstrap, V0: View, i: int, done: int, v: View,
                        blks: seq<Buf>, ro: seq<int>, so: seq<int>, k: ConnKey)
    requires RoundOk(RoundOf(P, done, i, ro, so)) && |blks| == |ro| == |so| && i - done <= |blks|
    requires Kept(P, V0, done, v) && Slots(P, boot, i + 1, done, blks, ro, so)
    requires InRound(RoundOf(P, done, i, ro, so), k)
    ensures RoundRef(RoundOf(P, done, i, ro, so), blks, v.conns, k) == FirstRef(P, boot, V0.conns, k)
  {
    SlotFields(P, done, i, ro, so, blks, k);
    PendingKept(P, V0, done, v, k);
    RoundRefFirst(P, boot, V0.conns, v.conns, i, done, blks, ro, so, k);
  }

  /** One connector across the retry loop of the round `done+1..i`. */
  lemma RoundKey(P: Plan, be: Backends, boot: Bootstrap, V0: View, i: int, done: int, v: View,
                 blks: seq<Buf>, ro: seq<int>, so: seq<int>, v': View, blks': seq<Buf>, k: ConnKey)
    requires TopState(P, be, boot, V0, i + 1, done, v, blks, ro, so) && i < P.n && i - done <= |blks|
    requires RoundOk(RoundOf(P, done, i, ro, so))
    requires BatchDone(be, RoundOf(P, done, i, ro, so), blks, v, v', blks')
    ensures Get(v'.conns, k).(connected := Get(V0.conns, k).connected) == Expected(P, be, V0.conns, i + 1, k)
    ensures !DoneKey(P, V0.conns, i, k) ==>
      Get(v'.conns, k).connected == Get(V0.conns, k).connected && MapSame(V0.rec, v'.rec, k) && MapSame(V0.pub, v'.pub, k)
    ensures DoneKey(P, V0.conns, i, k) ==> Get(v'.conns, k).connected && TopRec(P, be, boot, V0.conns, v', k)
  {
    var R := RoundOf(P, done, i, ro, so);
    assert Progressed(be, k, v, v');
    assert Get(v.conns, k).(connected := Get(V0.conns, k).connected) == Expected(P, be, V0.conns, i + 1, k);
    InRoundIntent(P, done, i, ro, so, k);
    if !InRound(R, k) || Get(v.conns, k).connected {
      assert Untouched(k, v, v');
      if DoneKey(P, V0.conns, i, k) {
        assert DoneKey(P, V0.conns, done, k);
        assert TopRec(P, be, boot, V0.conns, v, k);
      }
    } else {
      assert !DoneKey(P, V0.conns, done, k);
      assert RecOk(R, blks, v, v', k);
      RoundRefFirstAt(P, boot, V0, i, done, v, blks, ro, so, k);
    }
  }

  /** Draining the round `done+1..i` completes it. */
  lemma RoundStep(P: Plan, be: Backends, boot: Bootstrap, V0: View, i: int, done: int, v: View,
                  blks: seq<Buf>, ro: seq<int>, so: seq<int>, v': View, blks': seq<Buf>)
    requires TopState(P, be, boot, V0, i + 1, done, v, blks, ro, so) && i < P.n && i - done <= |blks|
    requires RoundOk(RoundOf(P, done, i, ro, so))
    requires BatchDone(be, RoundOf(P, done, i, ro, so), blks, v, v', blks')
    ensures TopState(P, be, boot, V0, i + 1, i, v', blks', ro, so)
  {
    forall k
      ensures Get(v'.conns, k).(connected := Get(V0.conns, k).connected) == Expected(P, be, V0.conns, i + 1, k)
      ensures !DoneKey(P, V0.conns, i, k) ==>
        Get(v'.conns, k).connected == Get(V0.conns, k).connected && MapSame(V0.rec, v'.rec, k) && MapSame(V0.pub, v'.pub, k)
      ensures DoneKey(P, V0.conns, i, k) ==> Get(v'.conns, k).connected && TopRec(P, be, boot, V0.conns, v', k)
    {
      RoundKey(P, be, boot, V0, i, done, v, blks, ro, so, v', blks', k);
    }
  }

  /** Before the first distance nothing is bound, connected or stored. */
  lemma TopStart(P: Plan, be: Backends, boot: Bootstrap, V0: View, blks: seq<Buf>, ro: seq<int>, so: seq<int>)
    requires PlanOk(P) && 1 <= P.n && |blks| == |ro| == |so|
    ensures TopState(P, be, boot, V0, 1, 0, V0, blks, ro, so)
  {
    forall k | Intent(P, k)
      ensures Dist(P, k) >= 1
    {
      PeerDistance(P.rank, P.n, k.peer);
    }
  }

  /** What the setup leaves behind: every intent connector is bound to the
      transport selected for its peer and connected; one already connected
      at entry keeps its record, and one connected here is recorded as
      `TopRec` says; every other connector, with its record and descriptor,
      is as it was. */
  ghost predicate SetupDone(P: Plan, be: Backends, boot: Bootstrap, V0: View, v: View)
  {
    && (forall k :: Intent(P, k) ==> Get(v.conns, k) == BoundTo(P, be, Get(V0.conns, k), k).(connected := true))
    && (forall k :: !Intent(P, k) ==> Get(v.conns, k) == Get(V0.conns, k))
    && (forall k :: !Intent(P, k) || Get(V0.conns, k).connected ==> MapSame(V0.rec, v.rec, k) && MapSame(V0.pub, v.pub, k))
    && (forall k :: Intent(P, k) && !Get(V0.conns, k).connected ==> TopRec(P, be, boot, V0.conns, v, k))
  }

  /** Once every distance is bound and drained, the setup is done. */
  lemma TopFinal(P: Plan, be: Backends, boot: Bootstrap, V0: View, v: View, blks: seq<Buf>, ro: seq<int>, so: seq<int>)
    requires TopState(P, be, boot, V0, P.n, P.n - 1, v, blks, ro, so)
    ensures SetupDone(P, be, boot, V0, v)
  {
    forall k
      ensures Intent(P, k) ==> Get(v.conns, k) == BoundTo(P, be, Get(V0.conns, k), k).(connected := true)
      ensures !Intent(P, k) ==> Get(v.conns, k) == Get(V0.conns, k)
    {
      if Intent(P, k) {
        PeerDistance(P.rank, P.n, k.peer);
        assert Get(v.conns, k).connected;
      }
      assert Get(v.conns, k).(connected := Get(V0.conns, k).connected) == Expected(P, be, V0.conns, P.n, k);
    }
    forall k | Intent(P, k) && !Get(V0.conns, k).connected
      ensures TopRec(P, be, boot, V0.conns, v, k)
    {
      PeerDistance(P.rank, P.n, k.peer);
      assert DoneKey(P, V0.conns, P.n - 1, k);
    }
  }

  /** Packing distance `i` in Plan terms. */
  lemma PackedPlan(P: Plan, be: Backends, i: int, conns0: map<ConnKey, Connector>, log0: seq<SetupCall>, highestIn: int,
                   conns: map<ConnKey, Connector>, log: seq<SetupCall>, buf: seq<Handle>, rc: int, sc: int, highest: int)
    requires PlanOk(P) && 1 <= i < P.n
    requires PeerPacked(be, RecvPeer(P.rank, P.n, i), SendPeer(P.rank, P.n, i), RMask(P, i), SMask(P, i), P.connIndex,
                        conns0, log0, highestIn, conns, log, buf, rc, sc, highest)
    ensures conns == PackedConns(P, be, conns0, i)
    ensures log == log0 + Calls(P, be, i) && highest == MaxType(highestIn, Calls(P, be, i))
    ensures rc == RC(P, i) && sc == SC(P, i) && rc + sc <= |buf| && (Busy(P, i) ==> |buf| == 2 * MaxChannels)
    ensures buf[..rc] == RecvHandlesOf(P, be, i) && buf[rc..rc + sc] == SendHandlesOf(P, be, i)
  {
  }

  /** The flags of one barrier step with `recvPeer` and `sendPeer`,
      whose masks are non-empty as `r` and `s` say: a flag to and from
      each peer with a non-empty mask, the send peer first; a single
      exchange when one peer is on both sides. */
  function Flags(recvPeer: int, sendPeer: int, tag: int, r: bool, s: bool): seq<BootMsg> {
    if recvPeer != sendPeer then
      (if s then [SendFlag(sendPeer, tag)] else []) + (if r then [SendFlag(recvPeer, tag)] else [])
      + (if s then [RecvFlag(sendPeer, tag)] else []) + (if r then [RecvFlag(recvPeer, tag)] else [])
    else if s || r then [SendFlag(sendPeer, tag), RecvFlag(sendPeer, tag)]
    else []
  }

  /** The barrier messages of distance `j`. */
  function BarrierMsgs(P: Plan, j: int): seq<BootMsg>
    requires PlanOk(P) && 0 <= j < P.n
  {
    Flags(RecvPeer(P.rank, P.n, j), SendPeer(P.rank, P.n, j), BarrierTag(j, P.graphId), RMask(P, j) != {}, SMask(P, j) != {})
  }

  function BarrierMsgsUpTo(P: Plan, i: int): seq<BootMsg>
    requires PlanOk(P) && 1 <= i <= P.n
    decreases i
  {
    if i == 1 then [] else BarrierMsgsUpTo(P, i - 1) + BarrierMsgs(P, i - 1)
  }

  /** The masks once the barrier has passed the distances below `i`: the
      peers reached at those distances are cleared. */
  predicate ClearedTo(P: Plan, i: int, recv: seq<Mask>, send: seq<Mask>)
    requires PlanOk(P)
  {
    && |recv| == P.n && |send| == P.n
    && (forall q :: 0 <= q < P.n ==>
          recv[q] == if q != P.rank && RecvDist(P.rank, P.n, q) < i then {} else P.recvMasks[q])
    && (forall q :: 0 <= q < P.n ==>
          send[q] == if q != P.rank && SendDist(P.rank, P.n, q) < i then {} else P.sendMasks[q])
  }

  /** The barrier step of distance `i` reads the masks as they were at
      entry and clears exactly the two peers of the distance. */
  lemma ClearStep(P: Plan, i: int, recv: seq<Mask>, send: seq<Mask>)
    requires PlanOk(P) && 1 <= i < P.n && ClearedTo(P, i, recv, send)
    ensures var rp, sp := RecvPeer(P.rank, P.n, i), SendPeer(P.rank, P.n, i);
      && recv[rp] == RMask(P, i) && send[sp] == SMask(P, i)
      && ClearedTo(P, i + 1, recv[rp := {}], send[sp := {}])
  {
    Distance(P.rank, P.n, i);
    forall q | 0 <= q < P.n && q != P.rank
      ensures RecvDist(P.rank, P.n, q) == i <==> q == RecvPeer(P.rank, P.n, i)
      ensures SendDist(P.rank, P.n, q) == i <==> q == SendPeer(P.rank, P.n, i)
    {
      PeerDistance(P.rank, P.n, q);
    }
  }

  /** After the last distance every peer other than this rank is cleared. */
  lemma ClearedAll(P: Plan, recv: seq<Mask>, send: seq<Mask>)
    requires PlanOk(P) && ClearedTo(P, P.n, recv, send)
    ensures forall q :: 0 <= q < P.n ==> recv[q] == if q == P.rank then P.recvMasks[q] else {}
    ensures forall q :: 0 <= q < P.n ==> send[q] == if q == P.rank then P.sendMasks[q] else {}
  {
    forall q | 0 <= q < P.n && q != P.rank
      ensures RecvDist(P.rank, P.n, q) < P.n && SendDist(P.rank, P.n, q) < P.n
    {
      PeerDistance(P.rank, P.n, q);
    }
  }

  /** One barrier step (src/transport.cc:258-275): the flag exchange with
      the two peers of a distance. */
  method FlagStep(comm: Comm, boot: Bootstrap, recvPeer: int, sendPeer: int, tag: int, r: bool, s: bool, stIn: Status)
    returns (st: Status)
    requires !Failed(stIn)
    modifies comm`bootLog
    ensures (r ==> MsgOk(boot, recvPeer, tag)) && (s ==> MsgOk(boot, sendPeer, tag)) ==> !Failed(st)
    ensures !Failed(st) ==> comm.bootLog == old(comm.bootLog) + Flags(recvPeer, sendPeer, tag, r, s)
  {
    st := stIn;
    if recvPeer != sendPeer {
      ghost var log0 := comm.bootLog;
      if s {
        st := boot.sendStatus(sendPeer, tag);
        comm.bootLog := comm.bootLog + [SendFlag(sendPeer, tag)];
        if Failed(st) { return; }
      }
      if r {
        st := boot.sendStatus(recvPeer, tag);
        comm.bootLog := comm.bootLog + [SendFlag(recvPeer, tag)];
        if Failed(st) { return; }
      }
      ghost var log1 := comm.bootLog;
      if s {
        st := boot.recvStatus(sendPeer, tag);
        comm.bootLog := comm.bootLog + [RecvFlag(sendPeer, tag)];
        if Failed(st) { return; }
      }
      if r {
        st := boot.recvStatus(recvPeer, tag);
        comm.bootLog := comm.bootLog + [RecvFlag(recvPeer, tag)];
        if Failed(st) { return; }
      }
      var A := (if s then [SendFlag(sendPeer, tag)] else []) + (if r then [SendFlag(recvPeer, tag)] else []);
      var B := (if s then [RecvFlag(sendPeer, tag)] else []) + (if r then [RecvFlag(recvPeer, tag)] else []);
      assert log1 == log0 + A;
      assert comm.bootLog == log1 + B;
      AppendAssoc(log0, A, B);
      assert A + B == Flags(recvPeer, sendPeer, tag, r, s);
    } else if s || r {
      st := boot.sendStatus(sendPeer, tag);
      comm.bootLog := comm.bootLog + [SendFlag(sendPeer, tag)];
      if Failed(st) { return; }
      st := boot.recvStatus(sendPeer, tag);
      comm.bootLog := comm.bootLog + [RecvFlag(sendPeer, tag)];
      if Failed(st) { return; }
    }
  }

  /** No flag exchange of distance `j` in the barrier can fail. */
  predicate FlagsOk(P: Plan, boot: Bootstrap, j: int)
    requires PlanOk(P) && 0 <= j < P.n
  {
    var tag := BarrierTag(j, P.graphId);
    && (RMask(P, j) != {} ==> MsgOk(boot, RecvPeer(P.rank, P.n, j), tag))
    && (SMask(P, j) != {} ==> MsgOk(boot, SendPeer(P.rank, P.n, j), tag))
  }

  /** No flag exchange of the barrier can fail. */
  predicate BarrierOk(P: Plan, boot: Bootstrap) {
    PlanOk(P) && forall j :: 1 <= j < P.n ==> FlagsOk(P, boot, j)
  }

  /** The barrier after the distances below `i`: those peers' masks are
      cleared and their flag messages follow `log0`. */
  ghost predicate BarrierState(P: Plan, i: int, recv: seq<Mask>, send: seq<Mask>, log0: seq<BootMsg>, log: seq<BootMsg>)
    requires PlanOk(P) && 1 <= i <= P.n
  {
    ClearedTo(P, i, recv, send) && log == log0 + BarrierMsgsUpTo(P, i)
  }

  /** Before the first distance nothing is cleared and nothing is sent. */
  lemma BarrierStart(P: Plan, log0: seq<BootMsg>)
    requires PlanOk(P)
    ensures BarrierState(P, 1, P.recvMasks, P.sendMasks, log0, log0)
  {
    assert log0 + BarrierMsgsUpTo(P, 1) == log0;
  }

  /** The masks that the barrier step of distance `i` tests are the
      original ones of its two peers. */
  lemma BarrierPeers(P: Plan, i: int, recv: seq<Mask>, send: seq<Mask>, log0: seq<BootMsg>, log: seq<BootMsg>)
    requires PlanOk(P) && 1 <= i < P.n && BarrierState(P, i, recv, send, log0, log)
    ensures var rp, sp := RecvPeer(P.rank, P.n, i), SendPeer(P.rank, P.n, i);
      && |recv| == |send| == P.n && 0 <= rp < P.n && 0 <= sp < P.n
      && recv[rp] == RMask(P, i) && send[sp] == SMask(P, i)
  {
    ClearStep(P, i, recv, send);
  }

  /** The flag exchange of distance `i` and the clearing of its two peers
      take the barrier from distance `i` to `i + 1`. */
  lemma BarrierStep(P: Plan, i: int, recv: seq<Mask>, send: seq<Mask>, log0: seq<BootMsg>, log: seq<BootMsg>,
                    log': seq<BootMsg>)
    requires PlanOk(P) && 1 <= i < P.n && BarrierState(P, i, recv, send, log0, log)
    requires |recv| == |send| == P.n
    requires var rp, sp := RecvPeer(P.rank, P.n, i), SendPeer(P.rank, P.n, i);
      log' == log + Flags(rp, sp, BarrierTag(i, P.graphId), recv[rp] != {}, send[sp] != {})
    ensures BarrierState(P, i + 1, recv[RecvPeer(P.rank, P.n, i) := {}], send[SendPeer(P.rank, P.n, i) := {}], log0, log')
  {
    ClearStep(P, i, recv, send);
    assert log' == log + BarrierMsgs(P, i);
    AppendAssoc(log0, BarrierMsgsUpTo(P, i), BarrierMsgs(P, i));
  }

  /** After the last distance the barrier has sent every flag message and
      cleared every peer other than this rank. */
  lemma BarrierDone(P: Plan, recv: seq<Mask>, send: seq<Mask>, log0: seq<BootMsg>, log: seq<BootMsg>)
    requires PlanOk(P) && BarrierState(P, P.n, recv, send, log0, log)
    ensures |recv| == P.n && |send| == P.n && log == log0 + BarrierMsgsUpTo(P, P.n)
    ensures forall q :: 0 <= q < P.n ==> recv[q] == if q == P.rank then P.recvMasks[q] else {}
    ensures forall q :: 0 <= q < P.n ==> send[q] == if q == P.rank then P.sendMasks[q] else {}
  {
    ClearedAll(P, recv, send);
  }

  /** One distance of the barrier (src/transport.cc:254-277): the flag
      exchange with the two peers, then both of their masks cleared. */
  method BarrierRound(comm: Comm, boot: Bootstrap, graphId: Option<int>, ghost P: Plan, i: int,
                      ghost log0: seq<BootMsg>, stIn: Status) returns (st: Status)
    requires PlanOk(P) && P.graphId == graphId && !Failed(stIn) && 1 <= i < P.n
    requires comm.rank == P.rank && comm.nRanks == P.n
    requires BarrierState(P, i, comm.connectRecv, comm.connectSend, log0, comm.bootLog)
    modifies comm`connectRecv, comm`connectSend, comm`bootLog
    ensures |comm.connectRecv| == P.n && |comm.connectSend| == P.n
    ensures FlagsOk(P, boot, i) ==> !Failed(st)
    ensures !Failed(st) ==> BarrierState(P, i + 1, comm.connectRecv, comm.connectSend, log0, comm.bootLog)
  {
    var recvPeer := RecvPeer(comm.rank, comm.nRanks, i);
    var sendPeer := SendPeer(comm.rank, comm.nRanks, i);
    BarrierPeers(P, i, comm.connectRecv, comm.connectSend, log0, comm.bootLog);
    ghost var recv, send, log := comm.connectRecv, comm.connectSend, comm.bootLog;
    st := FlagStep(comm, boot, recvPeer, sendPeer, BarrierTag(i, graphId),
                   comm.connectRecv[recvPeer] != {}, comm.connectSend[sendPeer] != {}, stIn);
    if Failed(st) { return; }
    BarrierStep(P, i, recv, send, log0, log, comm.bootLog);
    comm.connectRecv := comm.connectRecv[recvPeer := {}];
    comm.connectSend := comm.connectSend[sendPeer := {}];
  }

  /** The barrier of src/transport.cc:254-277: for every distance, a flag
      exchange with each peer that has an intent, then both masks cleared. */
  method Barrier(comm: Comm, boot: Bootstrap, graphId: Option<int>, ghost P: Plan, stIn: Status) returns (st: Status)
    requires PlanOk(P) && P.graphId == graphId && !Failed(stIn)
    requires comm.rank == P.rank && comm.nRanks == P.n
    requires comm.connectRecv == P.recvMasks && comm.connectSend == P.sendMasks
    modifies comm`connectRecv, comm`connectSend, comm`bootLog
    ensures |comm.connectRecv| == P.n && |comm.connectSend| == P.n
    ensures BarrierOk(P, boot) ==> !Failed(st)
    ensures !Failed(st) ==>
      && comm.bootLog == old(comm.bootLog) + BarrierMsgsUpTo(P, P.n)
      && (forall q :: 0 <= q < P.n ==> comm.connectRecv[q] == if q == P.rank then P.recvMasks[q] else {})
      && (forall q :: 0 <= q < P.n ==> comm.connectSend[q] == if q == P.rank then P.sendMasks[q] else {})
  {
    st := stIn;
    BarrierStart(P, comm.bootLog);
    for i := 1 to comm.nRanks
      invariant !Failed(st) && |comm.connectRecv| == P.n && |comm.connectSend| == P.n
      invariant BarrierState(P, i, comm.connectRecv, comm.connectSend, old(comm.bootLog), comm.bootLog)
    {
      st := BarrierRound(comm, boot, graphId, P, i, old(comm.bootLog), st);
      if Failed(st) { return; }
    }
    BarrierDone(P, comm.connectRecv, comm.connectSend, old(comm.bootLog), comm.bootLog);
  }

  /** One distance of the selection loop (src/transport.cc:102-157): select
      and pack both peers' channels, exchange them, and keep the reply and
      its offsets in the round's slot `p`. */
  method DistanceStep(comm: Comm, be: Backends, boot: Bootstrap, P: Plan, i: int, p: int, data: array<Buf>,
                      recvOff: array<int>, sendOff: array<int>, highestIn: int, stIn: Status)
    returns (st: Status, highest: int, out: seq<Handle>)
    requires PlanOk(P) && !Failed(stIn) && 1 <= i < P.n && 0 <= p < data.Length
    requires p < recvOff.Length && p < sendOff.Length && recvOff != sendOff
    requires comm.rank == P.rank && comm.nRanks == P.n
    requires comm.connectRecv == P.recvMasks && comm.connectSend == P.sendMasks
    modifies comm`conns, comm`setupLog, comm`bootLog, data, recvOff, sendOff
    ensures comm.connectRecv == P.recvMasks && comm.connectSend == P.sendMasks
    ensures DistanceOk(P, be, boot, i) ==> !Failed(st)
    ensures !Failed(st) ==>
      && comm.conns == PackedConns(P, be, old(comm.conns), i)
      && comm.setupLog == old(comm.setupLog) + Calls(P, be, i)
      && highest == MaxType(highestIn, Calls(P, be, i))
      && comm.bootLog == old(comm.bootLog) + ExchangeMsgs(P, be, i)
      && RC(P, i) + SC(P, i) <= |out| && (Busy(P, i) ==> |out| == 2 * MaxChannels)
      && (forall x :: 0 <= x < RC(P, i) + SC(P, i) ==> out[x] == XHandle(P, boot, i, x))
      && data[..] == (if Busy(P, i) then old(data[..])[p := Block(out)] else old(data[..]))
      && recvOff[..] == old(recvOff[..])[p := XRecvOff(P, i)] && sendOff[..] == old(sendOff[..])[p := XSendOff(P, i)]
  {
    var recvPeer := RecvPeer(comm.rank, comm.nRanks, i);
    var sendPeer := SendPeer(comm.rank, comm.nRanks, i);
    var recvMask := comm.connectRecv[recvPeer];
    var sendMask := comm.connectSend[sendPeer];
    ghost var conns0, log0 := comm.conns, comm.setupLog;
    var buf, rc, sc;
    st, buf, rc, sc, highest := PackPeer(comm, be, recvPeer, sendPeer, recvMask, sendMask, P.connIndex, highestIn, stIn);
    if Failed(st) {
      out := [];
      return;
    }
    PackedPlan(P, be, i, conns0, log0, highestIn, comm.conns, comm.setupLog, buf, rc, sc, highest);
    var ro, so;
    st, out, ro, so := ExchangeDistance(comm, boot, P, i, buf, rc, sc, RecvHandlesOf(P, be, i), SendHandlesOf(P, be, i), st);
    if Failed(st) {
      return;
    }
    if recvMask != {} || sendMask != {} {
      data[p] := Block(out);
    }
    recvOff[p] := ro;
    sendOff[p] := so;
  }

  /** The logs and the highest type after distance `i` are those of the
      first `i + 1` distances. */
  lemma LogsStep(P: Plan, be: Backends, i: int, log0: seq<SetupCall>, boot0: seq<BootMsg>,
                 logA: seq<SetupCall>, bootA: seq<BootMsg>, hA: int, logB: seq<SetupCall>, bootB: seq<BootMsg>, hB: int)
    requires PlanOk(P) && 1 <= i < P.n
    requires logA == log0 + CallsUpTo(P, be, i) && logB == logA + Calls(P, be, i)
    requires bootA == boot0 + ExchangeMsgsUpTo(P, be, i) && bootB == bootA + ExchangeMsgs(P, be, i)
    requires hA == MaxType(TransportUndefined, CallsUpTo(P, be, i)) && hB == MaxType(hA, Calls(P, be, i))
    ensures logB == log0 + CallsUpTo(P, be, i + 1) && bootB == boot0 + ExchangeMsgsUpTo(P, be, i + 1)
    ensures hB == MaxType(TransportUndefined, CallsUpTo(P, be, i + 1))
  {
    AppendAssoc(log0, CallsUpTo(P, be, i), Calls(P, be, i));
    AppendAssoc(boot0, ExchangeMsgsUpTo(P, be, i), ExchangeMsgs(P, be, i));
    MaxTypeConcat(TransportUndefined, CallsUpTo(P, be, i), Calls(P, be, i));
  }

  /** `rounds` are the rounds drained up to distance `done`: the partition
      of the distances is `rounds` followed by the rounds after `done`. */
  ghost predicate RoundsSoFar(rounds: seq<(int, int)>, done: int, n: int, maxPeers: int)
    requires 0 <= done && maxPeers > 0
  {
    rounds + Rounds(done + 1, n, maxPeers) == Rounds(1, n, maxPeers)
  }

  /** Draining at distance `i` appends the next round of the partition. */
  lemma RoundsStep(rounds: seq<(int, int)>, done: int, i: int, n: int, maxPeers: int)
    requires 0 <= done < i < n && maxPeers > 0 && i - done <= maxPeers
    requires DrainsAt(done, i, n, maxPeers)
    requires forall j :: done < j < i ==> !DrainsAt(done, j, n, maxPeers)
    requires RoundsSoFar(rounds, done, n, maxPeers)
    ensures RoundsSoFar(rounds + [(done + 1, i)], i, n, maxPeers)
  {
    DrainIsRound(done, i, n, maxPeers);
    AppendAssoc(rounds, [(done + 1, i)], Rounds(i + 1, n, maxPeers));
  }

  /** The state of the setup after the distances below `i`: `TopState`, the
      rounds drained so far, the setup calls, the highest type and the
      messages of those distances. */
  ghost predicate Progress(P: Plan, be: Backends, boot: Bootstrap, V0: View, maxPeers: int, log0: seq<SetupCall>,
                           boot0: seq<BootMsg>, i: int, done: int, rounds: seq<(int, int)>, highest: int, v: View,
                           log: seq<SetupCall>, bl: seq<BootMsg>, blks: seq<Buf>, ro: seq<int>, so: seq<int>)
  {
    // Stated as an equation so that a goal `Progress(...)` is proved as one fact.
    ProgressCore(P, be, boot, V0, maxPeers, log0, boot0, i, done, rounds, highest, v, log, bl, blks, ro, so) == true
  }

  ghost predicate ProgressCore(P: Plan, be: Backends, boot: Bootstrap, V0: View, maxPeers: int, log0: seq<SetupCall>,
                               boot0: seq<BootMsg>, i: int, done: int, rounds: seq<(int, int)>, highest: int, v: View,
                               log: seq<SetupCall>, bl: seq<BootMsg>, blks: seq<Buf>, ro: seq<int>, so: seq<int>)
  {
    && TopState(P, be, boot, V0, i, done, v, blks, ro, so) && maxPeers > 0
    && i - done <= maxPeers && (i == P.n ==> done == P.n - 1)
    && (forall j :: done < j < i ==> !DrainsAt(done, j, P.n, maxPeers))
    && RoundsSoFar(rounds, done, P.n, maxPeers)
    && log == log0 + CallsUpTo(P, be, i) && highest == MaxType(TransportUndefined, CallsUpTo(P, be, i))
    && bl == boot0 + ExchangeMsgsUpTo(P, be, i)
  }

  /** Once every distance is handled, the setup is done as `SetupDone` says,
      with the setup calls, highest type, messages and rounds of the
      specification functions. */
  lemma ProgressFinal(P: Plan, be: Backends, boot: Bootstrap, V0: View, maxPeers: int, log0: seq<SetupCall>,
                      boot0: seq<BootMsg>, done: int, rounds: seq<(int, int)>, highest: int, v: View,
                      log: seq<SetupCall>, bl: seq<BootMsg>, blks: seq<Buf>, ro: seq<int>, so: seq<int>)
    requires Progress(P, be, boot, V0, maxPeers, log0, boot0, P.n, done, rounds, highest, v, log, bl, blks, ro, so)
    ensures SetupDone(P, be, boot, V0, v)
    ensures log == log0 + CallsUpTo(P, be, P.n) && highest == MaxType(TransportUndefined, CallsUpTo(P, be, P.n))
    ensures bl == boot0 + ExchangeMsgsUpTo(P, be, P.n) && rounds == Rounds(1, P.n, maxPeers)
  {
    TopFinal(P, be, boot, V0, v, blks, ro, so);
  }

  /** The state after distance `i` has been packed and exchanged, before the
      drain test: `TopState` at `i + 1` with the round still open at `done`,
      and the setup calls, highest type and messages up to `i + 1`. */
  ghost predicate Packed(P: Plan, be: Backends, boot: Bootstrap, V0: View, maxPeers: int, log0: seq<SetupCall>,
                         boot0: seq<BootMsg>, i: int, done: int, rounds: seq<(int, int)>, highest: int, v: View,
                         log: seq<SetupCall>, bl: seq<BootMsg>, blks: seq<Buf>, ro: seq<int>, so: seq<int>)
  {
    // Stated as an equation so that a goal `Packed(...)` is proved as one fact.
    PackedCore(P, be, boot, V0, maxPeers, log0, boot0, i, done, rounds, highest, v, log, bl, blks, ro, so) == true
  }

  ghost predicate PackedCore(P: Plan, be: Backends, boot: Bootstrap, V0: View, maxPeers: int, log0: seq<SetupCall>,
                             boot0: seq<BootMsg>, i: int, done: int, rounds: seq<(int, int)>, highest: int, v: View,
                             log: seq<SetupCall>, bl: seq<BootMsg>, blks: seq<Buf>, ro: seq<int>, so: seq<int>)
  {
    && TopState(P, be, boot, V0, i + 1, done, v, blks, ro, so) && maxPeers > 0
    && done < i < P.n && i - done <= maxPeers
    && (forall j :: done < j < i ==> !DrainsAt(done, j, P.n, maxPeers))
    && RoundsSoFar(rounds, done, P.n, maxPeers)
    && log == log0 + CallsUpTo(P, be, i + 1) && highest == MaxType(TransportUndefined, CallsUpTo(P, be, i + 1))
    && bl == boot0 + ExchangeMsgsUpTo(P, be, i + 1)
  }

  /** Packing and exchanging distance `i` takes `Progress` at `i` to
      `Packed` at `i` for the new state `v'`, `log`, `bl`, `blks'`, `ro'`, `so'`. */
  lemma PackProgress(P: Plan, be: Backends, boot: Bootstrap, V0: View, maxPeers: int, log0: seq<SetupCall>,
                     boot0: seq<BootMsg>, i: int, done: int, rounds: seq<(int, int)>, hI: int, v: View,
                     logI: seq<SetupCall>, bootI: seq<BootMsg>, blks: seq<Buf>, ro: seq<int>, so: seq<int>,
                     out: seq<Handle>, h: int, v': View, log: seq<SetupCall>, bl: seq<BootMsg>, blks': seq<Buf>,
                     ro': seq<int>, so': seq<int>)
    requires Progress(P, be, boot, V0, maxPeers, log0, boot0, i, done, rounds, hI, v, logI, bootI, blks, ro, so)
    requires i < P.n && |blks| == maxPeers
    requires Busy(P, i) ==> |out| == 2 * MaxChannels
    requires RC(P, i) + SC(P, i) <= |out|
    requires forall x :: 0 <= x < RC(P, i) + SC(P, i) ==> out[x] == XHandle(P, boot, i, x)
    requires v' == View(PackedConns(P, be, v.conns, i), v.rec, v.pub)
    requires blks' == if Busy(P, i) then blks[i - done - 1 := Block(out)] else blks
    requires ro' == ro[i - done - 1 := XRecvOff(P, i)] && so' == so[i - done - 1 := XSendOff(P, i)]
    requires log == logI + Calls(P, be, i) && bl == bootI + ExchangeMsgs(P, be, i) && h == MaxType(hI, Calls(P, be, i))
    ensures Packed(P, be, boot, V0, maxPeers, log0, boot0, i, done, rounds, h, v', log, bl, blks', ro', so')
  {
    PackStep(P, be, boot, V0, i, done, v, blks, ro, so, out);
    LogsStep(P, be, i, log0, boot0, logI, bootI, hI, log, bl, h);
  }

  /** When distance `i` does not close the round, `Progress` holds at
      `i + 1` with the same drained rounds. */
  lemma KeepProgress(P: Plan, be: Backends, boot: Bootstrap, V0: View, maxPeers: int, log0: seq<SetupCall>,
                     boot0: seq<BootMsg>, i: int, done: int, rounds: seq<(int, int)>, h: int, v: View,
                     log: seq<SetupCall>, bl: seq<BootMsg>, blks: seq<Buf>, ro: seq<int>, so: seq<int>)
    requires Packed(P, be, boot, V0, maxPeers, log0, boot0, i, done, rounds, h, v, log, bl, blks, ro, so)
    requires !DrainsAt(done, i, P.n, maxPeers)
    ensures Progress(P, be, boot, V0, maxPeers, log0, boot0, i + 1, done, rounds, h, v, log, bl, blks, ro, so)
  {
  }

  /** Draining the round that distance `i` closes, which takes the packed
      state `v`, `blks` to `v'`, `blks'`, gives `Progress` at `i + 1` with
      one more round. */
  lemma DrainProgress(P: Plan, be: Backends, boot: Bootstrap, V0: View, maxPeers: int, log0: seq<SetupCall>,
                      boot0: seq<BootMsg>, i: int, done: int, rounds: seq<(int, int)>, h: int, v: View,
                      log: seq<SetupCall>, bl: seq<BootMsg>, blks: seq<Buf>, ro: seq<int>, so: seq<int>,
                      v': View, blks': seq<Buf>)
    requires Packed(P, be, boot, V0, maxPeers, log0, boot0, i, done, rounds, h, v, log, bl, blks, ro, so)
    requires DrainsAt(done, i, P.n, maxPeers)
    requires TopState(P, be, boot, V0, i + 1, i, v', blks', ro, so)
    ensures Progress(P, be, boot, V0, maxPeers, log0, boot0, i + 1, i, rounds + [(done + 1, i)], h, v', log, bl,
                     blks', ro, so)
  {
    RoundsStep(rounds, done, i, P.n, maxPeers);
  }

  /** The drain of a round (src/transport.cc:159-235): retry the round's
      connectors until every one is connected; the round then joins the
      drained ones. */
  method RoundDrain(comm: Comm, be: Backends, cuda: Cuda, boot: Bootstrap, P: Plan, maxPeers: int, i: int, done: int,
                    data: array<Buf>, recvOff: array<int>, sendOff: array<int>, ghost highest: int, ghost V0: View,
                    ghost log0: seq<SetupCall>, ghost boot0: seq<BootMsg>, ghost rounds: seq<(int, int)>,
                    ghost bound: nat, stIn: Status)
    returns (st: Status, doneOut: int, ghost roundsOut: seq<(int, int)>)
    requires !Failed(stIn) && EventuallyConnects(be, bound) && data.Length == maxPeers
    requires comm.rank == P.rank && comm.nRanks == P.n
    requires comm.connectRecv == P.recvMasks && comm.connectSend == P.sendMasks
    requires Packed(P, be, boot, V0, maxPeers, log0, boot0, i, done, rounds, highest, comm.Snapshot(),
                    comm.setupLog, comm.bootLog, data[..], recvOff[..], sendOff[..])
    modifies comm`conns, comm`connectedBy, comm`published, data
    ensures IntentsOk(P, be, cuda) ==> !Failed(st)
    ensures SetupOk(P, be, boot, cuda) ==> !Failed(st)
    ensures !Failed(st) ==> Progress(P, be, boot, V0, maxPeers, log0, boot0, i + 1, doneOut, roundsOut, highest,
                                     comm.Snapshot(), comm.setupLog, comm.bootLog, data[..], recvOff[..], sendOff[..])
  {
    st, doneOut, roundsOut := stIn, done, rounds;
    if !DrainsAt(done, i, P.n, maxPeers) {
      KeepProgress(P, be, boot, V0, maxPeers, log0, boot0, i, done, rounds, highest, comm.Snapshot(), comm.setupLog,
                   comm.bootLog, data[..], recvOff[..], sendOff[..]);
      return;
    }
    doneOut, roundsOut := i, rounds + [(done + 1, i)];
    ghost var v, blks, log, bl := comm.Snapshot(), data[..], comm.setupLog, comm.bootLog;
    var R := RoundOf(P, done, i, recvOff[..], sendOff[..]);
    if IntentsOk(P, be, cuda) {
      forall k | InRound(R, k)
        ensures KeyOk(be, cuda, k)
      {
        InRoundIntent(P, done, i, recvOff[..], sendOff[..], k);
      }
    }
    st := DrainBatch(comm, be, cuda, R, data, recvOff, sendOff, bound, stIn);
    if !Failed(st) {
      RoundStep(P, be, boot, V0, i, done, v, blks, recvOff[..], sendOff[..], comm.Snapshot(), data[..]);
      DrainProgress(P, be, boot, V0, maxPeers, log0, boot0, i, done, rounds, highest, v, log, bl, blks, recvOff[..],
                    sendOff[..], comm.Snapshot(), data[..]);
    }
  }

  /** The first half of an iteration of the distance loop
      (src/transport.cc:102-157): the selection, the packing and the
      exchange of distance `i`. */
  method PackDistance(comm: Comm, be: Backends, ghost cuda: Cuda, boot: Bootstrap, P: Plan, maxPeers: int, i: int,
                      done: int, data: array<Buf>, recvOff: array<int>, sendOff: array<int>, highestIn: int, ghost V0: View,
                      ghost log0: seq<SetupCall>, ghost boot0: seq<BootMsg>, ghost rounds: seq<(int, int)>,
                      stIn: Status)
    returns (st: Status, highest: int)
    requires !Failed(stIn) && 1 <= i < P.n
    requires data.Length == maxPeers && recvOff != sendOff
    requires comm.rank == P.rank && comm.nRanks == P.n
    requires comm.connectRecv == P.recvMasks && comm.connectSend == P.sendMasks
    requires Progress(P, be, boot, V0, maxPeers, log0, boot0, i, done, rounds, highestIn, comm.Snapshot(),
                      comm.setupLog, comm.bootLog, data[..], recvOff[..], sendOff[..])
    modifies comm`conns, comm`setupLog, comm`bootLog, data, recvOff, sendOff
    ensures comm.connectRecv == P.recvMasks && comm.connectSend == P.sendMasks
    ensures DistancesOk(P, be, boot) ==> !Failed(st)
    ensures SetupOk(P, be, boot, cuda) ==> !Failed(st)
    ensures !Failed(st) ==> Packed(P, be, boot, V0, maxPeers, log0, boot0, i, done, rounds, highest, comm.Snapshot(),
                                   comm.setupLog, comm.bootLog, data[..], recvOff[..], sendOff[..])
  {
    var out;
    st, highest, out := DistanceStep(comm, be, boot, P, i, i - done - 1, data, recvOff, sendOff, highestIn, stIn);
    if !Failed(st) {
      PackProgress(P, be, boot, V0, maxPeers, log0, boot0, i, done, rounds, highestIn, old(comm.Snapshot()),
                   old(comm.setupLog), old(comm.bootLog), old(data[..]), old(recvOff[..]), old(sendOff[..]), out,
                   highest, comm.Snapshot(), comm.setupLog, comm.bootLog, data[..], recvOff[..], sendOff[..]);
    }
  }

  /** One iteration of the distance loop (src/transport.cc:102-235): the
      distance itself and, when it closes a round, the drain of the round. */
  method DistanceRound(comm: Comm, be: Backends, cuda: Cuda, boot: Bootstrap, P: Plan, maxPeers: int, i: int, done: int,
                       data: array<Buf>, recvOff: array<int>, sendOff: array<int>, highestIn: int, ghost V0: View,
                       ghost log0: seq<SetupCall>, ghost boot0: seq<BootMsg>, ghost rounds: seq<(int, int)>,
                       ghost bound: nat, stIn: Status)
    returns (st: Status, doneOut: int, highest: int, ghost roundsOut: seq<(int, int)>)
    requires !Failed(stIn) && EventuallyConnects(be, bound) && 1 <= i < P.n
    requires data.Length == maxPeers && recvOff != sendOff
    requires comm.rank == P.rank && comm.nRanks == P.n
    requires comm.connectRecv == P.recvMasks && comm.connectSend == P.sendMasks
    requires Progress(P, be, boot, V0, maxPeers, log0, boot0, i, done, rounds, highestIn, comm.Snapshot(),
                      comm.setupLog, comm.bootLog, data[..], recvOff[..], sendOff[..])
    modifies comm`conns, comm`setupLog, comm`bootLog, comm`connectedBy, comm`published, data, recvOff, sendOff
    ensures SetupOk(P, be, boot, cuda) ==> !Failed(st)
    ensures !Failed(st) ==> Progress(P, be, boot, V0, maxPeers, log0, boot0, i + 1, doneOut, roundsOut, highest,
                                     comm.Snapshot(), comm.setupLog, comm.bootLog, data[..], recvOff[..], sendOff[..])
  {
    doneOut, roundsOut := done, rounds;
    st, highest := PackDistance(comm, be, cuda, boot, P, maxPeers, i, done, data, recvOff, sendOff, highestIn, V0, log0,
                                boot0, rounds, stIn);
    if Failed(st) {
      return;
    }
    st, doneOut, roundsOut := RoundDrain(comm, be, cuda, boot, P, maxPeers, i, done, data, recvOff, sendOff, highest,
                                         V0, log0, boot0, rounds, bound, st);
  }

  /** The distance loop of src/transport.cc:102-236: every distance from 1
      to `nRanks - 1`, each followed by the drain of its round when it
      closes one. */
  method Distances(comm: Comm, be: Backends, cuda: Cuda, boot: Bootstrap, P: Plan, maxPeers: int,
                   data: array<Buf>, recvOff: array<int>, sendOff: array<int>, ghost V0: View,
                   ghost log0: seq<SetupCall>, ghost boot0: seq<BootMsg>, ghost bound: nat)
    returns (st: Status, highest: int, done: int, ghost rounds: seq<(int, int)>)
    requires comm.Valid() && EventuallyConnects(be, bound)
    requires data.Length == maxPeers && recvOff != sendOff
    requires comm.rank == P.rank && comm.nRanks == P.n
    requires comm.connectRecv == P.recvMasks && comm.connectSend == P.sendMasks
    requires Progress(P, be, boot, V0, maxPeers, log0, boot0, 1, 0, [], TransportUndefined, comm.Snapshot(),
                      comm.setupLog, comm.bootLog, data[..], recvOff[..], sendOff[..])
    modifies comm`conns, comm`setupLog, comm`bootLog, comm`connectedBy, comm`published, data, recvOff, sendOff
    ensures comm.Valid() && comm.connectRecv == P.recvMasks && comm.connectSend == P.sendMasks
    ensures SetupOk(P, be, boot, cuda) ==> !Failed(st)
    ensures !Failed(st) ==> Progress(P, be, boot, V0, maxPeers, log0, boot0, P.n, done, rounds, highest,
                                     comm.Snapshot(), comm.setupLog, comm.bootLog, data[..], recvOff[..], sendOff[..])
  {
    highest, done, st, rounds := TransportUndefined, 0, Success, [];
    for i := 1 to comm.nRanks
      invariant comm.Valid() && comm.connectRecv == P.recvMasks && comm.connectSend == P.sendMasks
      invariant !Failed(st)
      invariant Progress(P, be, boot, V0, maxPeers, log0, boot0, i, done, rounds, highest, comm.Snapshot(),
                         comm.setupLog, comm.bootLog, data[..], recvOff[..], sendOff[..])
    {
      st, done, highest, rounds := DistanceRound(comm, be, cuda, boot, P, maxPeers, i, done, data, recvOff, sendOff,
                                                 highest, V0, log0, boot0, rounds, bound, st);
      if Failed(st) {
        return;
      }
    }
  }

  /** The selection and connect phases of the point-to-point setup
      (src/transport.cc:79-236): the round buffers are allocated, every
      distance is packed and exchanged, and every round is connected. */
  method SetupRounds(comm: Comm, be: Backends, boot: Bootstrap, cuda: Cuda, P: Plan, maxPeers: int, ghost bound: nat)
    returns (st: Status, highest: int, ghost rounds: seq<(int, int)>)
    requires comm.Valid() && maxPeers > 0 && EventuallyConnects(be, bound)
    requires comm.rank == P.rank && comm.nRanks == P.n
    requires comm.connectRecv == P.recvMasks && comm.connectSend == P.sendMasks
    modifies comm`conns, comm`setupLog, comm`bootLog, comm`connectedBy, comm`published
    ensures comm.Valid()
    ensures SetupOk(P, be, boot, cuda) ==> !Failed(st)
    ensures !Failed(st) ==>
      && SetupDone(P, be, boot, old(comm.Snapshot()), comm.Snapshot())
      && comm.setupLog == old(comm.setupLog) + CallsUpTo(P, be, P.n)
      && highest == MaxType(TransportUndefined, CallsUpTo(P, be, P.n))
      && comm.bootLog == old(comm.bootLog) + ExchangeMsgsUpTo(P, be, P.n)
      && rounds == Rounds(1, P.n, maxPeers)
  {
    ghost var V0 := comm.Snapshot();
    ghost var log0, boot0 := comm.setupLog, comm.bootLog;
    var data := new Buf[maxPeers](_ => Null);
    var recvOff := new int[maxPeers](_ => 0);
    var sendOff := new int[maxPeers](_ => 0);
    TopStart(P, be, boot, V0, data[..], recvOff[..], sendOff[..]);
    assert RoundsSoFar([], 0, P.n, maxPeers);
    var done;
    st, highest, done, rounds := Distances(comm, be, cuda, boot, P, maxPeers, data, recvOff, sendOff, V0, log0, boot0,
                                           bound);
    if Failed(st) {
      return;
    }
    ProgressFinal(P, be, boot, V0, maxPeers, log0, boot0, done, rounds, highest, comm.Snapshot(), comm.setupLog, comm.bootLog,
                  data[..], recvOff[..], sendOff[..]);
  }

  /** `ncclTransportP2pSetup` (src/transport.cc:79-291) with `maxPeers`
      for NCCL_CONNECT_ROUND_MAX_PEERS. Distance by distance it selects a
      transport for every intent channel and exchanges the handles with
      the two peers of the distance; every `maxPeers` distances, and at
      the last one, it retries connecting the round until every connector
      of the round is connected; then it runs the barrier. On success
      every intent connector is bound and connected as `SetupDone` says,
      the setup calls, the messages and the rounds are those of the
      specification functions, the intent masks of every other peer are
      cleared, and the highest transport type is reported. */
  method P2pSetup(comm: Comm, be: Backends, boot: Bootstrap, cuda: Cuda, graphId: Option<int>, connIndex: int,
                  maxPeers: int, ghost bound: nat)
    returns (st: Status, highestType: Option<int>, ghost rounds: seq<(int, int)>)
    requires comm.Valid() && maxPeers > 0 && EventuallyConnects(be, bound)
    modifies comm`conns, comm`setupLog, comm`bootLog, comm`connectedBy, comm`published, comm`connectRecv, comm`connectSend
    ensures comm.Valid()
    ensures highestType.Some? <==> !Failed(st)
    ensures var P := Plan(comm.rank, comm.nRanks, connIndex, graphId, old(comm.connectRecv), old(comm.connectSend));
      NoFailure(P, be, boot, cuda) ==> !Failed(st)
    ensures var P := Plan(comm.rank, comm.nRanks, connIndex, graphId, old(comm.connectRecv), old(comm.connectSend));
      !Failed(st) ==>
        && SetupDone(P, be, boot, old(comm.Snapshot()), comm.Snapshot())
        && comm.setupLog == old(comm.setupLog) + CallsUpTo(P, be, P.n)
        && highestType == Some(MaxType(TransportUndefined, CallsUpTo(P, be, P.n)))
        && comm.bootLog == old(comm.bootLog) + ExchangeMsgsUpTo(P, be, P.n) + BarrierMsgsUpTo(P, P.n)
        && (forall q :: 0 <= q < P.n ==> comm.connectRecv[q] == if q == P.rank then P.recvMasks[q] else {})
        && (forall q :: 0 <= q < P.n ==> comm.connectSend[q] == if q == P.rank then P.sendMasks[q] else {})
        && rounds == Rounds(1, P.n, maxPeers)
  {
    var P := Plan(comm.rank, comm.nRanks, connIndex, graphId, comm.connectRecv, comm.connectSend);
    highestType := None;
    var highest;
    st, highest, rounds := SetupRounds(comm, be, boot, cuda, P, maxPeers, bound);
    if Failed(st) {
      return;
    }
    st := Barrier(comm, boot, graphId, P, st);
    if Failed(st) {
      return;
    }
    highestType := Some(highest);
  }
}
