/** Handle packing and handle exchange of one ring distance of the
    point-to-point setup (src/transport.cc:106-157): transport selection for
    every channel of the recv mask, then of the send mask, writing the
    handles contiguously (recv handles first, in increasing channel order,
    then send handles), and the bootstrap exchange of those handles. */
module P2pPack {
  import opened Types
  import opened CommState
  import opened Select

  /** The transport the scan picks for `peer` (TransportUndefined if none). */
  function SelectedT(be: Backends, peer: int): int {
    match Scan(be, peer, 0)
    case Chosen(t) => t
    case _ => TransportUndefined
  }

  /** The setup calls made for the channels `cs`, in order. */
  function SetupCalls(t: int, dir: Dir, peer: int, connIndex: int, cs: seq<int>): (r: seq<SetupCall>)
    ensures |r| == |cs|
  {
    seq(|cs|, k requires 0 <= k < |cs| => SetupCall(t, dir, cs[k], peer, connIndex))
  }

  function Max(a: int, b: int): int {
    if a < b then b else a
  }

  /** `highestType` after folding `if (type > highestType) highestType = type`
      over the transports of `calls`, starting from `h`. */
  function MaxType(h: int, calls: seq<SetupCall>): int
    decreases |calls|
  {
    if calls == [] then h else Max(MaxType(h, calls[..|calls| - 1]), calls[|calls| - 1].transport)
  }

  /** The fold is the maximum: never below the start or below any transport
      in the log, and equal to the start or to one of the logged transports. */
  lemma {:induction false} MaxTypeIsMax(h: int, calls: seq<SetupCall>)
    ensures MaxType(h, calls) >= h
    ensures forall k :: 0 <= k < |calls| ==> MaxType(h, calls) >= calls[k].transport
    ensures MaxType(h, calls) == h || exists k :: 0 <= k < |calls| && MaxType(h, calls) == calls[k].transport
    decreases |calls|
  {
    if calls != [] {
      var init := calls[..|calls| - 1];
      MaxTypeIsMax(h, init);
      assert forall k :: 0 <= k < |init| ==> init[k] == calls[k];
      if MaxType(h, calls) != h && MaxType(h, calls) != calls[|calls| - 1].transport {
        var k :| 0 <= k < |init| && MaxType(h, init) == init[k].transport;
        assert MaxType(h, calls) == calls[k].transport;
      }
    }
  }

  /** Folding over two logs one after the other is folding over their concatenation. */
  lemma {:induction false} MaxTypeConcat(h: int, a: seq<SetupCall>, b: seq<SetupCall>)
    ensures MaxType(MaxType(h, a), b) == MaxType(h, a + b)
    decreases |b|
  {
    if b == [] {
      assert a + b == a;
    } else {
      var b' := b[..|b| - 1];
      MaxTypeConcat(h, a, b');
      assert (a + b)[..|a + b| - 1] == a + b';
    }
  }

  /** The connectors after binding backend `T` to the `dir` connector of
      `peer` on every channel of `cs`, each with the result of its setup. */
  function BindAll(conns: map<ConnKey, Connector>, be: Backends, T: int, dir: Dir, peer: int, connIndex: int,
                   cs: seq<int>): map<ConnKey, Connector>
    decreases |cs|
  {
    if cs == [] then conns
    else
      var c := cs[|cs| - 1];
      var m := BindAll(conns, be, T, dir, peer, connIndex, cs[..|cs| - 1]);
      var k := ConnKey(dir, c, peer, connIndex);
      m[k := Bound(Get(m, k), T, dir, be.setup(T, dir, c, peer, connIndex))]
  }

  /** Binding touches exactly the `dir` connectors of `peer` on the listed
      channels, and never the `connected` flag of any connector. */
  lemma {:induction false} BindAllGet(conns: map<ConnKey, Connector>, be: Backends, T: int, dir: Dir, peer: int,
                                      connIndex: int, cs: seq<int>, k: ConnKey)
    ensures var r := Get(BindAll(conns, be, T, dir, peer, connIndex, cs), k);
      && r.connected == Get(conns, k).connected
      && (if k.dir == dir && k.peer == peer && k.index == connIndex && k.channel in cs
          then r == Bound(Get(conns, k), T, dir, be.setup(T, dir, k.channel, peer, connIndex))
          else r == Get(conns, k))
    decreases |cs|
  {
    if cs != [] {
      var init := cs[..|cs| - 1];
      BindAllGet(conns, be, T, dir, peer, connIndex, init, k);
      assert k.channel in cs <==> k.channel in init || k.channel == cs[|cs| - 1];
    }
  }

  /** Both maps agree on every connector's `connected` flag. */
  ghost predicate SameConnected(a: map<ConnKey, Connector>, b: map<ConnKey, Connector>) {
    forall k: ConnKey :: Get(a, k).connected == Get(b, k).connected
  }

  /** The state of a selection loop after channels `0..c-1`: the setup log,
      the highest transport, the connectors and the handle block reflect
      exactly the channels of `mask` below `c`. */
  ghost predicate Packed(be: Backends, T: int, dir: Dir, peer: int, connIndex: int, mask: Mask, c: int,
                         conns0: map<ConnKey, Connector>, log0: seq<SetupCall>, buf: seq<Handle>, base: int,
                         highestIn: int, conns: map<ConnKey, Connector>, log: seq<SetupCall>, out: seq<Handle>,
                         count: int, highest: int)
  {
    && 0 <= c <= MaxChannels && 0 <= base && base + MaxChannels <= |buf|
    && log == log0 + SetupCalls(T, dir, peer, connIndex, Channels(mask, c))
    && highest == MaxType(highestIn, SetupCalls(T, dir, peer, connIndex, Channels(mask, c)))
    && conns == BindAll(conns0, be, T, dir, peer, connIndex, Channels(mask, c))
    && SameConnected(conns0, conns)
    && Written(be, T, dir, peer, connIndex, Channels(mask, c), buf, base, out, count)
  }

  /** `out` is `buf` with the `count` handles that setup wrote for the
      channels `cs` at `base..base+count-1`. */
  ghost predicate Written(be: Backends, T: int, dir: Dir, peer: int, connIndex: int, cs: seq<int>, buf: seq<Handle>,
                          base: int, out: seq<Handle>, count: int)
  {
    && count == |cs| && |out| == |buf| && 0 <= base && base + count <= |buf|
    && (forall k :: 0 <= k < count ==> out[base + k] == be.setup(T, dir, cs[k], peer, connIndex).handle)
    && (forall x :: 0 <= x < |buf| && !(base <= x < base + count) ==> out[x] == buf[x])
  }

  /** Before the first channel nothing is selected, logged or written. */
  lemma PackStart(be: Backends, T: int, dir: Dir, peer: int, connIndex: int, mask: Mask,
                  conns0: map<ConnKey, Connector>, log0: seq<SetupCall>, buf: seq<Handle>, base: int, highestIn: int)
    requires 0 <= base && base + MaxChannels <= |buf|
    ensures Packed(be, T, dir, peer, connIndex, mask, 0, conns0, log0, buf, base, highestIn, conns0, log0, buf, 0, highestIn)
  {
    assert log0 + SetupCalls(T, dir, peer, connIndex, []) == log0;
  }

  /** A channel outside the mask leaves the loop state as it was. */
  lemma PackSkip(be: Backends, T: int, dir: Dir, peer: int, connIndex: int, mask: Mask, c: int,
                 conns0: map<ConnKey, Connector>, log0: seq<SetupCall>, buf: seq<Handle>, base: int,
                 highestIn: int, conns: map<ConnKey, Connector>, log: seq<SetupCall>, out: seq<Handle>,
                 count: int, highest: int)
    requires c < MaxChannels && c !in mask
    requires Packed(be, T, dir, peer, connIndex, mask, c, conns0, log0, buf, base, highestIn, conns, log, out, count, highest)
    ensures Packed(be, T, dir, peer, connIndex, mask, c + 1, conns0, log0, buf, base, highestIn, conns, log, out, count, highest)
  {
    assert Channels(mask, c + 1) == Channels(mask, c);
  }

  /** A channel of the mask adds one setup call, binds one connector and
      writes one handle at the next free slot. */
  lemma {:induction false} PackExtend(be: Backends, T: int, dir: Dir, peer: int, connIndex: int, mask: Mask, c: int,
                   conns0: map<ConnKey, Connector>, log0: seq<SetupCall>, buf: seq<Handle>, base: int,
                   highestIn: int, conns: map<ConnKey, Connector>, log: seq<SetupCall>, out: seq<Handle>,
                   count: int, highest: int)
    requires c < MaxChannels && c in mask
    requires Packed(be, T, dir, peer, connIndex, mask, c, conns0, log0, buf, base, highestIn, conns, log, out, count, highest)
    ensures var k := ConnKey(dir, c, peer, connIndex);
      var so := be.setup(T, dir, c, peer, connIndex);
      Packed(be, T, dir, peer, connIndex, mask, c + 1, conns0, log0, buf, base, highestIn,
             conns[k := Bound(Get(conns, k), T, dir, so)], log + [SetupCall(T, dir, c, peer, connIndex)],
             out[base + count := so.handle], count + 1, Max(highest, T))
  {
    var k := ConnKey(dir, c, peer, connIndex);
    var so := be.setup(T, dir, c, peer, connIndex);
    ExtendLogs(T, dir, peer, connIndex, mask, c, log0, highestIn, log, highest);
    ExtendConns(be, T, dir, peer, connIndex, mask, c, conns0, conns);
    ExtendOut(be, T, dir, peer, connIndex, mask, c, buf, base, out, count, so.handle, out[base + count := so.handle],
              Channels(mask, c + 1));
  }

  /** The channel list up to `c + 1` of a channel `c` of the mask is the one
      up to `c` followed by `c`. */
  lemma ChannelsNext(mask: Mask, c: int)
    requires 0 <= c < MaxChannels && c in mask
    ensures Channels(mask, c + 1) == Channels(mask, c) + [c]
  {
  }

  /** The setup log and the highest type of `PackExtend`. */
  lemma ExtendLogs(T: int, dir: Dir, peer: int, connIndex: int, mask: Mask, c: int, log0: seq<SetupCall>,
                   highestIn: int, log: seq<SetupCall>, highest: int)
    requires 0 <= c < MaxChannels && c in mask
    requires log == log0 + SetupCalls(T, dir, peer, connIndex, Channels(mask, c))
    requires highest == MaxType(highestIn, SetupCalls(T, dir, peer, connIndex, Channels(mask, c)))
    ensures log + [SetupCall(T, dir, c, peer, connIndex)] == log0 + SetupCalls(T, dir, peer, connIndex, Channels(mask, c + 1))
    ensures Max(highest, T) == MaxType(highestIn, SetupCalls(T, dir, peer, connIndex, Channels(mask, c + 1)))
  {
    var cs := Channels(mask, c);
    ChannelsNext(mask, c);
    var A := SetupCalls(T, dir, peer, connIndex, cs);
    var B := SetupCalls(T, dir, peer, connIndex, cs + [c]);
    assert B == A + [SetupCall(T, dir, c, peer, connIndex)];
    assert B[..|B| - 1] == A;
  }

  /** The connectors of `PackExtend`. */
  lemma ExtendConns(be: Backends, T: int, dir: Dir, peer: int, connIndex: int, mask: Mask, c: int,
                    conns0: map<ConnKey, Connector>, conns: map<ConnKey, Connector>)
    requires 0 <= c < MaxChannels && c in mask
    requires conns == BindAll(conns0, be, T, dir, peer, connIndex, Channels(mask, c))
    ensures var k := ConnKey(dir, c, peer, connIndex);
      var conns' := conns[k := Bound(Get(conns, k), T, dir, be.setup(T, dir, c, peer, connIndex))];
      conns' == BindAll(conns0, be, T, dir, peer, connIndex, Channels(mask, c + 1)) && SameConnected(conns0, conns')
  {
    var cs := Channels(mask, c);
    ChannelsNext(mask, c);
    assert (cs + [c])[..|cs|] == cs;
    var conns' := BindAll(conns0, be, T, dir, peer, connIndex, cs + [c]);
    forall q: ConnKey ensures Get(conns0, q).connected == Get(conns', q).connected {
      BindAllGet(conns0, be, T, dir, peer, connIndex, cs + [c], q);
    }
  }

  /** The handle buffer of `PackExtend`: the handle goes to the next free slot. */
  lemma ExtendOut(be: Backends, T: int, dir: Dir, peer: int, connIndex: int, mask: Mask, c: int,
                  buf: seq<Handle>, base: int, out: seq<Handle>, count: int, h: Handle, out': seq<Handle>, cs': seq<int>)
    requires 0 <= c < MaxChannels && c in mask && 0 <= base && base + MaxChannels <= |buf|
    requires count == |Channels(mask, c)| && |out| == |buf| && cs' == Channels(mask, c + 1)
    requires h == be.setup(T, dir, c, peer, connIndex).handle && out' == out[base + count := h]
    requires forall k :: 0 <= k < count ==> out[base + k] == be.setup(T, dir, Channels(mask, c)[k], peer, connIndex).handle
    requires forall x :: 0 <= x < |buf| && !(base <= x < base + count) ==> out[x] == buf[x]
    ensures && count + 1 == |cs'| && |out'| == |buf|
      && (forall k :: 0 <= k < count + 1 ==> out'[base + k] == be.setup(T, dir, cs'[k], peer, connIndex).handle)
      && (forall x :: 0 <= x < |buf| && !(base <= x < base + count + 1) ==> out'[x] == buf[x])
  {
    ChannelsNext(mask, c);
    ChannelsCount(mask, c + 1);
  }

  /** Selecting a transport for channel `c` to `peer` cannot fail: some
      backend is capable, and its setup for the channel does not fail. */
  predicate ChannelOk(be: Backends, dir: Dir, peer: int, c: int, connIndex: int) {
    Scan(be, peer, 0).Chosen? && !Failed(be.setup(Scan(be, peer, 0).t, dir, c, peer, connIndex).status)
  }

  /** No selection of the loop over `mask` can fail. */
  predicate SelectOk(be: Backends, dir: Dir, peer: int, mask: Mask, connIndex: int) {
    forall c {:trigger ChannelOk(be, dir, peer, c, connIndex)} :: 0 <= c < MaxChannels && c in mask ==> ChannelOk(be, dir, peer, c, connIndex)
  }

  /** One of the two selection loops of src/transport.cc:120-138: selects a
      transport for every channel of `mask`, in increasing channel order,
      writing the handle of the k-th one at `buf[base + k]`. `retIn` is the
      caller's `ret`, which each successful selection resets to success. */
  method PackDir(comm: Comm, be: Backends, dir: Dir, peer: int, mask: Mask, connIndex: int,
                 buf: seq<Handle>, base: int, highestIn: int, retIn: Status)
    returns (st: Status, out: seq<Handle>, count: int, highest: int)
    requires 0 <= base && base + MaxChannels <= |buf| && !Failed(retIn)
    modifies comm`conns, comm`setupLog
    ensures |out| == |buf|
    ensures SameConnected(old(comm.conns), comm.conns)
    ensures SelectOk(be, dir, peer, mask, connIndex) ==> !Failed(st)
    ensures !Failed(st) ==>
      && (count > 0 ==> Scan(be, peer, 0).Chosen? && st == Success)
      && (count == 0 ==> st == retIn)
      && Packed(be, SelectedT(be, peer), dir, peer, connIndex, mask, MaxChannels, old(comm.conns), old(comm.setupLog),
                buf, base, highestIn, comm.conns, comm.setupLog, out, count, highest)
  {
    var T := SelectedT(be, peer);
    st, out, count, highest := retIn, buf, 0, highestIn;
    ghost var log0, conns0 := comm.setupLog, comm.conns;
    PackStart(be, T, dir, peer, connIndex, mask, conns0, log0, buf, base, highestIn);
    for c := 0 to MaxChannels
      invariant !Failed(st) && (count > 0 ==> Scan(be, peer, 0).Chosen? && st == Success) && (count == 0 ==> st == retIn)
      invariant Packed(be, T, dir, peer, connIndex, mask, c, conns0, log0, buf, base, highestIn, comm.conns, comm.setupLog, out, count, highest)
    {
      st, out, count, highest := PackChannel(comm, be, T, dir, peer, mask, connIndex, c, conns0, log0, buf, base, highestIn,
                                             out, count, highest, st, retIn);
      if Failed(st) {
        return;
      }
    }
  }

  /** One iteration of a selection loop: channel `c` of the mask gets a
      transport and its handle goes to the next free slot; any other
      channel is skipped. */
  method PackChannel(comm: Comm, be: Backends, T: int, dir: Dir, peer: int, mask: Mask, connIndex: int, c: int,
                     ghost conns0: map<ConnKey, Connector>, ghost log0: seq<SetupCall>, buf: seq<Handle>, base: int,
                     highestIn: int, outIn: seq<Handle>, countIn: int, highestAcc: int, stIn: Status, retIn: Status)
    returns (st: Status, out: seq<Handle>, count: int, highest: int)
    requires T == SelectedT(be, peer) && 0 <= c < MaxChannels
    requires !Failed(stIn) && (countIn > 0 ==> Scan(be, peer, 0).Chosen? && stIn == Success) && (countIn == 0 ==> stIn == retIn)
    requires Packed(be, T, dir, peer, connIndex, mask, c, conns0, log0, buf, base, highestIn, comm.conns, comm.setupLog,
                    outIn, countIn, highestAcc)
    modifies comm`conns, comm`setupLog
    ensures |out| == |buf| && SameConnected(conns0, comm.conns)
    ensures (c in mask ==> ChannelOk(be, dir, peer, c, connIndex)) ==> !Failed(st)
    ensures !Failed(st) ==>
      && (count > 0 ==> Scan(be, peer, 0).Chosen? && st == Success) && (count == 0 ==> st == retIn)
      && Packed(be, T, dir, peer, connIndex, mask, c + 1, conns0, log0, buf, base, highestIn, comm.conns, comm.setupLog,
                out, count, highest)
  {
    st, out, count, highest := stIn, outIn, countIn, highestAcc;
    if c in mask {
      PackExtend(be, T, dir, peer, connIndex, mask, c, conns0, log0, buf, base, highestIn, comm.conns, comm.setupLog, out, count, highest);
      ghost var scan := Scan(be, peer, 0);
      var s, t, h := SelectTransport(comm, be, dir, c, peer, connIndex);
      if Failed(s) {
        assert !ChannelOk(be, dir, peer, c, connIndex) by {
          if scan.Chosen? {
            assert Failed(be.setup(scan.t, dir, c, peer, connIndex).status);
          }
        }
        st := s;
        return;
      }
      st := Success;
      out := out[base + count := h];
      if t > highest {
        highest := t;
      }
      count := count + 1;
    } else {
      PackSkip(be, T, dir, peer, connIndex, mask, c, conns0, log0, buf, base, highestIn, comm.conns, comm.setupLog, out, count, highest);
    }
  }

  /** The handles that setup writes for the channels `cs`, in order. */
  function Handles(be: Backends, t: int, dir: Dir, peer: int, connIndex: int, cs: seq<int>): (r: seq<Handle>)
    ensures |r| == |cs|
  {
    seq(|cs|, k requires 0 <= k < |cs| => be.setup(t, dir, cs[k], peer, connIndex).handle)
  }

  /** Handles written one by one from `base` on form the handle list. */
  lemma SliceHandles(buf: seq<Handle>, base: int, be: Backends, t: int, dir: Dir, peer: int, connIndex: int, cs: seq<int>)
    requires 0 <= base && base + |cs| <= |buf|
    requires forall k :: 0 <= k < |cs| ==> buf[base + k] == be.setup(t, dir, cs[k], peer, connIndex).handle
    ensures buf[base..base + |cs|] == Handles(be, t, dir, peer, connIndex, cs)
  {
  }

  /** The handles setup writes for the `dir` connectors of `mask` to `peer`. */
  function DirHandles(be: Backends, dir: Dir, peer: int, mask: Mask, connIndex: int): seq<Handle> {
    Handles(be, SelectedT(be, peer), dir, peer, connIndex, Channels(mask, MaxChannels))
  }

  /** The setup calls of one distance: the recv channels of `recvMask`
      with `recvPeer`, then the send channels of `sendMask` with `sendPeer`,
      each on the transport selected for its peer. */
  function PeerCalls(be: Backends, recvPeer: int, sendPeer: int, recvMask: Mask, sendMask: Mask, connIndex: int): seq<SetupCall> {
    SetupCalls(SelectedT(be, recvPeer), Recv, recvPeer, connIndex, Channels(recvMask, MaxChannels))
    + SetupCalls(SelectedT(be, sendPeer), Send, sendPeer, connIndex, Channels(sendMask, MaxChannels))
  }

  /** The connectors once those calls have bound their transports. */
  function PeerConns(conns: map<ConnKey, Connector>, be: Backends, recvPeer: int, sendPeer: int, recvMask: Mask,
                     sendMask: Mask, connIndex: int): map<ConnKey, Connector> {
    BindAll(BindAll(conns, be, SelectedT(be, recvPeer), Recv, recvPeer, connIndex, Channels(recvMask, MaxChannels)),
            be, SelectedT(be, sendPeer), Send, sendPeer, connIndex, Channels(sendMask, MaxChannels))
  }

  /** The outcome of packing one distance from connectors `conns0`, setup
      log `log0` and highest transport `highestIn`: one setup call per
      recv channel and then per send channel, in increasing order, each
      binding its connector; the block holds the recv handles at
      `0..rc-1` and the send handles at `rc..rc+sc-1`. */
  ghost predicate PeerPacked(be: Backends, recvPeer: int, sendPeer: int, recvMask: Mask, sendMask: Mask, connIndex: int,
                             conns0: map<ConnKey, Connector>, log0: seq<SetupCall>, highestIn: int,
                             conns: map<ConnKey, Connector>, log: seq<SetupCall>, buf: seq<Handle>,
                             rc: int, sc: int, highest: int)
  {
    var calls := PeerCalls(be, recvPeer, sendPeer, recvMask, sendMask, connIndex);
    && rc == CountBelow(recvMask, MaxChannels) && sc == CountBelow(sendMask, MaxChannels) && rc + sc <= |buf|
    && (recvMask != {} || sendMask != {} ==> |buf| == 2 * MaxChannels)
    && log == log0 + calls
    && highest == MaxType(highestIn, calls)
    && conns == PeerConns(conns0, be, recvPeer, sendPeer, recvMask, sendMask, connIndex)
    && buf[..rc] == DirHandles(be, Recv, recvPeer, recvMask, connIndex)
    && buf[rc..rc + sc] == DirHandles(be, Send, sendPeer, sendMask, connIndex)
  }

  lemma AppendAssoc<T>(a: seq<T>, b: seq<T>, c: seq<T>)
    ensures a + b + c == a + (b + c)
  {
  }

  /** The two selection loops one after the other pack the distance. */
  lemma PackBoth(be: Backends, recvPeer: int, sendPeer: int, recvMask: Mask, sendMask: Mask, connIndex: int,
                 conns0: map<ConnKey, Connector>, log0: seq<SetupCall>, buf0: seq<Handle>, highestIn: int,
                 conns1: map<ConnKey, Connector>, log1: seq<SetupCall>, buf1: seq<Handle>, rc: int, h1: int,
                 conns2: map<ConnKey, Connector>, log2: seq<SetupCall>, buf2: seq<Handle>, sc: int, h2: int)
    requires |buf0| == 2 * MaxChannels
    requires Packed(be, SelectedT(be, recvPeer), Recv, recvPeer, connIndex, recvMask, MaxChannels, conns0, log0,
                    buf0, 0, highestIn, conns1, log1, buf1, rc, h1)
    requires Packed(be, SelectedT(be, sendPeer), Send, sendPeer, connIndex, sendMask, MaxChannels, conns1, log1,
                    buf1, rc, h1, conns2, log2, buf2, sc, h2)
    ensures PeerPacked(be, recvPeer, sendPeer, recvMask, sendMask, connIndex, conns0, log0, highestIn,
                       conns2, log2, buf2, rc, sc, h2)
  {
    var rcs := Channels(recvMask, MaxChannels);
    var scs := Channels(sendMask, MaxChannels);
    var tr, ts := SelectedT(be, recvPeer), SelectedT(be, sendPeer);
    ChannelsCount(recvMask, MaxChannels);
    ChannelsCount(sendMask, MaxChannels);
    var A := SetupCalls(tr, Recv, recvPeer, connIndex, rcs);
    var B := SetupCalls(ts, Send, sendPeer, connIndex, scs);
    assert PeerCalls(be, recvPeer, sendPeer, recvMask, sendMask, connIndex) == A + B;
    assert log2 == log0 + (A + B) && h2 == MaxType(highestIn, A + B) by {
      AppendAssoc(log0, A, B);
      MaxTypeConcat(highestIn, A, B);
    }
    BlockHandles(be, tr, ts, recvPeer, sendPeer, rcs, scs, connIndex, buf0, buf1, rc, buf2, sc);
  }

  /** The recv handles written at `0..rc-1` survive the writes of the send
      handles at `rc..`: the block holds both handle lists. */
  lemma BlockHandles(be: Backends, tr: int, ts: int, recvPeer: int, sendPeer: int, rcs: seq<int>, scs: seq<int>,
                     connIndex: int, buf0: seq<Handle>, buf1: seq<Handle>, rc: int, buf2: seq<Handle>, sc: int)
    requires rc + sc <= |buf0|
    requires Written(be, tr, Recv, recvPeer, connIndex, rcs, buf0, 0, buf1, rc)
    requires Written(be, ts, Send, sendPeer, connIndex, scs, buf1, rc, buf2, sc)
    ensures buf2[..rc] == Handles(be, tr, Recv, recvPeer, connIndex, rcs)
    ensures buf2[rc..rc + sc] == Handles(be, ts, Send, sendPeer, connIndex, scs)
  {
    forall k | 0 <= k < |rcs|
      ensures buf2[0 + k] == be.setup(tr, Recv, rcs[k], recvPeer, connIndex).handle
    {
      assert buf2[k] == buf1[k];
    }
    SliceHandles(buf2, 0, be, tr, Recv, recvPeer, connIndex, rcs);
    assert buf2[..rc] == buf2[0..rc];
    SliceHandles(buf2, rc, be, ts, Send, sendPeer, connIndex, scs);
  }

  /** The packing of src/transport.cc:114-138 for one distance: when either
      mask is non-empty a fresh zeroed block of 2*MAXCHANNELS handles is
      filled with the recv handles at 0..rc-1 and the send handles at
      rc..rc+sc-1; `highest` folds every selected transport. */
  method PackPeer(comm: Comm, be: Backends, recvPeer: int, sendPeer: int, recvMask: Mask, sendMask: Mask,
                  connIndex: int, highestIn: int, retIn: Status)
    returns (st: Status, buf: seq<Handle>, rc: int, sc: int, highest: int)
    requires !Failed(retIn)
    modifies comm`conns, comm`setupLog
    ensures SameConnected(old(comm.conns), comm.conns)
    ensures SelectOk(be, Recv, recvPeer, recvMask, connIndex) && SelectOk(be, Send, sendPeer, sendMask, connIndex) ==> !Failed(st)
    ensures recvMask == {} && sendMask == {} ==> (st == retIn && rc == 0 && sc == 0 && highest == highestIn
      && comm.setupLog == old(comm.setupLog) && comm.conns == old(comm.conns))
    ensures !Failed(st) ==> PeerPacked(be, recvPeer, sendPeer, recvMask, sendMask, connIndex, old(comm.conns),
                                       old(comm.setupLog), highestIn, comm.conns, comm.setupLog, buf, rc, sc, highest)
  {
    if recvMask == {} && sendMask == {} {
      ChannelsEmpty(recvMask, MaxChannels);
      ChannelsEmpty(sendMask, MaxChannels);
      ChannelsCount(recvMask, MaxChannels);
      ChannelsCount(sendMask, MaxChannels);
      return retIn, [], 0, 0, highestIn;
    }
    ghost var conns0, log0 := comm.conns, comm.setupLog;
    var buf0 := seq(2 * MaxChannels, _ => Zeroed);
    st, buf, rc, highest := PackDir(comm, be, Recv, recvPeer, recvMask, connIndex, buf0, 0, highestIn, retIn);
    if Failed(st) {
      sc := 0;
      return;
    }
    ghost var conns1, log1 := comm.conns, comm.setupLog;
    var buf1, h1 := buf, highest;
    st, buf, sc, highest := PackDir(comm, be, Send, sendPeer, sendMask, connIndex, buf1, rc, h1, st);
    if !Failed(st) {
      PackBoth(be, recvPeer, sendPeer, recvMask, sendMask, connIndex, conns0, log0, buf0, highestIn,
               conns1, log1, buf1, rc, h1, comm.conns, comm.setupLog, buf, sc, highest);
    }
  }

  /** The handle exchange of src/transport.cc:142-156 with the bootstrap
      service, on the block `buf` packed with `rc` recv and `sc` send
      handles; `recvOff`/`sendOff` are where `recvData[p]`/`sendData[p]`
      point afterwards. With `sendPeer == recvPeer` one combined buffer is sent
      and then received back, and the received buffer is read with the send
      handles first; otherwise each half goes to its own peer (sends before
      receives) and is overwritten by that peer's reply in place. */
  method Exchange(comm: Comm, boot: Bootstrap, recvPeer: int, sendPeer: int, tag: int,
                  buf: seq<Handle>, rc: int, sc: int, retIn: Status)
    returns (st: Status, out: seq<Handle>, recvOff: int, sendOff: int)
    requires 0 <= rc && 0 <= sc && rc + sc <= |buf|
    modifies comm`bootLog
    ensures |out| == |buf|
    ensures !Failed(retIn) && (rc > 0 ==> MsgOk(boot, recvPeer, tag)) && (sc > 0 ==> MsgOk(boot, sendPeer, tag)) ==> !Failed(st)
    ensures !Failed(st) && recvPeer == sendPeer ==>
      && (rc + sc == 0 ==> st == retIn && out == buf && comm.bootLog == old(comm.bootLog))
      && (rc + sc > 0 ==> (comm.bootLog == old(comm.bootLog)
            + [SendHandles(recvPeer, tag, buf[..rc + sc]), RecvHandles(recvPeer, tag, rc + sc)]))
      && out[..rc + sc] == Received(boot, recvPeer, tag, rc + sc) && out[rc + sc..] == buf[rc + sc..]
      && sendOff == 0 && recvOff == sc
    ensures !Failed(st) && recvPeer != sendPeer ==>
      && comm.bootLog == old(comm.bootLog)
           + (if rc > 0 then [SendHandles(recvPeer, tag, buf[..rc])] else [])
           + (if sc > 0 then [SendHandles(sendPeer, tag, buf[rc..rc + sc])] else [])
           + (if sc > 0 then [RecvHandles(sendPeer, tag, sc)] else [])
           + (if rc > 0 then [RecvHandles(recvPeer, tag, rc)] else [])
      && out[..rc] == Received(boot, recvPeer, tag, rc)
      && out[rc..rc + sc] == Received(boot, sendPeer, tag, sc)
      && out[rc + sc..] == buf[rc + sc..]
      && recvOff == 0 && sendOff == rc
      && (rc + sc == 0 ==> st == retIn)
  {
    st, out, recvOff, sendOff := retIn, buf, 0, rc;
    if sendPeer == recvPeer {
      if rc + sc > 0 {
        st := boot.sendStatus(recvPeer, tag);
        comm.bootLog := comm.bootLog + [SendHandles(recvPeer, tag, buf[..rc + sc])];
        if Failed(st) {
          return;
        }
        st := boot.recvStatus(recvPeer, tag);
        comm.bootLog := comm.bootLog + [RecvHandles(recvPeer, tag, rc + sc)];
        if Failed(st) {
          return;
        }
        out := Received(boot, recvPeer, tag, rc + sc) + buf[rc + sc..];
        sendOff, recvOff := 0, sc;
      }
    } else {
      ghost var log0 := comm.bootLog;
      if rc > 0 {
        st := boot.sendStatus(recvPeer, tag);
        comm.bootLog := comm.bootLog + [SendHandles(recvPeer, tag, buf[..rc])];
        if Failed(st) {
          return;
        }
      }
      if sc > 0 {
        st := boot.sendStatus(sendPeer, tag);
        comm.bootLog := comm.bootLog + [SendHandles(sendPeer, tag, buf[rc..rc + sc])];
        if Failed(st) {
          return;
        }
      }
      if sc > 0 {
        st := boot.recvStatus(sendPeer, tag);
        comm.bootLog := comm.bootLog + [RecvHandles(sendPeer, tag, sc)];
        if Failed(st) {
          return;
        }
        out := out[..rc] + Received(boot, sendPeer, tag, sc) + out[rc + sc..];
      }
      assert out[rc..rc + sc] == Received(boot, sendPeer, tag, sc);
      assert out[rc + sc..] == buf[rc + sc..];
      ghost var mid := out;
      if rc > 0 {
        st := boot.recvStatus(recvPeer, tag);
        comm.bootLog := comm.bootLog + [RecvHandles(recvPeer, tag, rc)];
        if Failed(st) {
          return;
        }
        out := Received(boot, recvPeer, tag, rc) + out[rc..];
        assert out[rc..] == mid[rc..];
        assert out[rc..rc + sc] == mid[rc..rc + sc];
        assert out[rc + sc..] == mid[rc + sc..];
      }
    }
  }
}
