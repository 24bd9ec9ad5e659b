/** Intent recording (src/transport.cc:44-63): `ncclTransportP2pConnect`
    only records, per peer, the channels that still need a recv or send
    connection; the connections are made later by the point-to-point setup. */
module Intent {
  import opened Types
  import opened CommState

  /** Whether a listed peer gets the channel's bit: it is a real rank other
      than self (-1 and out-of-range entries are skipped) and its connector
      on `connIndex` is not yet connected. */
  predicate Eligible(conns: map<ConnKey, Connector>, dir: Dir, channel: int, q: int, rank: int, nRanks: int, connIndex: int) {
    q != -1 && q < nRanks && q != rank && !Get(conns, ConnKey(dir, channel, q, connIndex)).connected
  }

  /** The masks after ORing `1 << channel` into every eligible listed peer. */
  function Recorded(masks: seq<Mask>, peers: seq<int>, conns: map<ConnKey, Connector>, dir: Dir,
                    channel: int, rank: int, connIndex: int): (r: seq<Mask>)
    requires 0 <= channel < MaskBits
  {
    seq(|masks|, q requires 0 <= q < |masks| =>
      if q in peers && Eligible(conns, dir, channel, q, rank, |masks|, connIndex) then masks[q] + Bit(channel) else masks[q])
  }

  /** Exactly one bit can change: channel `channel` of the listed eligible
      peers. Every other peer and every other bit keeps its value. */
  lemma RecordedBits(masks: seq<Mask>, peers: seq<int>, conns: map<ConnKey, Connector>, dir: Dir,
                     channel: int, rank: int, connIndex: int, q: int, c: int)
    requires 0 <= channel < MaskBits && 0 <= q < |masks|
    ensures var r := Recorded(masks, peers, conns, dir, channel, rank, connIndex);
      && |r| == |masks|
      && (c in r[q] <==> c in masks[q] || (c == channel && q in peers && Eligible(conns, dir, channel, q, rank, |masks|, connIndex)))
  {
  }

  /** Recording the same intents twice leaves the masks as recording them once. */
  lemma RecordedIdempotent(masks: seq<Mask>, peers: seq<int>, conns: map<ConnKey, Connector>, dir: Dir,
                           channel: int, rank: int, connIndex: int)
    requires 0 <= channel < MaskBits
    ensures var r := Recorded(masks, peers, conns, dir, channel, rank, connIndex);
      Recorded(r, peers, conns, dir, channel, rank, connIndex) == r
  {
    var r := Recorded(masks, peers, conns, dir, channel, rank, connIndex);
    var rr := Recorded(r, peers, conns, dir, channel, rank, connIndex);
    assert |rr| == |r|;
    forall q | 0 <= q < |r| ensures rr[q] == r[q] {
      if q in peers && Eligible(conns, dir, channel, q, rank, |masks|, connIndex) {
        assert r[q] == masks[q] + Bit(channel);
        assert rr[q] == r[q] + Bit(channel);
      }
    }
  }

  /** Recording one more listed peer ORs the bit into that peer's mask when
      it is eligible and changes nothing otherwise. */
  lemma {:induction false} RecordedStep(masks: seq<Mask>, peers: seq<int>, i: int, conns: map<ConnKey, Connector>, dir: Dir,
                                        channel: int, rank: int, connIndex: int)
    requires 0 <= channel < MaskBits && 0 <= i < |peers|
    ensures var r := Recorded(masks, peers[..i], conns, dir, channel, rank, connIndex);
      var p := peers[i];
      Recorded(masks, peers[..i + 1], conns, dir, channel, rank, connIndex)
        == if 0 <= p < |masks| && Eligible(conns, dir, channel, p, rank, |masks|, connIndex) then r[p := r[p] + Bit(channel)] else r
  {
    var r := Recorded(masks, peers[..i], conns, dir, channel, rank, connIndex);
    var r' := Recorded(masks, peers[..i + 1], conns, dir, channel, rank, connIndex);
    var p := peers[i];
    var e := if 0 <= p < |masks| && Eligible(conns, dir, channel, p, rank, |masks|, connIndex) then r[p := r[p] + Bit(channel)] else r;
    assert peers[..i + 1] == peers[..i] + [p];
    forall q | 0 <= q < |masks|
      ensures r'[q] == e[q]
    {
      assert q in peers[..i + 1] <==> q in peers[..i] || q == p;
      if q == p && Eligible(conns, dir, channel, q, rank, |masks|, connIndex) {
        assert r'[q] == masks[q] + Bit(channel);
        assert e[q] == r[q] + Bit(channel);
      }
    }
    assert r' == e;
  }

  /** The intent loop over one peer list of one direction. */
  method RecordIntents(comm: Comm, dir: Dir, channel: int, peers: seq<int>, connIndex: int)
    requires comm.Valid() && 0 <= channel < MaxChannels
    requires forall i :: 0 <= i < |peers| ==> peers[i] >= -1
    modifies comm`connectRecv, comm`connectSend
    ensures comm.Valid()
    ensures dir == Recv ==> (comm.connectSend == old(comm.connectSend)
      && comm.connectRecv == Recorded(old(comm.connectRecv), peers, comm.conns, Recv, channel, comm.rank, connIndex))
    ensures dir == Send ==> (comm.connectRecv == old(comm.connectRecv)
      && comm.connectSend == Recorded(old(comm.connectSend), peers, comm.conns, Send, channel, comm.rank, connIndex))
  {
    ghost var m0 := if dir == Recv then comm.connectRecv else comm.connectSend;
    var mask := Bit(channel);
    for i := 0 to |peers|
      invariant comm.Valid()
      invariant dir == Recv ==> (comm.connectSend == old(comm.connectSend)
        && comm.connectRecv == Recorded(m0, peers[..i], comm.conns, Recv, channel, comm.rank, connIndex))
      invariant dir == Send ==> (comm.connectRecv == old(comm.connectRecv)
        && comm.connectSend == Recorded(m0, peers[..i], comm.conns, Send, channel, comm.rank, connIndex))
    {
      var peer := peers[i];
      RecordedStep(m0, peers, i, comm.conns, dir, channel, comm.rank, connIndex);
      if !(peer == -1 || peer >= comm.nRanks || peer == comm.rank || comm.Conn(ConnKey(dir, channel, peer, connIndex)).connected) {
        if dir == Recv {
          comm.connectRecv := comm.connectRecv[peer := comm.connectRecv[peer] + mask];
        } else {
          comm.connectSend := comm.connectSend[peer := comm.connectSend[peer] + mask];
        }
      }
    }
    assert peers[..|peers|] == peers;
  }

  /** `ncclTransportP2pConnect`: records the recv intents, then the send
      intents, of channel `channel` (whose `channel->id` is its index). */
  method P2pConnect(comm: Comm, channel: int, peerRecv: seq<int>, peerSend: seq<int>, connIndex: int)
    returns (st: Status)
    requires comm.Valid() && 0 <= channel < MaxChannels
    requires forall i :: 0 <= i < |peerRecv| ==> peerRecv[i] >= -1
    requires forall i :: 0 <= i < |peerSend| ==> peerSend[i] >= -1
    modifies comm`connectRecv, comm`connectSend
    ensures comm.Valid() && st == Success
    ensures comm.connectRecv == Recorded(old(comm.connectRecv), peerRecv, comm.conns, Recv, channel, comm.rank, connIndex)
    ensures comm.connectSend == Recorded(old(comm.connectSend), peerSend, comm.conns, Send, channel, comm.rank, connIndex)
  {
    RecordIntents(comm, Recv, channel, peerRecv, connIndex);
    RecordIntents(comm, Send, channel, peerSend, connIndex);
    return Success;
  }
}
