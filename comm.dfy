/** The communicator state that the connection-establishment layer reads
    and updates (the fields of struct ncclComm, ncclChannel and
    ncclChannelPeer that src/transport.cc touches). */
module CommState {
  import opened Types

  /** The connector stored under `k`, or a zero-initialised one. */
  function Get(conns: map<ConnKey, Connector>, k: ConnKey): Connector {
    if k in conns then conns[k] else Blank
  }

  /** The part of the communicator the connect phase changes: the
      connectors, the record of the connect call that connected each one,
      and the descriptors published to device memory. */
  datatype View = View(conns: map<ConnKey, Connector>, rec: map<ConnKey, (HandleRef, nat)>,
                       pub: map<ConnKey, Descriptor>)

  class Comm {
    const rank: int
    const nRanks: int
    /** Number of nodes, which is the number of collective-network masters. */
    const nNodes: int
    const node: int
    const localRank: int
    const localRanks: int
    const nChannels: int

    /** `connectRecv[]`, `connectSend[]`: one intent mask per peer. */
    var connectRecv: seq<Mask>
    var connectSend: seq<Mask>
    /** Every connector of every channel, peer, direction and index. */
    var conns: map<ConnKey, Connector>
    /** `peerInfo[nRanks].rank`: the rank recorded for the collective-network root. */
    var rootInfoRank: int
    /** Per channel: whether `peers[nRanks]` is non-NULL, and its refCount. */
    var rootPresent: seq<bool>
    var rootRefCount: seq<int>

    /** Every backend `setup` call made so far, in order. */
    ghost var setupLog: seq<SetupCall>
    /** Every bootstrap message issued so far, in order. */
    ghost var bootLog: seq<BootMsg>
    /** Every backend `free` call made so far, in order. */
    ghost var freeLog: seq<ConnKey>
    /** The connection descriptor copied to device memory for each connector. */
    ghost var published: map<ConnKey, Descriptor>
    /** For each connector made connected by a point-to-point `connect`: the
        handle reference that call was handed and the retry pass it ran in. */
    ghost var connectedBy: map<ConnKey, (HandleRef, nat)>

    ghost predicate Valid()
      reads this`connectRecv, this`connectSend, this`rootPresent, this`rootRefCount
    {
      && 0 <= rank < nRanks
      && |connectRecv| == nRanks && |connectSend| == nRanks
      && 0 <= node < nNodes
      && 0 <= localRank < localRanks <= MaxLocalRanks
      && 0 <= nChannels <= MaxChannels
      && |rootPresent| == nChannels && |rootRefCount| == nChannels
    }

    ghost function Snapshot(): View
      reads this`conns, this`connectedBy, this`published
    {
      View(conns, connectedBy, published)
    }

    /** The connector under `k`. */
    function Conn(k: ConnKey): Connector
      reads this
    {
      Get(conns, k)
    }

    constructor (rank: int, nRanks: int, nNodes: int, node: int, localRank: int, localRanks: int, nChannels: int)
      requires 0 <= rank < nRanks && 0 <= node < nNodes
      requires 0 <= localRank < localRanks <= MaxLocalRanks && 0 <= nChannels <= MaxChannels
      ensures Valid()
      ensures this.rank == rank && this.nRanks == nRanks && this.nNodes == nNodes && this.node == node
      ensures this.localRank == localRank && this.localRanks == localRanks && this.nChannels == nChannels
      ensures connectRecv == seq(nRanks, _ => {}) && connectSend == seq(nRanks, _ => {})
      ensures conns == map[] && rootPresent == seq(nChannels, _ => false) && rootRefCount == seq(nChannels, _ => 0)
    {
      this.rank, this.nRanks, this.nNodes, this.node := rank, nRanks, nNodes, node;
      this.localRank, this.localRanks, this.nChannels := localRank, localRanks, nChannels;
      connectRecv := seq(nRanks, _ => {});
      connectSend := seq(nRanks, _ => {});
      conns := map[];
      rootInfoRank := 0;
      rootPresent := seq(nChannels, _ => false);
      rootRefCount := seq(nChannels, _ => 0);
      setupLog, bootLog, freeLog := [], [], [];
      published, connectedBy := map[], map[];
    }
  }
}
