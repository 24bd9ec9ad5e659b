/** Shared vocabulary of the connection-establishment layer: result codes,
    connector slots, connect handles, the per-peer channel masks and the
    oracles that stand for the transport backends, the bootstrap messaging
    service and the CUDA runtime. */
module Types {

  /** The four backends of the fixed priority table, in table order:
      peer-to-peer, shared memory, network, collective network. */
  const NTransports := 4
  const TransportP2p := 0
  const TransportCollNet := 3
  /** Value of the highest transport type before any selection. */
  const TransportUndefined := -1
  /** Channels per communicator, connections per peer, local ranks per node
      (values of MAXCHANNELS, NCCL_MAX_CONNS and NCCL_MAX_LOCAL_RANKS). */
  const MaxChannels := 32
  const MaxConns := 2
  const MaxLocalRanks := 64
  /** Width of the connectRecv/connectSend intent masks (uint64_t). */
  const MaskBits := 64

  datatype Option<T> = None | Some(value: T)

  /** The numeric code of an ncclResult_t other than ncclSuccess (0) and
      ncclInProgress (7). */
  type ErrorCode = c: int | c != 0 && c != 7 witness 1

  /** ncclResult_t. `Error(code)` carries the numeric code of any other result
      (1 = unhandled CUDA error, 2 = system error, 3 = internal error, ...). */
  datatype Status = Success | InProgress | Error(code: ErrorCode)

  const SystemError := Error(2)

  /** The test of the NCCLCHECK and NCCLCHECKGOTO macros: a call stops the
      caller unless it returned success or in-progress. */
  predicate Failed(s: Status) {
    !s.Success? && !s.InProgress?
  }

  /** The ncclResult_t value as the integer it converts to. */
  function Code(s: Status): int {
    match s
    case Success => 0
    case InProgress => 7
    case Error(c) => c
  }

  datatype Dir = Recv | Send

  /** Identity of one connector: `channels[channel].peers[peer]->send[index]`
      or `->recv[index]`. Peer `nRanks` is the collective-network root. */
  datatype ConnKey = ConnKey(dir: Dir, channel: int, peer: int, index: int)

  /** An opaque ncclConnect record; calloc'd memory holds `Zeroed`. */
  datatype Handle = Zeroed | Opaque(id: int)

  /** What a backend `connect` is handed: an element of a live handle buffer,
      or a pointer into a buffer that has already been freed. */
  datatype HandleRef = Live(h: Handle) | Dangling(slot: int, offset: int)

  /** `connector->transportComm`: the send or recv half of one backend. */
  datatype TransportComm = TransportComm(transport: int, dir: Dir)

  /** The host-side fields of an ncclConnector that this layer reads or writes. */
  datatype Connector = Connector(transportComm: Option<TransportComm>, connected: bool, hasResources: bool)

  /** A zero-initialised connector. */
  const Blank := Connector(None, false, false)

  /** What was copied into device-visible memory for a connector. */
  datatype Descriptor = P2pDesc(ref: HandleRef) | CollNetDesc(handles: seq<Handle>)

  /** One slot of the round buffer array `data[]`: NULL or a calloc'd block. */
  datatype Buf = Null | Block(hs: seq<Handle>)

  /** Reads the handle at `offset` of the block held in slot `slot`. */
  function ReadRef(b: Buf, slot: int, offset: int): (r: HandleRef)
    ensures r.Live? <==> b.Block? && 0 <= offset < |b.hs|
    ensures r.Live? ==> r.h == b.hs[offset]
  {
    if b.Block? && 0 <= offset < |b.hs| then Live(b.hs[offset]) else Dangling(slot, offset)
  }

  /** A 64-bit intent mask, one bit per channel, as the set of its set bits. */
  type Mask = set<int>

  /** `1UL << c`. */
  function Bit(c: int): (m: Mask)
    requires 0 <= c < MaskBits
    ensures c in m && |m| == 1
  {
    {c}
  }

  /** The channels of `m` below `n`, in increasing order: the order in which
      the `for (c = 0; c < MAXCHANNELS; c++)` loops visit them. */
  function Channels(m: Mask, n: int): (cs: seq<int>)
    requires 0 <= n <= MaxChannels
    ensures |cs| <= n
    decreases n
  {
    if n == 0 then [] else Channels(m, n - 1) + (if n - 1 in m then [n - 1] else [])
  }

  /** The number of channels of `m` below `n` (a partial popcount). */
  function CountBelow(m: Mask, n: int): (k: nat)
    requires 0 <= n <= MaxChannels
    ensures k <= n
    decreases n
  {
    if n == 0 then 0 else CountBelow(m, n - 1) + (if n - 1 in m then 1 else 0)
  }

  /** The channel list has CountBelow(m, n) entries. */
  lemma {:induction false} ChannelsCount(m: Mask, n: int)
    requires 0 <= n <= MaxChannels
    ensures |Channels(m, n)| == CountBelow(m, n)
  {
    if n > 0 {
      ChannelsCount(m, n - 1);
    }
  }

  lemma {:induction false} CountBelowMono(m: Mask, a: int, b: int)
    requires 0 <= a <= b <= MaxChannels
    ensures CountBelow(m, a) <= CountBelow(m, b)
    ensures a in m && a < b ==> CountBelow(m, a) < CountBelow(m, b)
    decreases b - a
  {
    if a < b {
      CountBelowMono(m, a, b - 1);
    }
  }

  /** The channel list is ascending. */
  lemma {:induction false} ChannelsAscending(m: Mask, n: int)
    requires 0 <= n <= MaxChannels
    ensures forall a, b :: 0 <= a < b < |Channels(m, n)| ==> Channels(m, n)[a] < Channels(m, n)[b]
    ensures forall a :: 0 <= a < |Channels(m, n)| ==> 0 <= Channels(m, n)[a] < n
  {
    if n > 0 {
      ChannelsAscending(m, n - 1);
    }
  }

  /** The channel list holds exactly the channels of `m` below `n`. */
  lemma {:induction false} ChannelsMembers(m: Mask, n: int)
    requires 0 <= n <= MaxChannels
    ensures forall c :: c in Channels(m, n) <==> 0 <= c < n && c in m
  {
    if n > 0 {
      ChannelsMembers(m, n - 1);
    }
  }

  /** An empty mask lists no channels. */
  lemma {:induction false} ChannelsEmpty(m: Mask, n: int)
    requires 0 <= n <= MaxChannels && m == {}
    ensures Channels(m, n) == []
  {
    if n > 0 {
      ChannelsEmpty(m, n - 1);
    }
  }

  /** Channel `c` of `m` sits at position CountBelow(m, c) of the list: the
      index of its handle in a packed buffer. */
  lemma {:induction false} ChannelsSpec(m: Mask, n: int)
    requires 0 <= n <= MaxChannels
    ensures forall c :: 0 <= c < n && c in m ==> CountBelow(m, c) < |Channels(m, n)| && Channels(m, n)[CountBelow(m, c)] == c
  {
    if n > 0 {
      ChannelsSpec(m, n - 1);
      ChannelsCount(m, n - 1);
      var cs := Channels(m, n - 1);
      forall c | 0 <= c < n - 1 && c in m
        ensures CountBelow(m, c) < |cs|
      {
        CountBelowMono(m, c, n - 1);
      }
    }
  }

  /** The bootstrap service: the status of each send and receive keyed by peer
      and tag, the k-th handle of what a peer sends, and the entries that the
      all-gathers return for the other ranks. */
  datatype Bootstrap = Bootstrap(
    sendStatus: (int, int) -> Status,
    recvStatus: (int, int) -> Status,
    recvData: (int, int, int) -> Handle,
    allGatherStatus: Status,
    gatheredIsMaster: int -> bool,
    gatheredConnect: int -> Handle,
    intraNodeStatus: Status,
    gatheredFailure: int -> int)

  /** Neither the send to `peer` nor the receive from `peer` under `tag` fails. */
  predicate MsgOk(boot: Bootstrap, peer: int, tag: int) {
    !Failed(boot.sendStatus(peer, tag)) && !Failed(boot.recvStatus(peer, tag))
  }

  /** The buffer of `n` handles received from `peer` under `tag`. */
  function Received(boot: Bootstrap, peer: int, tag: int, n: int): (r: seq<Handle>)
    requires n >= 0
    ensures |r| == n
    ensures forall k :: 0 <= k < n ==> r[k] == boot.recvData(peer, tag, k)
  {
    seq(n, k => boot.recvData(peer, tag, k))
  }

  /** The result of `canConnect(&ret, ...)`: its status and `ret`. */
  datatype CanConnect = CanConnect(status: Status, capable: bool)

  /** The result of a backend `setup`: its status, the handle it writes into
      the ncclConnect record, and whether it attached transport resources. */
  datatype SetupOut = SetupOut(status: Status, handle: Handle, resources: bool)

  /** The backends: capability query by (transport, peer); setup by
      (transport, direction, channel, peer, connection index); point-to-point
      connect by (connector, handle, retry pass); collective-network connect
      by (direction, masterConnects), with what it leaves in slot `i` of the
      writable `masterConnects` array; free by connector. */
  datatype Backends = Backends(
    canConnect: (int, int) -> CanConnect,
    setup: (int, Dir, int, int, int) -> SetupOut,
    connect: (ConnKey, HandleRef, nat) -> Status,
    collNetConnect: (Dir, seq<Handle>) -> Status,
    collNetWrite: (Dir, seq<Handle>, int) -> Handle,
    free: ConnKey -> Status)

  /** The CUDA runtime: whether the host-to-device copy of a connector's
      connection info succeeds, and, per channel and collective-network
      direction, whether the fetch of the device root-peer pointer and the
      copy of the root connector's info succeed. */
  datatype Cuda = Cuda(copyOk: ConnKey -> bool, rootFetchOk: (int, Dir) -> bool, rootCopyOk: (int, Dir) -> bool)

  /** `ncclUnhandledCudaError`, the result of a failed CUDACHECK. */
  const CudaError := Error(1)

  /** The backend answers in-progress to no connect from pass `bound` on. */
  ghost predicate EventuallyConnects(be: Backends, bound: nat) {
    forall pass: nat :: pass >= bound ==> NoInProgressAt(be, pass)
  }

  /** No point-to-point connect answers in-progress in retry pass `pass`. */
  ghost predicate NoInProgressAt(be: Backends, pass: nat) {
    forall k, h :: !be.connect(k, h, pass).InProgress?
  }

  /** One call of a backend `setup`. */
  datatype SetupCall = SetupCall(transport: int, dir: Dir, channel: int, peer: int, index: int)

  /** One bootstrap message issued by this rank. */
  datatype BootMsg =
    | SendHandles(peer: int, tag: int, payload: seq<Handle>)
    | RecvHandles(peer: int, tag: int, count: int)
    | SendFlag(peer: int, tag: int)
    | RecvFlag(peer: int, tag: int)
}
