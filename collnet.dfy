/** The collective-network connection code of src/transport.cc:293-407:
    the per-channel setup of the connector to the collective-network root
    (peer `nRanks`), the node-wide agreement on whether that setup worked,
    and the release of the root connectors' resources. */
module CollNet {
  import opened Types
  import opened CommState

  /** `collNetRecv` and `collNetSend`; the value is also the index of the
      root connector the direction uses (`root->recv + type`). */
  function TypeOf(dir: Dir): int {
    if dir == Recv then 0 else 1
  }

  /** The root connector of `channel` used in direction `dir`. */
  function RootKey(nRanks: int, channel: int, dir: Dir): ConnKey {
    ConnKey(dir, channel, nRanks, TypeOf(dir))
  }

  /** One element of `allConnects`: `{ int isMaster; ncclConnect connect; }`. */
  datatype Entry = Entry(isMaster: bool, connect: Handle)

  /** `n` calloc'd handles. */
  function Zeros(n: nat): (z: seq<Handle>)
    ensures |z| == n && forall j :: 0 <= j < n ==> z[j] == Zeroed
  {
    seq(n, _ => Zeroed)
  }

  /** The connect handles of the master entries of `e`, in rank order. */
  function Masters(e: seq<Entry>): (hs: seq<Handle>)
    ensures |hs| <= |e|
  {
    if e == [] then []
    else Masters(e[..|e| - 1]) + (if e[|e| - 1].isMaster then [e[|e| - 1].connect] else [])
  }

  /** The compaction of a prefix is a prefix of the compaction. */
  lemma {:induction false} MastersPrefix(e: seq<Entry>, r: int)
    requires 0 <= r <= |e|
    ensures |Masters(e[..r])| <= |Masters(e)|
    ensures Masters(e[..r]) == Masters(e)[..|Masters(e[..r])|]
    decreases |e| - r
  {
    if r < |e| {
      var e' := e[..|e| - 1];
      assert e'[..r] == e[..r];
      MastersPrefix(e', r);
    } else {
      assert e[..r] == e;
    }
  }

  /** Taking one more entry appends its handle exactly when it is a master's. */
  lemma MastersNext(e: seq<Entry>, r: int)
    requires 0 <= r < |e|
    ensures Masters(e[..r + 1]) == Masters(e[..r]) + (if e[r].isMaster then [e[r].connect] else [])
  {
    assert e[..r + 1][..r] == e[..r];
  }

  /** The master at rank `r` lands at position "number of masters before
      `r`" of the compacted array. */
  lemma MastersIndex(e: seq<Entry>, r: int)
    requires 0 <= r < |e| && e[r].isMaster
    ensures |Masters(e[..r])| < |Masters(e)|
    ensures Masters(e)[|Masters(e[..r])|] == e[r].connect
  {
    MastersNext(e, r);
    MastersPrefix(e, r + 1);
  }

  /** Every compacted handle comes from the master entry whose position it
      holds: the compaction keeps exactly the masters' handles, in order. */
  lemma {:induction false} MastersOrigin(e: seq<Entry>, j: int)
    requires 0 <= j < |Masters(e)|
    ensures exists r :: 0 <= r < |e| && e[r].isMaster && |Masters(e[..r])| == j && Masters(e)[j] == e[r].connect
    decreases |e|
  {
    var n := |e| - 1;
    MastersNext(e, n);
    assert e[..n + 1] == e;
    if j < |Masters(e[..n])| {
      MastersOrigin(e[..n], j);
      var r :| 0 <= r < n && e[..n][r].isMaster && |Masters(e[..n][..r])| == j && Masters(e[..n])[j] == e[..n][r].connect;
      assert e[..n][..r] == e[..r];
    }
  }

  /** The all-gather of `allConnects`: this rank's own entry and, for every
      other rank, what that rank contributed. */
  function Gathered(boot: Bootstrap, rank: int, mine: Entry, n: nat): (e: seq<Entry>)
    ensures |e| == n
  {
    seq(n, r => if r == rank then mine else Entry(boot.gatheredIsMaster(r), boot.gatheredConnect(r)))
  }

  /** The consolidation loop of src/transport.cc:339-345: the master
      entries' handles moved to the front of the calloc'd `masterConnects`.
      The source writes without a bound check, so there must be no more
      masters than slots. */
  method Consolidate(allConnects: array<Entry>, masterConnects: array<Handle>) returns (c: int)
    requires masterConnects[..] == Zeros(masterConnects.Length)
    requires |Masters(allConnects[..])| <= masterConnects.Length
    modifies masterConnects
    ensures c == |Masters(allConnects[..])|
    ensures masterConnects[..] == Masters(allConnects[..]) + Zeros(masterConnects.Length - c)
  {
    c := 0;
    for r := 0 to allConnects.Length
      invariant c == |Masters(allConnects[..r])|
      invariant c <= masterConnects.Length
      invariant masterConnects[..] == Masters(allConnects[..r]) + Zeros(masterConnects.Length - c)
    {
      MastersNext(allConnects[..], r);
      assert allConnects[..][..r] == allConnects[..r] && allConnects[..][..r + 1] == allConnects[..r + 1];
      if allConnects[r].isMaster {
        MastersPrefix(allConnects[..], r + 1);
        ghost var m := Masters(allConnects[..r]);
        masterConnects[c] := allConnects[r].connect;
        assert masterConnects[..] == (m + [allConnects[r].connect]) + Zeros(masterConnects.Length - c - 1);
        c := c + 1;
      }
    }
    assert allConnects[..allConnects.Length] == allConnects[..];
  }

  /** The handle this rank contributes: the one its setup wrote if it is the
      master, nothing (a zeroed handle) otherwise. */
  function Mine(be: Backends, master: bool, dir: Dir, graphChannelId: int, nRanks: int): Handle {
    if master then be.setup(TransportCollNet, dir, graphChannelId, nRanks, TypeOf(dir)).handle else Zeroed
  }

  /** The `masterConnects` array handed to the backend's connect: on the
      recv side the compacted masters' handles of the all-gather; on the
      send side the handle received from the recv master, in this node's slot. */
  function MasterConnects(boot: Bootstrap, rank: int, node: int, nNodes: nat, nRanks: nat, master: bool, mine: Handle,
                          dir: Dir, connect: Handle): (mc: seq<Handle>)
    requires dir == Recv ==> |Masters(Gathered(boot, rank, Entry(master, mine), nRanks))| <= nNodes
    requires 0 <= node < nNodes
    ensures |mc| == nNodes
    ensures dir == Recv ==>
      var m := Masters(Gathered(boot, rank, Entry(master, mine), nRanks));
      mc[..|m|] == m && forall j :: |m| <= j < nNodes ==> mc[j] == Zeroed
    ensures dir == Send ==> forall j :: 0 <= j < nNodes ==> mc[j] == (if master && j == node then connect else Zeroed)
  {
    if dir == Recv then
      var m := Masters(Gathered(boot, rank, Entry(master, mine), nRanks));
      m + Zeros(nNodes - |m|)
    else if master then Zeros(nNodes)[node := connect]
    else Zeros(nNodes)
  }

  /** The value `ncclTransportCollNetSetup` returns: the setup's own result
      code when the master's setup fails, 1 when the all-gather, the connect
      or a CUDA copy fails, and 0 otherwise. */
  function SetupResult(be: Backends, boot: Bootstrap, cuda: Cuda, channel: int, master: bool, dir: Dir,
                       graphChannelId: int, nRanks: int, mc: seq<Handle>): int
  {
    var so := be.setup(TransportCollNet, dir, graphChannelId, nRanks, TypeOf(dir));
    if master && Failed(so.status) then Code(so.status)
    else if dir == Recv && Failed(boot.allGatherStatus) then 1
    else if master && Failed(be.collNetConnect(dir, mc)) then 1
    else if master && !cuda.rootFetchOk(channel, dir) then 1
    else if master && !cuda.rootCopyOk(channel, dir) then 1
    else 0
  }

  /** The root connector once bound to the collective-network backend and,
      on the master, set up. */
  function RootBound(c: Connector, dir: Dir, master: bool, so: SetupOut): Connector {
    Connector(Some(TransportComm(TransportCollNet, dir)), c.connected, if master then so.resources else c.hasResources)
  }

  /** The selection and setup of src/transport.cc:313-323: the root
      connector is bound to the collective-network backend on every rank,
      and set up on the master, whose handle is returned. */
  method BindRoot(comm: Comm, be: Backends, k: ConnKey, dir: Dir, isMaster: bool, graphChannelId: int)
    returns (st: Status, myConnect: Handle)
    modifies comm`conns, comm`setupLog
    ensures var so := be.setup(TransportCollNet, dir, graphChannelId, comm.nRanks, TypeOf(dir));
      && comm.conns == old(comm.conns)[k := RootBound(Get(old(comm.conns), k), dir, isMaster, so)]
      && comm.setupLog == old(comm.setupLog)
                          + (if isMaster then [SetupCall(TransportCollNet, dir, graphChannelId, comm.nRanks, TypeOf(dir))]
                             else [])
      && st == (if isMaster then so.status else Success)
      && myConnect == Mine(be, isMaster, dir, graphChannelId, comm.nRanks)
  {
    comm.conns := comm.conns[k := comm.Conn(k).(transportComm := Some(TransportComm(TransportCollNet, dir)))];
    st, myConnect := Success, Zeroed;
    if isMaster {
      var so := be.setup(TransportCollNet, dir, graphChannelId, comm.nRanks, TypeOf(dir));
      comm.setupLog := comm.setupLog + [SetupCall(TransportCollNet, dir, graphChannelId, comm.nRanks, TypeOf(dir))];
      comm.conns := comm.conns[k := comm.Conn(k).(hasResources := so.resources)];
      st, myConnect := so.status, so.handle;
    }
  }

  /** The preparation of `masterConnects` (src/transport.cc:331-348): the
      all-gather and compaction on the recv side, the copy of the received
      handle on the send master. `ok` is false when the all-gather fails. */
  method GatherMasters(boot: Bootstrap, rank: int, node: int, nMasters: nat, nranks: nat, isMaster: bool,
                       myConnect: Handle, dir: Dir, connect: Handle)
    returns (ok: bool, masterConnects: array<Handle>)
    requires 0 <= rank < nranks && 0 <= node < nMasters
    requires dir == Recv ==> |Masters(Gathered(boot, rank, Entry(isMaster, myConnect), nranks))| <= nMasters
    ensures fresh(masterConnects)
    ensures ok <==> !(dir == Recv && Failed(boot.allGatherStatus))
    ensures ok ==> masterConnects[..] == MasterConnects(boot, rank, node, nMasters, nranks, isMaster, myConnect, dir, connect)
  {
    masterConnects := new Handle[nMasters](_ => Zeroed);
    if dir == Recv {
      if Failed(boot.allGatherStatus) {
        return false, masterConnects;
      }
      var allConnects := new Entry[nranks](r =>
        if r == rank then Entry(isMaster, myConnect) else Entry(boot.gatheredIsMaster(r), boot.gatheredConnect(r)));
      assert allConnects[..] == Gathered(boot, rank, Entry(isMaster, myConnect), nranks);
      var _ := Consolidate(allConnects, masterConnects);
    } else if isMaster {
      masterConnects[node] := connect;
    }
    ok := true;
  }

  /** The array the collective-network connect leaves in `masterConnects`,
      which it is handed writable: slot `i` as the backend writes it. */
  function AfterConnect(be: Backends, dir: Dir, mc: seq<Handle>): (r: seq<Handle>)
    ensures |r| == |mc| && forall i :: 0 <= i < |mc| ==> r[i] == be.collNetWrite(dir, mc, i)
  {
    seq(|mc|, i => be.collNetWrite(dir, mc, i))
  }

  /** The master's connect and the two CUDA copies of
      src/transport.cc:350-355; the connect may rewrite `masterConnects`,
      and on success the root connector's info is in device memory. */
  method ConnectRoot(comm: Comm, be: Backends, cuda: Cuda, k: ConnKey, channel: int, dir: Dir, masterConnects: array<Handle>)
    returns (ok: bool)
    modifies comm`published, masterConnects
    ensures ok <==> !Failed(be.collNetConnect(dir, old(masterConnects[..])))
                    && cuda.rootFetchOk(channel, dir) && cuda.rootCopyOk(channel, dir)
    ensures masterConnects[..] == AfterConnect(be, dir, old(masterConnects[..]))
    ensures comm.published == if ok then old(comm.published)[k := CollNetDesc(old(masterConnects[..]))]
                              else old(comm.published)
  {
    var mc := masterConnects[..];
    var cst := be.collNetConnect(dir, mc);
    forall i | 0 <= i < masterConnects.Length {
      masterConnects[i] := be.collNetWrite(dir, mc, i);
    }
    if Failed(cst) || !cuda.rootFetchOk(channel, dir) || !cuda.rootCopyOk(channel, dir) {
      return false;
    }
    comm.published := comm.published[k := CollNetDesc(mc)];
    ok := true;
  }

  /** `ncclTransportCollNetSetup` (src/transport.cc:297-366). `connect` is
      the in-out `ncclConnect*`: read on the send side, written by the recv
      master. */
  method CollNetSetup(comm: Comm, be: Backends, boot: Bootstrap, cuda: Cuda, channel: int, masterRank: int,
                      graphChannelId: int, dir: Dir, connect: Handle)
    returns (fail: int, connectOut: Handle)
    requires comm.Valid()
    requires dir == Recv ==>
      |Masters(Gathered(boot, comm.rank, Entry(comm.rank == masterRank,
                                             Mine(be, comm.rank == masterRank, dir, graphChannelId, comm.nRanks)),
                        comm.nRanks))| <= comm.nNodes
    modifies comm`rootInfoRank, comm`conns, comm`setupLog, comm`published
    ensures var master := comm.rank == masterRank;
      var k := RootKey(comm.nRanks, channel, dir);
      var so := be.setup(TransportCollNet, dir, graphChannelId, comm.nRanks, TypeOf(dir));
      var mc := MasterConnects(boot, comm.rank, comm.node, comm.nNodes, comm.nRanks, master,
                               Mine(be, master, dir, graphChannelId, comm.nRanks), dir, connect);
      && comm.rootInfoRank == comm.nRanks
      && comm.conns == old(comm.conns)[k := RootBound(Get(old(comm.conns), k), dir, master, so)]
      && comm.setupLog == old(comm.setupLog)
                          + (if master then [SetupCall(TransportCollNet, dir, graphChannelId, comm.nRanks, TypeOf(dir))]
                             else [])
      && fail == SetupResult(be, boot, cuda, channel, master, dir, graphChannelId, comm.nRanks, mc)
      && comm.published == (if master && fail == 0 then old(comm.published)[k := CollNetDesc(mc)]
                            else old(comm.published))
      && connectOut == (if master && dir == Recv && fail == 0 then AfterConnect(be, dir, mc)[comm.node] else connect)
  {
    connectOut := connect;
    var isMaster := comm.rank == masterRank;
    comm.rootInfoRank := comm.nRanks;
    var k := RootKey(comm.nRanks, channel, dir);
    var st, myConnect := BindRoot(comm, be, k, dir, isMaster, graphChannelId);
    if Failed(st) {
      return Code(st), connectOut;
    }
    var ok, masterConnects := GatherMasters(boot, comm.rank, comm.node, comm.nNodes, comm.nRanks, isMaster, myConnect,
                                            dir, connect);
    if !ok {
      return 1, connectOut;
    }
    if isMaster {
      ok := ConnectRoot(comm, be, cuda, k, channel, dir, masterConnects);
      if !ok {
        return 1, connectOut;
      }
    }
    if isMaster && dir == Recv {
      connectOut := masterConnects[comm.node];
    }
    fail := 0;
  }

  /** The setup reports failure (a non-zero result) exactly when some step
      it ran failed; a rank that is not the master fails only through the
      all-gather of the recv side. */
  lemma SetupResultZero(be: Backends, boot: Bootstrap, cuda: Cuda, channel: int, master: bool, dir: Dir,
                        graphChannelId: int, nRanks: int, mc: seq<Handle>)
    ensures var so := be.setup(TransportCollNet, dir, graphChannelId, nRanks, TypeOf(dir));
      SetupResult(be, boot, cuda, channel, master, dir, graphChannelId, nRanks, mc) == 0 <==>
        && (master ==>
              && !Failed(so.status) && !Failed(be.collNetConnect(dir, mc))
              && cuda.rootFetchOk(channel, dir) && cuda.rootCopyOk(channel, dir))
        && (dir == Recv ==> !Failed(boot.allGatherStatus))
  {
  }

  /** When the masters are numbered by node in rank order (this rank is the
      `node`-th master), the slot `node` of the array the recv master hands
      to its connect is the handle its own setup wrote. What it hands back
      to its send peer is what the connect leaves in that slot. */
  lemma RecvMasterSlotOwn(boot: Bootstrap, be: Backends, rank: int, node: int, nNodes: nat, nRanks: nat,
                               graphChannelId: int, connect: Handle)
    requires 0 <= rank < nRanks && 0 <= node < nNodes
    requires var e := Gathered(boot, rank, Entry(true, Mine(be, true, Recv, graphChannelId, nRanks)), nRanks);
      |Masters(e)| <= nNodes && |Masters(e[..rank])| == node
    ensures MasterConnects(boot, rank, node, nNodes, nRanks, true, Mine(be, true, Recv, graphChannelId, nRanks), Recv,
                           connect)[node]
            == be.setup(TransportCollNet, Recv, graphChannelId, nRanks, TypeOf(Recv)).handle
  {
    var e := Gathered(boot, rank, Entry(true, Mine(be, true, Recv, graphChannelId, nRanks)), nRanks);
    MastersIndex(e, rank);
  }

  /** Entry `i` of `allGatherFailures` after the intra-node all-gather:
      this rank's own flag at `localRank`, each other local rank's flag
      elsewhere. */
  function GatheredFailure(boot: Bootstrap, localRank: int, collNetSetupFail: int, i: int): int {
    if i == localRank then collNetSetupFail else boot.gatheredFailure(i)
  }

  /** Some local rank of the node reported a failed collective-network setup. */
  ghost predicate AnyFailure(boot: Bootstrap, localRank: int, localRanks: int, collNetSetupFail: int) {
    exists i :: 0 <= i < localRanks && GatheredFailure(boot, localRank, collNetSetupFail, i) != 0
  }

  /** `ncclTransportCollNetCheck` (src/transport.cc:368-384): the all-gather's
      own failure, else a system error exactly when some local rank of the
      node failed, else success. */
  method CollNetCheck(comm: Comm, boot: Bootstrap, collNetSetupFail: int) returns (st: Status)
    requires comm.Valid()
    ensures Failed(boot.intraNodeStatus) ==> st == boot.intraNodeStatus
    ensures !Failed(boot.intraNodeStatus) ==>
      (st == SystemError <==> AnyFailure(boot, comm.localRank, comm.localRanks, collNetSetupFail))
      && (st == Success <==> !AnyFailure(boot, comm.localRank, comm.localRanks, collNetSetupFail))
  {
    var allGatherFailures := new int[MaxLocalRanks](_ => 0);
    allGatherFailures[comm.localRank] := collNetSetupFail;
    if Failed(boot.intraNodeStatus) {
      return boot.intraNodeStatus;
    }
    forall i | 0 <= i < comm.localRanks && i != comm.localRank {
      allGatherFailures[i] := boot.gatheredFailure(i);
    }
    var fail := collNetSetupFail;
    var i := 0;
    while i < comm.localRanks
      invariant 0 <= i <= comm.localRanks
      invariant forall j :: 0 <= j < i ==> GatheredFailure(boot, comm.localRank, collNetSetupFail, j) == 0
      invariant fail == collNetSetupFail
    {
      if allGatherFailures[i] != 0 {
        assert GatheredFailure(boot, comm.localRank, collNetSetupFail, i) != 0;
        fail := 1;
        break;
      }
      i := i + 1;
    }
    if fail != 0 {
      if collNetSetupFail != 0 {
        OwnFailureCounts(boot, comm.localRank, comm.localRanks, collNetSetupFail);
      }
      return SystemError;
    }
    return Success;
  }

  /** A rank whose own setup failed always finds a failure in the node:
      its own entry is among the ones scanned. */
  lemma OwnFailureCounts(boot: Bootstrap, localRank: int, localRanks: int, collNetSetupFail: int)
    requires 0 <= localRank < localRanks && collNetSetupFail != 0
    ensures AnyFailure(boot, localRank, localRanks, collNetSetupFail)
  {
    assert GatheredFailure(boot, localRank, collNetSetupFail, localRank) != 0;
  }

  /** The result of one step of the free loops: the status, the connectors
      and the backend `free` calls made. */
  datatype Freed = Freed(st: Status, conns: map<ConnKey, Connector>, log: seq<ConnKey>)

  /** One iteration of a free loop of src/transport.cc:393-402: a connector
      holding resources and bound to a backend is freed; its resources
      pointer is then cleared, unless the free failed. */
  function FreeOne(be: Backends, conns: map<ConnKey, Connector>, k: ConnKey): (f: Freed)
    ensures f.st.Success? || Failed(f.st)
    ensures var c := Get(conns, k);
      && f.log == (if c.hasResources && c.transportComm.Some? then [k] else [])
      && (Failed(f.st) <==> f.log == [k] && Failed(be.free(k)))
      && (Failed(f.st) ==> f.conns == conns)
      && (!Failed(f.st) ==> Get(f.conns, k) == c.(hasResources := false))
      && forall k' :: k' != k ==> Get(f.conns, k') == Get(conns, k')
  {
    var c := Get(conns, k);
    if c.hasResources && c.transportComm.Some? then
      var s := be.free(k);
      if Failed(s) then Freed(s, conns, [k]) else Freed(Success, conns[k := c.(hasResources := false)], [k])
    else if c.hasResources then Freed(Success, conns[k := c.(hasResources := false)], [])
    else Freed(Success, conns, [])
  }

  /** The root connectors of channel `r` in the order the two free loops
      visit them: the send ones, then the recv ones. */
  function RootKeys(nRanks: int, r: int): (ks: seq<ConnKey>)
    ensures |ks| == 2 * MaxConns
  {
    seq(MaxConns, b => ConnKey(Send, r, nRanks, b)) + seq(MaxConns, b => ConnKey(Recv, r, nRanks, b))
  }

  /** Position `b` of the send half and of the recv half of a root's keys. */
  lemma RootKeysAt(nRanks: int, r: int, b: int)
    requires 0 <= b < MaxConns
    ensures RootKeys(nRanks, r)[b] == ConnKey(Send, r, nRanks, b)
    ensures RootKeys(nRanks, r)[MaxConns + b] == ConnKey(Recv, r, nRanks, b)
  {
  }

  /** The connectors `ks` freed in order, stopping at the first failure. */
  function FreeKeys(be: Backends, conns: map<ConnKey, Connector>, ks: seq<ConnKey>): (f: Freed)
    ensures f.st.Success? || Failed(f.st)
  {
    if ks == [] then Freed(Success, conns, [])
    else
      var a := FreeKeys(be, conns, ks[..|ks| - 1]);
      if Failed(a.st) then a else Then(a, FreeOne(be, a.conns, ks[|ks| - 1]))
  }

  /** `b` run after `a`: `b`'s status and connectors, both logs. */
  function Then(a: Freed, b: Freed): Freed {
    Freed(b.st, b.conns, a.log + b.log)
  }

  /** The whole state the free of the collective-network resources works on. */
  datatype FreeState = FreeState(st: Status, refs: seq<int>, conns: map<ConnKey, Connector>, log: seq<ConnKey>)

  /** One channel of the loop of src/transport.cc:388-406: a channel with a
      root peer drops one reference, and the last reference frees the
      root's connectors. The log holds this channel's `free` calls. */
  function FreeChannel(be: Backends, nRanks: int, present: bool, r: int, refs: seq<int>,
                       conns: map<ConnKey, Connector>): (s: FreeState)
    requires 0 <= r < |refs|
    ensures |s.refs| == |refs| && (s.st.Success? || Failed(s.st))
  {
    if !present then FreeState(Success, refs, conns, [])
    else
      var refs' := refs[r := refs[r] - 1];
      if refs'[r] != 0 then FreeState(Success, refs', conns, [])
      else
        var f := FreeKeys(be, conns, RootKeys(nRanks, r));
        FreeState(f.st, refs', f.conns, f.log)
  }

  /** The channel loop after channels `0..n-1`, stopping at the first failure. */
  function FreeUpTo(be: Backends, nRanks: int, present: seq<bool>, refs0: seq<int>, conns0: map<ConnKey, Connector>,
                    n: int): (s: FreeState)
    requires 0 <= n <= |present| == |refs0|
    ensures |s.refs| == |refs0| && (s.st.Success? || Failed(s.st))
  {
    if n == 0 then FreeState(Success, refs0, conns0, [])
    else
      var s := FreeUpTo(be, nRanks, present, refs0, conns0, n - 1);
      if Failed(s.st) then s
      else
        After(s, FreeChannel(be, nRanks, present[n - 1], n - 1, s.refs, s.conns))
  }

  /** Channel result `c` after the state `s` of the channels before it. */
  function After(s: FreeState, c: FreeState): FreeState {
    FreeState(c.st, c.refs, c.conns, s.log + c.log)
  }

  /** One connector of the free loops. */
  method FreeConnector(comm: Comm, be: Backends, k: ConnKey) returns (st: Status)
    modifies comm`conns, comm`freeLog
    ensures var f := FreeOne(be, old(comm.conns), k);
      st == f.st && comm.conns == f.conns && comm.freeLog == old(comm.freeLog) + f.log
  {
    var c := comm.Conn(k);
    if c.hasResources && c.transportComm.Some? {
      var s := be.free(k);
      comm.freeLog := comm.freeLog + [k];
      if Failed(s) {
        return s;
      }
    }
    if c.hasResources {
      comm.conns := comm.conns[k := c.(hasResources := false)];
    }
    return Success;
  }

  /** Appending a key to the list is one more `FreeOne`, unless a failure
      already stopped the loop. */
  lemma FreeKeysNext(be: Backends, conns: map<ConnKey, Connector>, ks: seq<ConnKey>, j: int)
    requires 0 <= j < |ks|
    ensures var a := FreeKeys(be, conns, ks[..j]);
      FreeKeys(be, conns, ks[..j + 1]) == if Failed(a.st) then a else Then(a, FreeOne(be, a.conns, ks[j]))
  {
    assert ks[..j + 1][..j] == ks[..j];
  }

  /** Once a free has failed, the later connectors are left alone. */
  lemma {:induction false} FreeKeysStop(be: Backends, conns: map<ConnKey, Connector>, ks: seq<ConnKey>, j: int)
    requires 0 <= j <= |ks| && Failed(FreeKeys(be, conns, ks[..j]).st)
    ensures FreeKeys(be, conns, ks) == FreeKeys(be, conns, ks[..j])
    decreases |ks| - j
  {
    if j < |ks| {
      FreeKeysNext(be, conns, ks, j);
      FreeKeysStop(be, conns, ks, j + 1);
    } else {
      assert ks[..j] == ks;
    }
  }

  /** Once a channel's free has failed, the later channels are left alone. */
  lemma {:induction false} FreeUpToStop(be: Backends, nRanks: int, present: seq<bool>, refs0: seq<int>,
                                        conns0: map<ConnKey, Connector>, j: int, n: int)
    requires 0 <= j <= n <= |present| == |refs0|
    requires Failed(FreeUpTo(be, nRanks, present, refs0, conns0, j).st)
    ensures FreeUpTo(be, nRanks, present, refs0, conns0, n) == FreeUpTo(be, nRanks, present, refs0, conns0, j)
    decreases n - j
  {
    if j < n {
      FreeUpToStop(be, nRanks, present, refs0, conns0, j, n - 1);
    }
  }

  /** The connector at position `j` of the keys, once the ones before it
      were freed without failure: the step of one free loop. */
  method FreeNth(comm: Comm, be: Backends, ghost conns0: map<ConnKey, Connector>, ghost log0: seq<ConnKey>,
                 ghost ks: seq<ConnKey>, j: int, k: ConnKey)
    returns (st: Status)
    requires 0 <= j < |ks| && k == ks[j]
    requires var f := FreeKeys(be, conns0, ks[..j]);
      !Failed(f.st) && comm.conns == f.conns && comm.freeLog == log0 + f.log
    modifies comm`conns, comm`freeLog
    ensures Failed(st) ==> var f := FreeKeys(be, conns0, ks);
      st == f.st && comm.conns == f.conns && comm.freeLog == log0 + f.log
    ensures !Failed(st) ==> var f := FreeKeys(be, conns0, ks[..j + 1]);
      !Failed(f.st) && comm.conns == f.conns && comm.freeLog == log0 + f.log
  {
    FreeKeysNext(be, conns0, ks, j);
    st := FreeConnector(comm, be, k);
    if Failed(st) {
      FreeKeysStop(be, conns0, ks, j + 1);
    }
  }

  /** The two free loops of one channel's root (src/transport.cc:393-402). */
  method FreeRoot(comm: Comm, be: Backends, r: int) returns (st: Status)
    modifies comm`conns, comm`freeLog
    ensures var f := FreeKeys(be, old(comm.conns), RootKeys(comm.nRanks, r));
      st == f.st && comm.conns == f.conns && comm.freeLog == old(comm.freeLog) + f.log
  {
    ghost var ks, conns0, log0 := RootKeys(comm.nRanks, r), comm.conns, comm.freeLog;
    st := Success;
    for b := 0 to MaxConns
      invariant var f := FreeKeys(be, conns0, ks[..b]);
        !Failed(f.st) && comm.conns == f.conns && comm.freeLog == log0 + f.log
    {
      RootKeysAt(comm.nRanks, r, b);
      st := FreeNth(comm, be, conns0, log0, ks, b, ConnKey(Send, r, comm.nRanks, b));
      if Failed(st) {
        return;
      }
    }
    for b := 0 to MaxConns
      invariant var f := FreeKeys(be, conns0, ks[..MaxConns + b]);
        !Failed(f.st) && comm.conns == f.conns && comm.freeLog == log0 + f.log
    {
      RootKeysAt(comm.nRanks, r, b);
      st := FreeNth(comm, be, conns0, log0, ks, MaxConns + b, ConnKey(Recv, r, comm.nRanks, b));
      if Failed(st) {
        return;
      }
    }
    assert ks[..2 * MaxConns] == ks;
    st := Success;
  }

  /** One channel of the loop of src/transport.cc:388-406. */
  method ReleaseChannel(comm: Comm, be: Backends, r: int) returns (st: Status)
    requires 0 <= r < |comm.rootPresent| && r < |comm.rootRefCount|
    modifies comm`rootRefCount, comm`conns, comm`freeLog
    ensures var c := FreeChannel(be, comm.nRanks, comm.rootPresent[r], r, old(comm.rootRefCount), old(comm.conns));
      st == c.st && comm.rootRefCount == c.refs && comm.conns == c.conns && comm.freeLog == old(comm.freeLog) + c.log
  {
    st := Success;
    if comm.rootPresent[r] {
      comm.rootRefCount := comm.rootRefCount[r := comm.rootRefCount[r] - 1];
      if comm.rootRefCount[r] == 0 {
        st := FreeRoot(comm, be, r);
      }
    }
  }

  /** Channel `r` of the loop, once the channels before it were handled
      without failure. */
  method ReleaseNth(comm: Comm, be: Backends, ghost refs0: seq<int>, ghost conns0: map<ConnKey, Connector>,
                    ghost log0: seq<ConnKey>, r: int)
    returns (st: Status)
    requires 0 <= r < |comm.rootPresent| == |refs0|
    requires var s := FreeUpTo(be, comm.nRanks, comm.rootPresent, refs0, conns0, r);
      !Failed(s.st) && comm.rootRefCount == s.refs && comm.conns == s.conns && comm.freeLog == log0 + s.log
    modifies comm`rootRefCount, comm`conns, comm`freeLog
    ensures |comm.rootRefCount| == |refs0|
    ensures Failed(st) ==> var s := FreeUpTo(be, comm.nRanks, comm.rootPresent, refs0, conns0, |refs0|);
      st == s.st && comm.rootRefCount == s.refs && comm.conns == s.conns && comm.freeLog == log0 + s.log
    ensures !Failed(st) ==> var s := FreeUpTo(be, comm.nRanks, comm.rootPresent, refs0, conns0, r + 1);
      !Failed(s.st) && comm.rootRefCount == s.refs && comm.conns == s.conns && comm.freeLog == log0 + s.log
  {
    ghost var s := FreeUpTo(be, comm.nRanks, comm.rootPresent, refs0, conns0, r);
    ghost var c := FreeChannel(be, comm.nRanks, comm.rootPresent[r], r, s.refs, s.conns);
    assert FreeUpTo(be, comm.nRanks, comm.rootPresent, refs0, conns0, r + 1) == After(s, c);
    st := ReleaseChannel(comm, be, r);
    if Failed(st) {
      FreeUpToStop(be, comm.nRanks, comm.rootPresent, refs0, conns0, r + 1, |refs0|);
    }
  }

  /** `ncclTransportCollNetFree` (src/transport.cc:386-407). */
  method CollNetFree(comm: Comm, be: Backends) returns (st: Status)
    requires comm.Valid()
    modifies comm`rootRefCount, comm`conns, comm`freeLog
    ensures comm.Valid()
    ensures var s := FreeUpTo(be, comm.nRanks, comm.rootPresent, old(comm.rootRefCount), old(comm.conns), comm.nChannels);
      st == s.st && comm.rootRefCount == s.refs && comm.conns == s.conns && comm.freeLog == old(comm.freeLog) + s.log
  {
    ghost var refs0, conns0, log0 := comm.rootRefCount, comm.conns, comm.freeLog;
    for r := 0 to comm.nChannels
      invariant comm.Valid()
      invariant var s := FreeUpTo(be, comm.nRanks, comm.rootPresent, refs0, conns0, r);
        !Failed(s.st) && comm.rootRefCount == s.refs && comm.conns == s.conns && comm.freeLog == log0 + s.log
    {
      st := ReleaseNth(comm, be, refs0, conns0, log0, r);
      if Failed(st) {
        return;
      }
    }
    return Success;
  }

  /** No connector appears twice. */
  predicate NoDup(ks: seq<ConnKey>) {
    forall i, j :: 0 <= i < j < |ks| ==> ks[i] != ks[j]
  }

  /** A connector the free loops hand to its backend's `free`. */
  predicate Freeable(c: Connector) {
    c.hasResources && c.transportComm.Some?
  }

  /** The free loops change nothing but the resources flag of the keys they
      visit, and only ever clear it. */
  lemma {:induction false} FreeKeysFrame(be: Backends, conns: map<ConnKey, Connector>, ks: seq<ConnKey>)
    ensures var f := FreeKeys(be, conns, ks);
      && (forall k :: k !in ks ==> Get(f.conns, k) == Get(conns, k))
      && (forall k :: Get(f.conns, k) == Get(conns, k).(hasResources := Get(f.conns, k).hasResources))
      && (forall k :: Get(f.conns, k).hasResources ==> Get(conns, k).hasResources)
  {
    if ks != [] {
      var ks' := ks[..|ks| - 1];
      FreeKeysFrame(be, conns, ks');
      assert forall k :: k in ks' ==> k in ks;
    }
  }

  /** Every `free` call is for a visited connector that held resources and
      had a backend when the loops started; with distinct keys no connector
      is freed twice. */
  lemma {:induction false} FreeKeysCalls(be: Backends, conns: map<ConnKey, Connector>, ks: seq<ConnKey>)
    ensures var f := FreeKeys(be, conns, ks);
      forall j :: 0 <= j < |f.log| ==> f.log[j] in ks && Freeable(Get(conns, f.log[j]))
    ensures NoDup(ks) ==> NoDup(FreeKeys(be, conns, ks).log)
  {
    if ks != [] {
      var ks' := ks[..|ks| - 1];
      FreeKeysCalls(be, conns, ks');
      FreeKeysFrame(be, conns, ks');
      assert forall k :: k in ks' ==> k in ks;
      if NoDup(ks) {
        assert NoDup(ks');
        assert ks[|ks| - 1] !in ks';
      }
    }
  }

  /** A successful pass frees exactly the visited connectors that held
      resources and had a backend, and leaves none of them holding
      resources; a failed one stops at the connector whose `free` failed,
      which keeps its resources. */
  lemma {:induction false} FreeKeysOutcome(be: Backends, conns: map<ConnKey, Connector>, ks: seq<ConnKey>)
    ensures var f := FreeKeys(be, conns, ks);
      f.st.Success? ==>
        && (forall k :: k in ks ==> !Get(f.conns, k).hasResources)
        && (forall k :: k in f.log <==> k in ks && Freeable(Get(conns, k)))
    ensures var f := FreeKeys(be, conns, ks);
      Failed(f.st) ==>
        && f.log != [] && f.st == be.free(f.log[|f.log| - 1])
        && Get(f.conns, f.log[|f.log| - 1]).hasResources
  {
    if ks != [] {
      var ks' := ks[..|ks| - 1];
      var k := ks[|ks| - 1];
      FreeKeysOutcome(be, conns, ks');
      FreeKeysFrame(be, conns, ks');
      FreeKeysCalls(be, conns, ks');
      var a := FreeKeys(be, conns, ks');
      assert forall k' :: k' in ks <==> k' in ks' || k' == k;
      if !Failed(a.st) && !Freeable(Get(a.conns, k)) && k in ks' {
        assert !Get(a.conns, k).hasResources;
      }
    }
  }

  /** Freeing again after a successful pass calls no `free` and changes
      nothing: the cleared resources pointers prevent a double free. */
  lemma FreeKeysAgain(be: Backends, conns: map<ConnKey, Connector>, ks: seq<ConnKey>)
    requires FreeKeys(be, conns, ks).st.Success?
    ensures var f := FreeKeys(be, conns, ks);
      FreeKeys(be, f.conns, ks) == Freed(Success, f.conns, [])
  {
    var f := FreeKeys(be, conns, ks);
    FreeKeysOutcome(be, conns, ks);
    FreeKeysIdle(be, f.conns, ks);
  }

  /** Keys none of which holds resources are passed over. */
  lemma {:induction false} FreeKeysIdle(be: Backends, conns: map<ConnKey, Connector>, ks: seq<ConnKey>)
    requires forall k :: k in ks ==> !Get(conns, k).hasResources
    ensures FreeKeys(be, conns, ks) == Freed(Success, conns, [])
  {
    if ks != [] {
      var ks' := ks[..|ks| - 1];
      assert forall k :: k in ks' ==> k in ks;
      FreeKeysIdle(be, conns, ks');
    }
  }

  /** The connector `k` is a root connector of channel `r` whose last
      reference the channel loop dropped. */
  ghost predicate Released(nRanks: int, present: seq<bool>, refs0: seq<int>, n: int, k: ConnKey) {
    0 <= k.channel < n <= |present| == |refs0| && present[k.channel] && refs0[k.channel] == 1
    && k in RootKeys(nRanks, k.channel)
  }

  /** After a successful channel loop: every channel with a root peer has
      dropped one reference, the roots whose last reference went hold no
      resources, and no other connector changed. */
  lemma {:induction false} FreeUpToOutcome(be: Backends, nRanks: int, present: seq<bool>, refs0: seq<int>,
                                           conns0: map<ConnKey, Connector>, n: int)
    requires 0 <= n <= |present| == |refs0|
    requires FreeUpTo(be, nRanks, present, refs0, conns0, n).st.Success?
    ensures var s := FreeUpTo(be, nRanks, present, refs0, conns0, n);
      && (forall r :: 0 <= r < |refs0| ==> s.refs[r] == if r < n && present[r] then refs0[r] - 1 else refs0[r])
      && (forall k :: Released(nRanks, present, refs0, n, k) ==> !Get(s.conns, k).hasResources)
      && (forall k :: !Released(nRanks, present, refs0, n, k) ==> Get(s.conns, k) == Get(conns0, k))
  {
    if n > 0 {
      var s := FreeUpTo(be, nRanks, present, refs0, conns0, n - 1);
      FreeUpToOutcome(be, nRanks, present, refs0, conns0, n - 1);
      var r := n - 1;
      ReleasedNext(nRanks, present, refs0, n);
      if present[r] && s.refs[r] - 1 == 0 {
        var ks := RootKeys(nRanks, r);
        FreeKeysFrame(be, s.conns, ks);
        FreeKeysOutcome(be, s.conns, ks);
        forall k | k in ks
          ensures k.channel == r
        {
        }
      }
    }
  }

  /** The root keys of a channel are distinct, so the free loops visit
      each root connector once. */
  lemma RootKeysNoDup(nRanks: int, r: int)
    ensures NoDup(RootKeys(nRanks, r))
  {
    var ks := RootKeys(nRanks, r);
    forall i, j | 0 <= i < j < |ks|
      ensures ks[i] != ks[j]
    {
      if j < MaxConns || i >= MaxConns {
        assert ks[i].index != ks[j].index;
      }
    }
  }

  /** The `free` calls of the whole channel loop: each one is for a root
      connector whose last reference was dropped and that held resources and
      had a backend at the start; no connector is freed twice; and after a
      successful loop every such connector has been freed. */
  lemma {:induction false} FreeUpToCalls(be: Backends, nRanks: int, present: seq<bool>, refs0: seq<int>,
                                         conns0: map<ConnKey, Connector>, n: int)
    requires 0 <= n <= |present| == |refs0|
    ensures var s := FreeUpTo(be, nRanks, present, refs0, conns0, n);
      && (forall j :: 0 <= j < |s.log| ==>
            Released(nRanks, present, refs0, n, s.log[j]) && Freeable(Get(conns0, s.log[j])))
      && NoDup(s.log)
    ensures var s := FreeUpTo(be, nRanks, present, refs0, conns0, n);
      s.st.Success? ==>
        forall k :: Released(nRanks, present, refs0, n, k) && Freeable(Get(conns0, k)) ==> k in s.log
  {
    if n > 0 {
      var r := n - 1;
      var s := FreeUpTo(be, nRanks, present, refs0, conns0, r);
      FreeUpToCalls(be, nRanks, present, refs0, conns0, r);
      ReleasedNext(nRanks, present, refs0, n);
      if !Failed(s.st) {
        FreeUpToOutcome(be, nRanks, present, refs0, conns0, r);
        assert s.refs[r] == refs0[r];
        if present[r] && refs0[r] == 1 {
          forall k | k in RootKeys(nRanks, r)
            ensures Get(s.conns, k) == Get(conns0, k)
          {
            RootKeysChannel(nRanks, r, k);
            assert !Released(nRanks, present, refs0, r, k);
          }
          ReleasedRootCalls(be, nRanks, present, refs0, conns0, r, s.conns, s.log);
        }
      }
    }
  }

  /** Every root key of channel `r` belongs to channel `r`. */
  lemma RootKeysChannel(nRanks: int, r: int, k: ConnKey)
    requires k in RootKeys(nRanks, r)
    ensures k.channel == r && k.peer == nRanks
  {
  }

  /** The `free` calls of a channel that dropped its root's last reference,
      after earlier channels whose calls `log` were all below `r`. */
  lemma ReleasedRootCalls(be: Backends, nRanks: int, present: seq<bool>, refs0: seq<int>,
                          conns0: map<ConnKey, Connector>, r: int, conns: map<ConnKey, Connector>, log: seq<ConnKey>)
    requires 0 <= r < |present| == |refs0| && present[r] && refs0[r] == 1
    requires forall k :: k in RootKeys(nRanks, r) ==> Get(conns, k) == Get(conns0, k)
    requires forall j :: 0 <= j < |log| ==> Released(nRanks, present, refs0, r, log[j])
    requires NoDup(log)
    ensures var f := FreeKeys(be, conns, RootKeys(nRanks, r));
      && (forall j :: 0 <= j < |f.log| ==>
            Released(nRanks, present, refs0, r + 1, f.log[j]) && Freeable(Get(conns0, f.log[j])))
      && NoDup(log + f.log)
      && (f.st.Success? ==>
            forall k :: k in RootKeys(nRanks, r) && Freeable(Get(conns0, k)) ==> k in f.log)
  {
    var ks := RootKeys(nRanks, r);
    var f := FreeKeys(be, conns, ks);
    RootKeysNoDup(nRanks, r);
    FreeKeysCalls(be, conns, ks);
    FreeKeysOutcome(be, conns, ks);
    forall j | 0 <= j < |f.log|
      ensures f.log[j].channel == r
    {
      RootKeysChannel(nRanks, r, f.log[j]);
    }
    forall a, b | 0 <= a < |log| + |f.log| && a < b < |log| + |f.log|
      ensures (log + f.log)[a] != (log + f.log)[b]
    {
      if b >= |log| && a < |log| {
        assert log[a].channel < r;
      }
    }
  }

  /** Released keys of the first `n` channels: those of the first `n - 1`
      and the root keys of channel `n - 1` when it dropped its last reference. */
  lemma ReleasedNext(nRanks: int, present: seq<bool>, refs0: seq<int>, n: int)
    requires 0 < n <= |present| == |refs0|
    ensures forall k :: Released(nRanks, present, refs0, n, k) <==>
      Released(nRanks, present, refs0, n - 1, k)
      || (present[n - 1] && refs0[n - 1] == 1 && k in RootKeys(nRanks, n - 1))
  {
    forall k | k in RootKeys(nRanks, n - 1)
      ensures k.channel == n - 1
    {
    }
  }
}
