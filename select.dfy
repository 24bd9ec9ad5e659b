/** Transport selection (src/transport.cc:14-42): a first-match scan of the
    priority-ordered backend table that binds the connector to the chosen
    backend's send or recv half and runs that half's `setup` once. */
module Select {
  import opened Types
  import opened CommState

  datatype ScanResult = Chosen(t: int) | NoneCapable | ScanFailed(status: Status)

  /** The outcome of querying `canConnect` for backends `t..NTransports-1`
      in table order. */
  function Scan(be: Backends, peer: int, t: int): ScanResult
    requires 0 <= t <= NTransports
    decreases NTransports - t
  {
    if t == NTransports then NoneCapable
    else if Failed(be.canConnect(t, peer).status) then ScanFailed(be.canConnect(t, peer).status)
    else if be.canConnect(t, peer).capable then Chosen(t)
    else Scan(be, peer, t + 1)
  }

  /** A backend that answered without failing and was not capable. */
  predicate Passes(be: Backends, peer: int, u: int) {
    !Failed(be.canConnect(u, peer).status) && !be.canConnect(u, peer).capable
  }

  /** Some backend from `t` on answered `s`, after backends that all passed. */
  ghost predicate FailsAfterPasses(be: Backends, peer: int, t: int, s: Status) {
    exists u :: t <= u < NTransports && be.canConnect(u, peer).status == s
      && forall v :: t <= v < u ==> Passes(be, peer, v)
  }

  /** The scan picks the lowest-index capable backend; it reports "none
      capable" exactly when every backend answers "not capable"; a failed
      query stops it, and every backend before that one answered "not capable". */
  lemma {:induction false} ScanChoosesLowest(be: Backends, peer: int, t: int)
    requires 0 <= t <= NTransports
    ensures var r := Scan(be, peer, t);
      && (r.Chosen? ==> t <= r.t < NTransports && be.canConnect(r.t, peer).capable
                        && !Failed(be.canConnect(r.t, peer).status)
                        && forall u :: t <= u < r.t ==> Passes(be, peer, u))
      && (r.NoneCapable? <==> forall u :: t <= u < NTransports ==> Passes(be, peer, u))
      && (r.ScanFailed? ==> Failed(r.status) && FailsAfterPasses(be, peer, t, r.status))
    decreases NTransports - t
  {
    if t < NTransports && Passes(be, peer, t) {
      ScanChoosesLowest(be, peer, t + 1);
      var r := Scan(be, peer, t + 1);
      if r.ScanFailed? {
        var u :| t + 1 <= u < NTransports && be.canConnect(u, peer).status == r.status
                 && forall v :: t + 1 <= v < u ==> Passes(be, peer, v);
        assert forall v :: t <= v < u ==> Passes(be, peer, v);
      }
    } else if t < NTransports && Failed(be.canConnect(t, peer).status) {
      assert be.canConnect(t, peer).status == Scan(be, peer, t).status;
    }
  }

  /** The connector `k` once the selected backend `t` is bound to it and its
      setup has run. */
  function Bound(c: Connector, t: int, dir: Dir, so: SetupOut): Connector {
    Connector(Some(TransportComm(t, dir)), c.connected, so.resources)
  }

  /** `selectTransport<type>`: `dir` is Send for type 1 and Recv for type 0.
      Returns the status, the selected transport type (TransportUndefined
      when none was selected) and the handle that setup wrote. */
  method SelectTransport(comm: Comm, be: Backends, dir: Dir, channel: int, peer: int, connIndex: int)
    returns (st: Status, t: int, h: Handle)
    modifies comm`conns, comm`setupLog
    ensures var k := ConnKey(dir, channel, peer, connIndex);
      match Scan(be, peer, 0)
      case Chosen(c) =>
        var so := be.setup(c, dir, channel, peer, connIndex);
        && comm.setupLog == old(comm.setupLog) + [SetupCall(c, dir, channel, peer, connIndex)]
        && comm.conns == old(comm.conns)[k := Bound(Get(old(comm.conns), k), c, dir, so)]
        && h == so.handle
        && st == (if Failed(so.status) then so.status else Success)
        && t == (if Failed(so.status) then TransportUndefined else c)
      case NoneCapable =>
        st == SystemError && t == TransportUndefined
        && comm.setupLog == old(comm.setupLog) && comm.conns == old(comm.conns)
      case ScanFailed(s) =>
        st == s && t == TransportUndefined
        && comm.setupLog == old(comm.setupLog) && comm.conns == old(comm.conns)
  {
    var k := ConnKey(dir, channel, peer, connIndex);
    var u := 0;
    while u < NTransports
      invariant 0 <= u <= NTransports
      invariant Scan(be, peer, 0) == Scan(be, peer, u)
      invariant comm.conns == old(comm.conns) && comm.setupLog == old(comm.setupLog)
    {
      var cc := be.canConnect(u, peer);
      if Failed(cc.status) {
        return cc.status, TransportUndefined, Zeroed;
      }
      if cc.capable {
        comm.conns := comm.conns[k := comm.Conn(k).(transportComm := Some(TransportComm(u, dir)))];
        var so := be.setup(u, dir, channel, peer, connIndex);
        comm.setupLog := comm.setupLog + [SetupCall(u, dir, channel, peer, connIndex)];
        comm.conns := comm.conns[k := comm.Conn(k).(hasResources := so.resources)];
        if Failed(so.status) {
          return so.status, TransportUndefined, so.handle;
        }
        return Success, u, so.handle;
      }
      u := u + 1;
    }
    return SystemError, TransportUndefined, Zeroed;
  }
}
