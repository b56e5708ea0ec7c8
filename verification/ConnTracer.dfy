/**
 The kernel side of the service map: the `conn-tracer` eBPF program. It keeps one record per
 tracked socket (`SOCKETS`) and one record per connection (`CONNECTIONS`).

 `Touched`, `SocketsAfter` and `Issued` say what one event does to the two maps; class `Tracer`
 is the program itself, proved against them. The rest of the module is about runs: what every
 legal event keeps.
 */
module ConnTracer {
  import opened Common

  const ROLE_UNKNOWN: u32 := 0
  const ROLE_CLIENT: u32 := 1
  const ROLE_SERVER: u32 := 2

  const TCP_SYN_SENT: int := 2
  const TCP_SYN_RECV: int := 3
  const TCP_CLOSE: int := 7

  /** A kernel socket pointer. */
  type Sock = nat

  datatype SockInfo = SockInfo(id: u32, pid: u32, isActive: u32, role: u32)

  datatype ConnectionKey = ConnectionKey(
    id: u32, pid: u32, srcAddr: u32, srcPort: u32, destAddr: u32, destPort: u32, role: u32)

  datatype ConnectionStats = ConnectionStats(bytesSent: u64, bytesReceived: u64, isActive: u64)

  /** What reading an IPv4 socket out of kernel memory yields; a failed read or another family yields none. */
  datatype SockView = SockView(
    srcAddr: u32, srcPort: u32, destAddr: u32, destPort: u32, bytesSent: u64, bytesReceived: u64)

  datatype Kernel = Kernel(
    sockets: map<Sock, SockInfo>, connections: map<ConnectionKey, ConnectionStats>)

  /** One probe firing, with everything it reads from the kernel: the socket, the clock-derived id, the backlog. */
  datatype KernelEvent =
    | SynSent(sk: Sock, id: u32, pid: u32)
    | SynRecv(sk: Sock, view: Option<SockView>, id: u32)
    | Data(sk: Sock, view: Option<SockView>, id: u32, backlog: Option<u32>)
    | Close(sk: Sock, view: Option<SockView>, id: u32, backlog: Option<u32>)

  predicate Active(s: ConnectionStats) { s.isActive == 1 }

  function SockRole(backlog: Option<u32>): u32 {
    match backlog
    case Some(0) => ROLE_CLIENT
    case Some(_) => ROLE_SERVER
    case None => ROLE_UNKNOWN
  }

  function KeyOf(v: SockView, info: SockInfo): ConnectionKey {
    ConnectionKey(info.id, info.pid, v.srcAddr, v.srcPort, v.destAddr, v.destPort, info.role)
  }

  function StatsOf(v: SockView, isActive: u64): ConnectionStats {
    ConnectionStats(v.bytesSent, v.bytesReceived, isActive)
  }

  // ---------------------------------------------------------------------------
  // What one event does

  /** The socket record an event works with: the tracked one, or the one it makes up. */
  function InfoFor(k: Kernel, e: KernelEvent): SockInfo {
    match e
    case SynSent(_, id, pid) => SockInfo(id, pid, 1, ROLE_CLIENT)
    case SynRecv(_, _, id) => SockInfo(id, 0, 1, ROLE_SERVER)
    case Data(sk, _, id, backlog) =>
      if sk in k.sockets then k.sockets[sk] else SockInfo(id, 0, 1, SockRole(backlog))
    case Close(sk, _, id, backlog) =>
      if sk in k.sockets then k.sockets[sk] else SockInfo(id, 0, 1, SockRole(backlog))
  }

  /** An event that ends before it looks at `SOCKETS`. */
  predicate Ignored(e: KernelEvent) {
    match e
    case SynSent(_, _, _) => false
    case SynRecv(_, v, _) => v.None?
    case Data(_, v, _, _) => v.None? || (v.value.destAddr == 0 && v.value.destPort == 0)
    case Close(_, v, _, _) => v.None?
  }

  /** The one `CONNECTIONS` entry an event writes, if it writes any. */
  function Touched(k: Kernel, e: KernelEvent): Option<(ConnectionKey, ConnectionStats)> {
    if Ignored(e) then None else
    match e
    case SynSent(_, _, _) => None
    case SynRecv(_, v, _) =>
      if v.value.destAddr == 0 then None
      else Some((KeyOf(v.value, InfoFor(k, e)), StatsOf(v.value, 0)))
    case Data(_, v, _, _) =>
      if InfoFor(k, e).isActive == 0 then None
      else Some((KeyOf(v.value, InfoFor(k, e)), StatsOf(v.value, InfoFor(k, e).isActive)))
    case Close(_, v, _, _) =>
      Some((KeyOf(v.value, InfoFor(k, e)), StatsOf(v.value, 0)))
  }

  function SocketsAfter(k: Kernel, e: KernelEvent): map<Sock, SockInfo> {
    if Ignored(e) then k.sockets
    else if e.Close? then k.sockets - {e.sk}
    else k.sockets[e.sk := InfoFor(k, e)]
  }

  function After(k: Kernel, e: KernelEvent): Kernel {
    Kernel(SocketsAfter(k, e),
           match Touched(k, e)
           case Some((key, stats)) => k.connections[key := stats]
           case None => k.connections)
  }

  /** The bytes the socket itself says it has sent, as the event finds it. */
  function Counter(e: KernelEvent): nat {
    if e.SynSent? || e.view.None? then 0 else e.view.value.bytesSent
  }

  /** The ids an event draws from the clock. */
  function Issued(k: Kernel, e: KernelEvent): set<u32> {
    if Ignored(e) then {}
    else if (e.Data? || e.Close?) && e.sk in k.sockets then {}
    else {e.id}
  }

  // ---------------------------------------------------------------------------
  // The program

  /** The state-change tracepoint acts on three of the TCP states of section 3.3.2 of RFC 9293. */
  function StateEvent(sk: Sock, newState: int, view: Option<SockView>, id: u32, pid: u32, backlog: Option<u32>)
    : Option<KernelEvent>
  {
    if newState == TCP_SYN_RECV then Some(SynRecv(sk, view, id))
    else if newState == TCP_SYN_SENT then Some(SynSent(sk, id, pid))
    else if newState == TCP_CLOSE then Some(Close(sk, view, id, backlog))
    else None
  }

  /** States 2, 3 and 7 are SYN_SENT, SYN_RECV and CLOSE; every other state is passed over. */
  lemma {:induction false} StatesPicked(
    sk: Sock, newState: int, view: Option<SockView>, id: u32, pid: u32, backlog: Option<u32>)
    ensures StateEvent(sk, newState, view, id, pid, backlog) ==
            match newState
            case 2 => Some(SynSent(sk, id, pid))
            case 3 => Some(SynRecv(sk, view, id))
            case 7 => Some(Close(sk, view, id, backlog))
            case _ => None
  {
  }

  class Tracer {
    var sockets: map<Sock, SockInfo>
    var connections: map<ConnectionKey, ConnectionStats>

    ghost function State(): Kernel reads this { Kernel(sockets, connections) }

    constructor ()
      ensures State() == Kernel(map[], map[])
    {
      sockets, connections := map[], map[];
    }

    /** The `tcp_data_queue` probe. The error is reached by an unreadable socket or an inactive record only. */
    method TrySockConnTracer(sk: Sock, view: Option<SockView>, id: u32, backlog: Option<u32>) returns (r: Result<int>)
      modifies this
      ensures State() == After(old(State()), Data(sk, view, id, backlog))
      ensures r.Err? <==>
              || view.None?
              || (!Ignored(Data(sk, view, id, backlog)) && sk in old(sockets) && old(sockets[sk].isActive) == 0)
    {
      if view.None? { return Err; }
      var v := view.value;
      if v.destAddr == 0 && v.destPort == 0 { return Ok(0); }
      if sk in sockets {
        var info := sockets[sk];
        var key := ConnectionKey(info.id, info.pid, v.srcAddr, v.srcPort, v.destAddr, v.destPort, info.role);
        if info.isActive == 0 {
          assert sockets == sockets[sk := info];
          return Err;
        }
        connections := connections[key := ConnectionStats(v.bytesSent, v.bytesReceived, info.isActive)];
        assert sockets == sockets[sk := info];
      } else {
        var info := SockInfo(id, 0, 1, SockRole(backlog));
        sockets := sockets[sk := info];
        var key := ConnectionKey(info.id, info.pid, v.srcAddr, v.srcPort, v.destAddr, v.destPort, info.role);
        connections := connections[key := ConnectionStats(v.bytesSent, v.bytesReceived, 1)];
      }
      return Ok(0);
    }

    method HandleTcpSynSent(sk: Sock, id: u32, pid: u32) returns (r: Result<int>)
      modifies this
      ensures State() == After(old(State()), SynSent(sk, id, pid))
      ensures r == Ok(0)
    {
      sockets := sockets[sk := SockInfo(id, pid, 1, ROLE_CLIENT)];
      return Ok(0);
    }

    method HandleTcpSynRecv(sk: Sock, view: Option<SockView>, id: u32) returns (r: Result<int>)
      modifies this
      ensures State() == After(old(State()), SynRecv(sk, view, id))
      ensures r == if view.None? then Err else Ok(0)
    {
      if view.None? { return Err; }
      var v := view.value;
      sockets := sockets[sk := SockInfo(id, 0, 1, ROLE_SERVER)];
      if v.destAddr == 0 { return Ok(0); }
      var key := ConnectionKey(id, 0, v.srcAddr, v.srcPort, v.destAddr, v.destPort, ROLE_SERVER);
      connections := connections[key := ConnectionStats(v.bytesSent, v.bytesReceived, 0)];
      return Ok(0);
    }

    method HandleTcpClose(sk: Sock, view: Option<SockView>, id: u32, backlog: Option<u32>) returns (r: Result<int>)
      modifies this
      ensures State() == After(old(State()), Close(sk, view, id, backlog))
      ensures r == if view.None? then Err else Ok(0)
    {
      if view.None? { return Err; }
      var v := view.value;
      var key := ConnectionKey(id, 0, v.srcAddr, v.srcPort, v.destAddr, v.destPort, SockRole(backlog));
      if sk in sockets {
        var info := sockets[sk];
        key := key.(id := info.id, pid := info.pid, role := info.role);
        sockets := sockets - {sk};
      } else {
        assert sockets == sockets - {sk};
      }
      connections := connections[key := ConnectionStats(v.bytesSent, v.bytesReceived, 0)];
      return Ok(0);
    }

    method TryStateTracer(sk: Sock, newState: int, view: Option<SockView>, id: u32, pid: u32, backlog: Option<u32>)
      returns (r: Result<int>)
      modifies this
      ensures var e := StateEvent(sk, newState, view, id, pid, backlog);
              && State() == (if e.Some? then After(old(State()), e.value) else old(State()))
              && (r.Err? <==> e.Some? && !e.value.SynSent? && e.value.view.None?)
              && (r.Ok? ==> r == Ok(0))
    {
      if newState == TCP_SYN_RECV {
        r := HandleTcpSynRecv(sk, view, id);
      } else if newState == TCP_SYN_SENT {
        r := HandleTcpSynSent(sk, id, pid);
      } else if newState == TCP_CLOSE {
        r := HandleTcpClose(sk, view, id, backlog);
      } else {
        r := Ok(0);
      }
    }
  }

  // ---------------------------------------------------------------------------
  // What every legal event keeps

  /**
   What a run has done so far: the ids drawn, those drawn at SYN_RECV, and the bytes each socket had
   sent when it closed.
   */
  datatype History = History(used: set<u32>, recv: set<u32>, closed: map<ConnectionKey, nat>)

  const NO_HISTORY: History := History({}, {}, map[])

  function Note(h: History, k: Kernel, e: KernelEvent): History {
    History(h.used + Issued(k, e),
            if e.SynRecv? then h.recv + Issued(k, e) else h.recv,
            match Touched(k, e)
            case Some((key, _)) => if e.Close? then h.closed[key := Counter(e)] else h.closed
            case None => h.closed)
  }

  predicate Owns(info: SockInfo, key: ConnectionKey) {
    key.id == info.id && key.pid == info.pid && key.role == info.role
  }

  predicate HasTuple(v: SockView, key: ConnectionKey) {
    && key.srcAddr == v.srcAddr && key.srcPort == v.srcPort
    && key.destAddr == v.destAddr && key.destPort == v.destPort
  }

  /**
   The assumptions on the kernel: ids drawn are new; a handshake starts only on a socket with no
   active entry; a socket closes with the address tuple its active entries were recorded under.
   */
  ghost predicate Legal(k: Kernel, h: History, e: KernelEvent) {
    && Issued(k, e) !! h.used
    && ((e.SynSent? || e.SynRecv?) && e.sk in k.sockets ==>
          forall key :: key in k.connections && Active(k.connections[key]) ==> key.id != k.sockets[e.sk].id)
    && (e.Close? && e.view.Some? && e.sk in k.sockets ==>
          forall key :: key in k.connections && Active(k.connections[key]) && key.id == k.sockets[e.sk].id
            ==> HasTuple(e.view.value, key))
  }

  ghost predicate SocketsSound(k: Kernel, h: History) {
    && (forall sk :: sk in k.sockets ==> k.sockets[sk].isActive == 1 && k.sockets[sk].id in h.used)
    && (forall s1, s2 :: s1 in k.sockets && s2 in k.sockets && s1 != s2 ==> k.sockets[s1].id != k.sockets[s2].id)
  }

  ghost predicate ActiveOwned(k: Kernel, h: History) {
    forall key :: key in k.connections ==>
      && key.id in h.used
      && (Active(k.connections[key]) ==> exists sk :: sk in k.sockets && Owns(k.sockets[sk], key))
  }

  /** A closed key is final: no socket carries its id any more, and an entry still stored holds its closing bytes. */
  ghost predicate ClosedFinal(k: Kernel, h: History) {
    && (forall key :: key in h.closed ==> key.id in h.used)
    && (forall key, sk :: key in h.closed && sk in k.sockets ==> k.sockets[sk].id != key.id)
    && (forall key :: key in h.closed && key in k.connections ==>
          !Active(k.connections[key]) && k.connections[key].bytesSent == h.closed[key])
  }

  /** An inactive entry is a closed one, unless its id was drawn at SYN_RECV. */
  ghost predicate InactiveClosed(k: Kernel, h: History) {
    forall key :: key in k.connections && !Active(k.connections[key]) && key.id !in h.recv ==> key in h.closed
  }

  ghost predicate Inv(k: Kernel, h: History) {
    SocketsSound(k, h) && ActiveOwned(k, h) && ClosedFinal(k, h) && InactiveClosed(k, h)
  }

  /** An entry that is closed is never written again. */
  lemma {:induction false} ClosedUntouched(k: Kernel, h: History, e: KernelEvent)
    requires Inv(k, h) && Legal(k, h, e)
    requires Touched(k, e).Some?
    ensures Touched(k, e).value.0 !in h.closed
  {
    var key := Touched(k, e).value.0;
    assert key.id == InfoFor(k, e).id;
    if (e.Data? || e.Close?) && e.sk in k.sockets {
      assert key.id == k.sockets[e.sk].id;
    } else {
      assert key.id in Issued(k, e);
    }
  }

  lemma {:induction false} ActiveOwnedStep(k: Kernel, h: History, e: KernelEvent)
    requires Inv(k, h) && Legal(k, h, e)
    ensures ActiveOwned(After(k, e), Note(h, k, e))
  {
    var k', h' := After(k, e), Note(h, k, e);
    forall key | key in k'.connections && Active(k'.connections[key])
      ensures exists sk :: sk in k'.sockets && Owns(k'.sockets[sk], key)
    {
      if Touched(k, e).Some? && key == Touched(k, e).value.0 {
        assert e.sk in k'.sockets && Owns(k'.sockets[e.sk], key);
      } else {
        var sk :| sk in k.sockets && Owns(k.sockets[sk], key);
        assert sk in k'.sockets && k'.sockets[sk] == k.sockets[sk];
      }
    }
  }

  lemma {:induction false} SocketsSoundStep(k: Kernel, h: History, e: KernelEvent)
    requires Inv(k, h) && Legal(k, h, e)
    ensures SocketsSound(After(k, e), Note(h, k, e))
  {
  }

  lemma {:induction false} ClosedFinalStep(k: Kernel, h: History, e: KernelEvent)
    requires Inv(k, h) && Legal(k, h, e)
    ensures ClosedFinal(After(k, e), Note(h, k, e))
    ensures InactiveClosed(After(k, e), Note(h, k, e))
  {
    if Touched(k, e).Some? { ClosedUntouched(k, h, e); }
  }

  /** Every legal event keeps the invariant. */
  lemma {:induction false} InvStep(k: Kernel, h: History, e: KernelEvent)
    requires Inv(k, h) && Legal(k, h, e)
    ensures Inv(After(k, e), Note(h, k, e))
  {
    SocketsSoundStep(k, h, e);
    ActiveOwnedStep(k, h, e);
    ClosedFinalStep(k, h, e);
  }

  /** User space deleting entries keeps the invariant, whichever entries it deletes. */
  lemma {:induction false} InvRemove(k: Kernel, h: History, gone: set<ConnectionKey>)
    requires Inv(k, h)
    ensures Inv(k.(connections := k.connections - gone), h)
  {
  }

  // ---------------------------------------------------------------------------
  // Where new ids come from

  /** `get_unique_id` keeps the low 32 bits of a nanosecond clock. */
  function UniqueId(nanos: u64): u32 { nanos % TWO_32 }

  /** Two readings share an id exactly when they lie a multiple of 2^32 nanoseconds apart. */
  lemma {:induction false} IdsCollide(t1: u64, t2: u64)
    requires t1 <= t2
    ensures UniqueId(t1) == UniqueId(t2) <==> exists n: nat :: t2 - t1 == n * TWO_32
  {
    if UniqueId(t1) == UniqueId(t2) {
      assert t2 - t1 == (t2 / TWO_32 - t1 / TWO_32) * TWO_32;
    }
    if n: nat :| t2 - t1 == n * TWO_32 {
      assert t2 % TWO_32 == (t1 + n * TWO_32) % TWO_32 == t1 % TWO_32;
    }
  }
}
