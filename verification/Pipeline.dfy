/**
 From the socket to the answer: what the records of a run say about the connection they stand for. The
 statements are in terms of what the events read, with the numbers the probes and the agent exchange.
 */
module Pipeline {
  import opened Common
  import opened Sums
  import opened ConnTracer
  import opened ServiceMap
  import opened PollProtocol
  import opened Ledger
  import Decimal

  // ---------------------------------------------------------------------------
  // What an entry shows

  /** An event that has an effect: its socket can be read, and for data the peer is known. */
  predicate Effective(e: KernelEvent) {
    match e
    case SynSent(_, _, _) => true
    case SynRecv(_, view, _) => view.Some?
    case Data(_, view, _, _) => view.Some? && (view.value.destAddr != 0 || view.value.destPort != 0)
    case Close(_, view, _, _) => view.Some?
  }

  /** The entry has the addresses, the counters and the activity the event found; data alone is active. */
  predicate ShowsEvent(e: KernelEvent, key: ConnectionKey, s: ConnectionStats) {
    && !e.SynSent? && e.view.Some?
    && (key.srcAddr, key.srcPort) == (e.view.value.srcAddr, e.view.value.srcPort)
    && (key.destAddr, key.destPort) == (e.view.value.destAddr, e.view.value.destPort)
    && s == ConnectionStats(e.view.value.bytesSent, e.view.value.bytesReceived, if e.Data? then 1 else 0)
  }

  /** In a sound state an event writes an entry if and only if it has an effect, and for SYN_RECV a peer address. */
  lemma {:induction false} RecordedExactly(k: Kernel, h: History, e: KernelEvent)
    requires SocketsSound(k, h)
    ensures Touched(k, e).Some? <==> Effective(e) && !e.SynSent? && (e.SynRecv? ==> e.view.value.destAddr != 0)
    ensures Touched(k, e).Some? ==> ShowsEvent(e, Touched(k, e).value.0, Touched(k, e).value.1)
  {
  }

  /** No step of the run acts on the key. */
  ghost predicate Untouched(w: World, steps: seq<Step>, r: Resolver, key: ConnectionKey)
    decreases |steps|
  {
    steps == [] || (Acts(w, steps[0]) != Some(key) && Untouched(Next(w, steps[0], r), steps[1..], r, key))
  }

  /** Some event of the run recorded the entry as it read it, and no later step acts on its key. */
  ghost predicate LastRecorded(w: World, steps: seq<Step>, r: Resolver, key: ConnectionKey, s: ConnectionStats)
    decreases |steps|
  {
    steps != [] &&
    var w' := Next(w, steps[0], r);
    || LastRecorded(w', steps[1..], r, key, s)
    || (&& steps[0].Event? && Acts(w, steps[0]) == Some(key) && ShowsEvent(steps[0].e, key, s)
        && Untouched(w', steps[1..], r, key))
  }

  lemma {:induction false} StepShows(w: World, h: History, s: Step, r: Resolver, key: ConnectionKey)
    requires Sound(w, h) && key in Next(w, s, r).kernel.connections
    ensures var stats := Next(w, s, r).kernel.connections[key];
            if Acts(w, s) == Some(key) then s.Event? && ShowsEvent(s.e, key, stats)
            else key in w.kernel.connections && w.kernel.connections[key] == stats
  {
    if s.Event? { RecordedExactly(w.kernel, h, s.e); }
  }

  lemma {:induction false} EntryFrom(w: World, h: History, steps: seq<Step>, r: Resolver, key: ConnectionKey)
    requires Sound(w, h) && LegalRun(w, h, steps, r) && key in Run(w, steps, r).kernel.connections
    ensures var s := Run(w, steps, r).kernel.connections[key];
            || (key in w.kernel.connections && w.kernel.connections[key] == s && Untouched(w, steps, r, key))
            || LastRecorded(w, steps, r, key, s)
    decreases |steps|
  {
    if steps == [] {
    } else {
      SoundStep(w, h, steps[0], r);
      EntryFrom(Next(w, steps[0], r), NoteStep(h, w, steps[0]), steps[1..], r, key);
      if key in Next(w, steps[0], r).kernel.connections { StepShows(w, h, steps[0], r, key); }
    }
  }

  lemma {:induction false} StartSound()
    ensures Sound(START, NO_HISTORY)
  {
  }

  /**
   In every legal run each stored entry shows exactly what the last event that recorded it read from
   the socket: addresses, both counters, and active if and only if that event was data.
   */
  lemma {:induction false} EntryShowsLastEvent(steps: seq<Step>, r: Resolver, key: ConnectionKey)
    requires LegalRun(START, NO_HISTORY, steps, r) && key in Run(START, steps, r).kernel.connections
    ensures LastRecorded(START, steps, r, key, Run(START, steps, r).kernel.connections[key])
  {
    StartSound();
    EntryFrom(START, NO_HISTORY, steps, r, key);
  }

  /** Whether a socket is tracked after some events: the last one with an effect on it decides, unless it is a close. */
  function Tracks(steps: seq<Step>, sk: Sock, before: bool): bool {
    if steps == [] then before
    else
      var s := steps[0];
      Tracks(steps[1..], sk, if s.Event? && s.e.sk == sk && Effective(s.e) then !s.e.Close? else before)
  }

  /** In every run exactly those sockets are tracked. */
  lemma {:induction false} TrackedExactly(w: World, steps: seq<Step>, r: Resolver, sk: Sock)
    ensures sk in Run(w, steps, r).kernel.sockets <==> Tracks(steps, sk, sk in w.kernel.sockets)
    decreases |steps|
  {
    if steps == [] {
    } else {
      TrackedExactly(Next(w, steps[0], r), steps[1..], r, sk);
    }
  }

  // ---------------------------------------------------------------------------
  // Where ids, process ids and roles come from

  /** The socket record each id was drawn for. */
  type Origins = map<u32, SockInfo>

  function Drew(o: Origins, w: World, s: Step): Origins {
    if s.Event? && Issued(w.kernel, s.e) != {} then o[s.e.id := InfoFor(w.kernel, s.e)] else o
  }

  function OriginsOf(o: Origins, w: World, steps: seq<Step>, r: Resolver): Origins
    decreases |steps|
  {
    if steps == [] then o else OriginsOf(Drew(o, w, steps[0]), Next(w, steps[0], r), steps[1..], r)
  }

  ghost predicate Told(o: Origins, key: ConnectionKey) {
    key.id in o && key.pid == o[key.id].pid && key.role == o[key.id].role
  }

  /** Sockets and recorded keys keep the process and role their id was drawn with. */
  ghost predicate OriginsSound(w: World, h: History, b: Book, o: Origins) {
    && o.Keys <= h.used
    && w.kernel.connections.Keys <= b.Keys
    && (forall sk :: sk in w.kernel.sockets ==>
          w.kernel.sockets[sk].id in o && o[w.kernel.sockets[sk].id] == w.kernel.sockets[sk])
    && (forall key :: key in b ==> Told(o, key))
  }

  lemma {:induction false} OriginsStep(w: World, h: History, b: Book, o: Origins, s: Step, r: Resolver)
    requires OriginsSound(w, h, b, o) && (s.Event? ==> Legal(w.kernel, h, s.e))
    ensures OriginsSound(Next(w, s, r), NoteStep(h, w, s), Booked(b, w, s), Drew(o, w, s))
    ensures forall id :: id in o ==> id in Drew(o, w, s) && Drew(o, w, s)[id] == o[id]
  {
  }

  lemma {:induction false} OriginsRun(w: World, h: History, b: Book, o: Origins, steps: seq<Step>, r: Resolver)
    requires OriginsSound(w, h, b, o) && LegalRun(w, h, steps, r)
    ensures OriginsSound(Run(w, steps, r), Log(h, w, steps, r), BookOf(b, w, steps, r), OriginsOf(o, w, steps, r))
    ensures forall id :: id in o ==> id in OriginsOf(o, w, steps, r) && OriginsOf(o, w, steps, r)[id] == o[id]
    decreases |steps|
  {
    if steps == [] {
    } else {
      OriginsStep(w, h, b, o, steps[0], r);
      OriginsRun(
        Next(w, steps[0], r), NoteStep(h, w, steps[0]), Booked(b, w, steps[0]), Drew(o, w, steps[0]), steps[1..], r);
    }
  }

  /** The process and role an event gives the id it draws. A backlog tells servers from clients. */
  predicate GivenBy(e: KernelEvent, pid: u32, role: u32) {
    match e
    case SynSent(_, _, p) => pid == p && role == 1
    case SynRecv(_, _, _) => pid == 0 && role == 2
    case Data(_, _, _, backlog) => pid == 0 && RoleByBacklog(backlog, role)
    case Close(_, _, _, backlog) => pid == 0 && RoleByBacklog(backlog, role)
  }

  /** Without a backlog a socket is a client's, with one a server's; if it cannot be read the role is unknown. */
  predicate RoleByBacklog(backlog: Option<u32>, role: u32) {
    role == if backlog.None? then 0 else if backlog.value == 0 then 1 else 2
  }

  /** The event draws an id: a handshake always, data and close when their socket is not tracked. */
  ghost predicate Draws(k: Kernel, e: KernelEvent) {
    Effective(e) && (e.Data? || e.Close? ==> e.sk !in k.sockets)
  }

  lemma {:induction false} DrawnFrom(
    w: World, h: History, b: Book, o: Origins, steps: seq<Step>, r: Resolver, i: nat)
    requires OriginsSound(w, h, b, o) && LegalRun(w, h, steps, r)
    requires i < |steps| && steps[i].Event? && Draws(Run(w, steps[..i], r).kernel, steps[i].e)
    ensures var o' := OriginsOf(o, w, steps, r);
            steps[i].e.id in o' && GivenBy(steps[i].e, o'[steps[i].e.id].pid, o'[steps[i].e.id].role)
    decreases |steps|
  {
    var (w', h', b', o') :=
      (Next(w, steps[0], r), NoteStep(h, w, steps[0]), Booked(b, w, steps[0]), Drew(o, w, steps[0]));
    OriginsStep(w, h, b, o, steps[0], r);
    if i == 0 {
      assert steps[..0] == [];
      OriginsRun(w', h', b', o', steps[1..], r);
    } else {
      assert steps[..i][1..] == steps[1..][..i - 1];
      DrawnFrom(w', h', b', o', steps[1..], r, i - 1);
    }
  }

  /**
   In every legal run, an id drawn at SYN_SENT stands for a client under its process id, one drawn at
   SYN_RECV for a server, and one drawn elsewhere for what the backlog tells: so says every socket
   tracked at the end, and every key ever recorded, under that id.
   */
  lemma {:induction false} IdsTellOrigin(steps: seq<Step>, r: Resolver, i: nat)
    requires LegalRun(START, NO_HISTORY, steps, r)
    requires i < |steps| && steps[i].Event? && Draws(Run(START, steps[..i], r).kernel, steps[i].e)
    ensures forall key :: key in BookOf(map[], START, steps, r) && key.id == steps[i].e.id ==>
              GivenBy(steps[i].e, key.pid, key.role)
    ensures var k := Run(START, steps, r).kernel;
            forall sk :: sk in k.sockets && k.sockets[sk].id == steps[i].e.id ==>
              GivenBy(steps[i].e, k.sockets[sk].pid, k.sockets[sk].role)
  {
    OriginsRun(START, NO_HISTORY, map[], map[], steps, r);
    DrawnFrom(START, NO_HISTORY, map[], map[], steps, r, i);
    assert forall key :: key in BookOf(map[], START, steps, r) ==> Told(OriginsOf(map[], START, steps, r), key);
  }

  // ---------------------------------------------------------------------------
  // From the handshake to the answer

  /** Both addresses of the socket are in the index. */
  predicate Known(v: SockView, idx: IpIndex) {
    Decimal.Ipv4String(v.srcAddr) in idx && Decimal.Ipv4String(v.destAddr) in idx
  }

  /** The bytes of an entry that is open are in the answer for its pair. */
  lemma {:induction false} OpenIsAnswered(past: Totals, m: Entries, r: Resolver, c: Connection, key: ConnectionKey)
    requires key in m && m[key].isActive == 1 && key.role != 0 && key.srcAddr != key.destAddr
    requires !("127." <= Decimal.Ipv4String(key.destAddr)) && r(key) == Some(c)
    ensures Total(PollAnswer(past, m, r), c) >= Total(past, c) + m[key].bytesSent
  {
    LoopbackText(key.destAddr);
    CreditTotal(past, OpenOf(m), r, c);
    SumPick(BytesOf(OpenOf(m), r, c), key);
  }

  /**
   A client's connection, from SYN_SENT over its data to the answer: it is booked under the workload of
   its own address as client, that of its peer as server, role 1, and the peer's port.
   */
  lemma {:induction false} ClientAnswered(
    k: Kernel, sk: Sock, id: u32, pid: u32, v: SockView, id': u32, backlog: Option<u32>, idx: IpIndex, past: Totals)
    requires (v.destAddr != 0 || v.destPort != 0) && Known(v, idx)
    requires v.srcAddr != v.destAddr && !("127." <= Decimal.Ipv4String(v.destAddr))
    ensures var m := After(After(k, SynSent(sk, id, pid)), Data(sk, Some(v), id', backlog)).connections;
            var (client, server) := (idx[Decimal.Ipv4String(v.srcAddr)], idx[Decimal.Ipv4String(v.destAddr)]);
            Total(PollAnswer(past, m, ResolverOf(Steady(idx))), Connection(client, server, 1, v.destPort)) >=
            Total(past, Connection(client, server, 1, v.destPort)) + v.bytesSent
  {
    var m := After(After(k, SynSent(sk, id, pid)), Data(sk, Some(v), id', backlog)).connections;
    var key := ConnectionKey(id, pid, v.srcAddr, v.srcPort, v.destAddr, v.destPort, 1);
    assert key in m && m[key] == ConnectionStats(v.bytesSent, v.bytesReceived, 1);
    PairOfKey(key, idx, idx);
    OpenIsAnswered(past, m, ResolverOf(Steady(idx)), ResolverOf(Steady(idx))(key).value, key);
  }

  /** A server's connection, from SYN_RECV: its peer is the client, role 2, and the port is its own. */
  lemma {:induction false} ServerAnswered(
    k: Kernel, sk: Sock, id: u32, v': SockView, v: SockView, id': u32, backlog: Option<u32>, idx: IpIndex, past: Totals)
    requires (v.destAddr != 0 || v.destPort != 0) && Known(v, idx)
    requires v.srcAddr != v.destAddr && !("127." <= Decimal.Ipv4String(v.destAddr))
    ensures var m := After(After(k, SynRecv(sk, Some(v'), id)), Data(sk, Some(v), id', backlog)).connections;
            var (client, server) := (idx[Decimal.Ipv4String(v.destAddr)], idx[Decimal.Ipv4String(v.srcAddr)]);
            Total(PollAnswer(past, m, ResolverOf(Steady(idx))), Connection(client, server, 2, v.srcPort)) >=
            Total(past, Connection(client, server, 2, v.srcPort)) + v.bytesSent
  {
    var m := After(After(k, SynRecv(sk, Some(v'), id)), Data(sk, Some(v), id', backlog)).connections;
    var key := ConnectionKey(id, 0, v.srcAddr, v.srcPort, v.destAddr, v.destPort, 2);
    assert key in m && m[key] == ConnectionStats(v.bytesSent, v.bytesReceived, 1);
    PairOfKey(key, idx, idx);
    OpenIsAnswered(past, m, ResolverOf(Steady(idx)), ResolverOf(Steady(idx))(key).value, key);
  }
}
