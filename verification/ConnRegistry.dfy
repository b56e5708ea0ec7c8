/**
 The socket tracer's connection records (`CONN_INFO_MAP`), kept under a key packed from process and
 file descriptor, and the byte counters in them.
 */
module ConnRegistry {
  import opened Common

  type i32 = x: int | -0x8000_0000 <= x < 0x8000_0000

  // ---------------------------------------------------------------------------
  // The packed key

  /** Bitwise or. */
  function Or(a: nat, b: nat): nat
    decreases a + b
  {
    if a == 0 && b == 0 then 0 else (if a % 2 == 1 || b % 2 == 1 then 1 else 0) + 2 * Or(a / 2, b / 2)
  }

  /** Shift to the left. */
  function Shift(a: nat, n: nat): nat { if n == 0 then a else 2 * Shift(a, n - 1) }

  lemma {:induction false} Shift8(a: nat, n: nat)
    ensures Shift(a, n + 8) == Shift(a, n) * 0x100
  {
    assert Shift(a, n + 2) == Shift(a, n) * 4;
    assert Shift(a, n + 4) == Shift(a, n + 2) * 4;
    assert Shift(a, n + 6) == Shift(a, n + 4) * 4;
  }

  lemma {:induction false} Shift32(a: nat)
    ensures Shift(a, 32) == a * 0x1_0000_0000
  {
    Shift8(a, 0);
    Shift8(a, 8);
    Shift8(a, 16);
    Shift8(a, 24);
  }

  /** Or works on the upper bits alone when one side has no lower ones. */
  lemma {:induction false} OrShifted(a: nat, b: nat, low: nat, n: nat)
    requires low < Shift(1, n)
    ensures Or(Shift(a, n), Shift(b, n) + low) == Shift(Or(a, b), n) + low
    decreases n
  {
    if n == 0 {
    } else {
      OrShifted(a, b, low / 2, n - 1);
    }
  }

  lemma {:induction false} OrZero(a: nat)
    ensures Or(a, 0) == a
  {
    if a == 0 {
    } else {
      OrZero(a / 2);
    }
  }

  /** Or with n ones swallows anything of n bits. */
  lemma {:induction false} OrOnes(a: nat, n: nat)
    requires a < Shift(1, n)
    ensures Or(a, Shift(1, n) - 1) == Shift(1, n) - 1
    decreases n
  {
    if n == 0 {
    } else {
      var half := Shift(1, n - 1);
      OrOnes(a / 2, n - 1);
      assert (2 * half - 1) % 2 == 1 && (2 * half - 1) / 2 == half - 1;
    }
  }

  /** The cast of a descriptor to 64 bits extends its sign. */
  function AsU64(fd: i32): u64 { if fd >= 0 then fd else TWO_64 + fd }

  /** The packed key as a number: a negative descriptor fills the upper half with ones. */
  function GenTgidFd(tgid: u32, fd: i32): u64 { if fd >= 0 then tgid * TWO_32 + fd else TWO_64 + fd }

  /** It is the process id, shifted up by 32 bits, or-ed with the sign-extended descriptor. */
  lemma {:induction false} ShiftOr(tgid: u32, fd: i32)
    ensures GenTgidFd(tgid, fd) == Or(Shift(tgid, 32), AsU64(fd))
  {
    Shift32(1);
    Shift32(tgid);
    if fd >= 0 {
      Shift32(0);
      OrZero(tgid);
      OrShifted(tgid, 0, fd, 32);
    } else {
      Shift32(TWO_32 - 1);
      OrOnes(tgid, 32);
      OrShifted(tgid, TWO_32 - 1, TWO_32 + fd, 32);
    }
  }

  /**
   Two (process, descriptor) pairs share a key exactly when the descriptors agree and either the
   processes do too or the descriptor is negative. So the packing is injective on the descriptors
   all callers let through, and on no others.
   */
  lemma PackingCollides(t1: u32, f1: i32, t2: u32, f2: i32)
    ensures GenTgidFd(t1, f1) == GenTgidFd(t2, f2) <==> f1 == f2 && (t1 == t2 || f1 < 0)
  {
  }

  // ---------------------------------------------------------------------------
  // Records

  const AF_UNKNOWN: u32 := 0xff
  const AF_INET: u32 := 2
  const AF_INET6: u32 := 10

  datatype EndpointRole = RoleUnknown | RoleClient | RoleServer

  datatype ConnId = ConnId(tgid: u32, startTicks: u64, fd: i32, tsid: u64)

  datatype Counters = Counters(write: int, read: int, prevReported: int)

  const ZERO: Counters := Counters(0, 0, 0)

  /** `peer` stands for the addresses and ports. */
  datatype ConnInfo = ConnInfo(id: ConnId, role: EndpointRole, counters: Counters, family: u32, peer: nat)

  predicate Traced(family: u32) { family == AF_UNKNOWN || family == AF_INET || family == AF_INET6 }

  /** What reading the socket or the socket address yields: nothing to read, a failure, or an address. */
  datatype Address = NoAddress | Unreadable | Address(family: u32, peer: nat)

  datatype Direction = Egress | Ingress

  // ---------------------------------------------------------------------------
  // Counting and reporting

  const THRESHOLD: int := 65536

  function Bump(c: Counters, d: Direction, n: int): Counters {
    match d
    case Egress => c.(write := c.write + n)
    case Ingress => c.(read := c.read + n)
  }

  function Sent(c: Counters): int { c.write + c.read }

  /** Whether an update is due for a report. */
  predicate Due(c: Counters) { Sent(c) >= c.prevReported + THRESHOLD }

  datatype Update = Update(direction: Direction, count: int, populateOk: bool)

  function Updated(c: Counters, u: Update): Counters {
    var b := Bump(c, u.direction, u.count);
    if Due(b) && u.populateOk then b.(prevReported := Sent(b)) else b
  }

  /** The totals reported along a sequence of updates. */
  function Reports(c: Counters, us: seq<Update>): seq<int>
    decreases |us|
  {
    if us == [] then []
    else
      var b := Bump(c, us[0].direction, us[0].count);
      (if Due(b) && us[0].populateOk then [Sent(b)] else []) + Reports(Updated(c, us[0]), us[1..])
  }

  function UpdatedAll(c: Counters, us: seq<Update>): Counters
    decreases |us|
  {
    if us == [] then c else UpdatedAll(Updated(c, us[0]), us[1..])
  }

  function Counted(us: seq<Update>): int { if us == [] then 0 else us[0].count + Counted(us[1..]) }

  /** The record updated in place. `report` is the total handed to the perf buffer. */
  class Record {
    var counters: Counters

    constructor (c: Counters)
      ensures counters == c
    {
      counters := c;
    }

    method UpdateConnStats(direction: Direction, bytesCount: int, populateOk: bool)
      returns (r: Result<int>, report: Option<int>)
      modifies this
      ensures counters == Updated(old(counters), Update(direction, bytesCount, populateOk))
      ensures Reports(old(counters), [Update(direction, bytesCount, populateOk)]) ==
              if report.Some? then [report.value] else []
      ensures r.Err? <==> Due(Bump(old(counters), direction, bytesCount)) && !populateOk
    {
      match direction {
        case Egress => counters := counters.(write := counters.write + bytesCount);
        case Ingress => counters := counters.(read := counters.read + bytesCount);
      }
      var total := counters.write + counters.read;
      if total >= counters.prevReported + THRESHOLD {
        if !populateOk { return Err, None; }
        counters := counters.(prevReported := total);
        return Ok(0), Some(total);
      }
      return Ok(0), None;
    }
  }

  /**
   Reporting lag: over every sequence of positive byte counts on one record, written plus read is
   the sum of the counts; each report is at least 65536 above the one before it (`floor` stands for
   the one before the first); there are at most total/65536 reports; and whenever the last update
   could be reported, less than 65536 bytes are left unreported.
   */
  lemma {:induction false} ReportingLag(c: Counters, us: seq<Update>)
    requires c.prevReported <= Sent(c)
    requires forall i :: 0 <= i < |us| ==> us[i].count > 0
    ensures var (end, reports) := (UpdatedAll(c, us), Reports(c, us));
            && Sent(end) == Sent(c) + Counted(us)
            && end.prevReported <= Sent(end)
            && Spaced(c.prevReported, reports)
            && 65536 * |reports| <= end.prevReported - c.prevReported
            && (us != [] && us[|us| - 1].populateOk ==> Sent(end) - end.prevReported < 65536)
    decreases |us|
  {
    if us == [] {
    } else {
      ReportingLag(Updated(c, us[0]), us[1..]);
      var b := Bump(c, us[0].direction, us[0].count);
      var head := if Due(b) && us[0].populateOk then [Sent(b)] else [];
      assert Reports(c, us) == head + Reports(Updated(c, us[0]), us[1..]);
      if head != [] {
        assert (head + Reports(Updated(c, us[0]), us[1..]))[1..] == Reports(Updated(c, us[0]), us[1..]);
      } else {
        assert head + Reports(Updated(c, us[0]), us[1..]) == Reports(Updated(c, us[0]), us[1..]);
      }
    }
  }

  /** The bytes counted in one direction. */
  function CountedIn(us: seq<Update>, d: Direction): int {
    if us == [] then 0 else (if us[0].direction == d then us[0].count else 0) + CountedIn(us[1..], d)
  }

  /** What is sent counts as written, what is received as read, over every sequence of updates. */
  lemma {:induction false} CountedByDirection(c: Counters, us: seq<Update>)
    ensures UpdatedAll(c, us).write == c.write + CountedIn(us, Egress)
    ensures UpdatedAll(c, us).read == c.read + CountedIn(us, Ingress)
    decreases |us|
  {
    if us == [] {
    } else {
      CountedByDirection(Updated(c, us[0]), us[1..]);
    }
  }

  /** Each total lies at least one threshold above its predecessor. */
  predicate Spaced(floor: int, totals: seq<int>)
    decreases |totals|
  {
    totals == [] || (totals[0] >= floor + 65536 && Spaced(totals[0], totals[1..]))
  }

  // ---------------------------------------------------------------------------
  // Calls

  /**
   What the return probes do to the map. `traced` is the process filter; `hasBuffer` says that a data
   call has a buffer, or at least one iovec; `pipelineOk` that its steps before counting succeed;
   `now` is the clock reading the call draws.
   */
  datatype Call =
    | Open(tgid: u32, fd: i32, traced: bool, now: u64, startTicks: u64, role: EndpointRole, address: Address)
    | Data(
        tgid: u32, fd: i32, hasBuffer: bool, traced: bool, now: u64, startTicks: u64, update: Update, pipelineOk: bool)
    | Close(tgid: u32, fd: i32, traced: bool, populateOk: bool)

  type Infos = map<u64, ConnInfo>

  function NewInfo(tgid: u32, fd: i32, now: u64, startTicks: u64): ConnInfo {
    ConnInfo(ConnId(tgid, startTicks, fd, now), RoleUnknown, ZERO, AF_UNKNOWN, 0)
  }

  function CallKey(c: Call): u64 { GenTgidFd(c.tgid, c.fd) }

  /** A call that passes the filters its probe starts with. */
  predicate Admitted(c: Call) { c.traced && c.fd >= 0 && (c.Data? ==> c.hasBuffer && c.update.count > 0) }

  /** The record a data call works on. It is a copy. */
  function InfoFor(m: Infos, c: Call): ConnInfo
    requires c.Data?
  {
    if CallKey(c) in m then m[CallKey(c)] else NewInfo(c.tgid, c.fd, c.now, c.startTicks)
  }

  /** A close that removes its record. */
  predicate Removes(m: Infos, c: Call) {
    c.Close? && Admitted(c) && CallKey(c) in m &&
    var info := m[CallKey(c)];
    (Traced(info.family) || info.counters.write > 0 || info.counters.read > 0 ==> c.populateOk)
  }

  /** A new record under the packed key, over an older one if need be, unless its address cannot be read. */
  function Opened(m: Infos, tgid: u32, fd: i32, now: u64, startTicks: u64, role: EndpointRole, address: Address)
    : Infos
  {
    var info := NewInfo(tgid, fd, now, startTicks).(role := role);
    match address
    case Unreadable => m
    case NoAddress => m[GenTgidFd(tgid, fd) := info]
    case Address(family, peer) => m[GenTgidFd(tgid, fd) := info.(family := family, peer := peer)]
  }

  function After(m: Infos, c: Call): Infos {
    if !Admitted(c) then m
    else
      match c
      case Open(tgid, fd, _, now, start, role, address) => Opened(m, tgid, fd, now, start, role, address)
      case Data(_, _, _, _, _, _, _, _) => m[CallKey(c) := InfoFor(m, c)]
      case Close(_, _, _, _) => if Removes(m, c) then m - {CallKey(c)} else m
  }

  /** A data call gets as far as counting its bytes. */
  predicate Counts(m: Infos, c: Call) {
    c.Data? && Admitted(c) && c.pipelineOk && Traced(InfoFor(m, c).family)
  }

  /** The copy a data call counts in is due for a report. */
  predicate IsDue(m: Infos, c: Call)
    requires c.Data?
  {
    Due(Bump(InfoFor(m, c).counters, c.update.direction, c.update.count))
  }

  function Run(m: Infos, calls: seq<Call>): Infos
    decreases |calls|
  {
    if calls == [] then m else Run(After(m, calls[0]), calls[1..])
  }

  class ConnTable {
    var infos: Infos

    constructor ()
      ensures infos == map[]
    {
      infos := map[];
    }

    method SubmitOpenEvent(tgid: u32, fd: i32, now: u64, startTicks: u64, role: EndpointRole, address: Address)
      returns (r: Result<int>)
      modifies this
      ensures infos == Opened(old(infos), tgid, fd, now, startTicks, role, address)
      ensures r == if address.Unreadable? then Err else Ok(0)
    {
      var info := NewInfo(tgid, fd, now, startTicks);
      info := info.(role := role);
      match address {
        case Unreadable => return Err;
        case Address(family, peer) => info := info.(family := family, peer := peer);
        case NoAddress =>
      }
      infos := infos[GenTgidFd(tgid, fd) := info];
      return Ok(0);
    }

    /** The common part of the accept and connect return probes; `ok` says the system call itself succeeded. */
    method ProcessSyscallOpen(
      tgid: u32, fd: i32, traced: bool, ok: bool, now: u64, startTicks: u64, role: EndpointRole, address: Address)
      returns (r: Result<int>)
      modifies this
      ensures var c := Open(tgid, fd, traced, now, startTicks, role, address);
              && infos == (if ok then After(old(infos), c) else old(infos))
              && r == (if ok && Admitted(c) && address.Unreadable? then Err else Ok(0))
    {
      if !traced || fd < 0 || !ok { return Ok(0); }
      r := SubmitOpenEvent(tgid, fd, now, startTicks, role, address);
    }

    /** The stored record, or a new one that is stored first. Either way the caller gets a copy. */
    method GetOrCreateConnInfo(tgid: u32, fd: i32, now: u64, startTicks: u64) returns (info: ConnInfo)
      modifies this
      ensures GenTgidFd(tgid, fd) in infos && info == infos[GenTgidFd(tgid, fd)]
      ensures GenTgidFd(tgid, fd) in old(infos) ==> infos == old(infos)
      ensures GenTgidFd(tgid, fd) !in old(infos) ==>
                infos == old(infos)[GenTgidFd(tgid, fd) := NewInfo(tgid, fd, now, startTicks)]
    {
      var key := GenTgidFd(tgid, fd);
      var fresh' := NewInfo(tgid, fd, now, startTicks);
      if key in infos { return infos[key]; }
      infos := infos[key := fresh'];
      return fresh';
    }

    /** The counting half of `process_data`: the counters change in the caller's copy only. */
    method ProcessData(
      tgid: u32, fd: i32, hasBuffer: bool, traced: bool, now: u64, startTicks: u64, u: Update, pipelineOk: bool)
      returns (r: Result<int>, report: Option<int>)
      modifies this
      ensures var c := Data(tgid, fd, hasBuffer, traced, now, startTicks, u, pipelineOk);
              && infos == After(old(infos), c)
              && (report.Some? <==> Counts(old(infos), c) && IsDue(old(infos), c) && u.populateOk)
              && (r.Err? <==>
                  && Admitted(c) && Traced(InfoFor(old(infos), c).family)
                  && (!pipelineOk || (IsDue(old(infos), c) && !u.populateOk)))
    {
      if !hasBuffer { return Ok(0), None; }
      if fd < 0 || u.count <= 0 || !traced { return Ok(0), None; }
      var info := GetOrCreateConnInfo(tgid, fd, now, startTicks);
      assert infos == infos[GenTgidFd(tgid, fd) := info];
      if !Traced(info.family) { return Ok(0), None; }
      if !pipelineOk { return Err, None; }
      var copy := new Record(info.counters);
      r, report := copy.UpdateConnStats(u.direction, u.count, u.populateOk);
    }

    method ProcessSyscallClose(tgid: u32, fd: i32, traced: bool, retval: i32, populateOk: bool) returns (r: Result<int>)
      modifies this
      ensures var c := Close(tgid, fd, traced, populateOk);
              && infos == (if retval >= 0 then After(old(infos), c) else old(infos))
              && r == (if retval < 0 || !Admitted(c) || Removes(old(infos), c) then Ok(0) else Err)
    {
      if fd < 0 { return Ok(0); }
      if retval < 0 { return Ok(0); }
      if !traced { return Ok(0); }
      var key := GenTgidFd(tgid, fd);
      if key !in infos { return Err; }
      var info := infos[key];
      if Traced(info.family) || info.counters.write > 0 || info.counters.read > 0 {
        if !populateOk { return Err; }
      }
      infos := infos - {key};
      return Ok(0);
    }
  }

  // ---------------------------------------------------------------------------
  // What every call keeps

  /** Each record sits under the key its own id packs to, with a valid descriptor. */
  ghost predicate KeysAgree(m: Infos) {
    forall k :: k in m ==> m[k].id.fd >= 0 && GenTgidFd(m[k].id.tgid, m[k].id.fd) == k
  }

  /** No stored record has ever counted a byte. */
  ghost predicate Uncounted(m: Infos) { forall k :: k in m ==> m[k].counters == ZERO }

  lemma {:induction false} RunKeeps(m: Infos, calls: seq<Call>)
    requires KeysAgree(m) && Uncounted(m)
    ensures KeysAgree(Run(m, calls)) && Uncounted(Run(m, calls))
    decreases |calls|
  {
    if calls == [] {
    } else {
      RunKeeps(After(m, calls[0]), calls[1..]);
    }
  }

  /** Packed-key agreement: in every reachable state a record is found under exactly its own process and descriptor. */
  lemma KeyAgreement(calls: seq<Call>, tgid: u32, fd: i32)
    requires fd >= 0 && GenTgidFd(tgid, fd) in Run(map[], calls)
    ensures var id := Run(map[], calls)[GenTgidFd(tgid, fd)].id; id.tgid == tgid && id.fd == fd
  {
    RunKeeps(map[], calls);
    var id := Run(map[], calls)[GenTgidFd(tgid, fd)].id;
    PackingCollides(id.tgid, id.fd, tgid, fd);
  }

  /** A call of a process that is not traced, or on an invalid descriptor, changes nothing. */
  lemma {:induction false} OnlyTraced(m: Infos, c: Call)
    requires !c.traced || c.fd < 0
    ensures After(m, c) == m
  {
  }

  /**
   A connection from its open over any calls on other descriptors: its record has the process, the
   descriptor, the role and the address it was opened with, and nothing counted.
   */
  lemma {:induction false} OpenedStays(m: Infos, open: Call, calls: seq<Call>)
    requires KeysAgree(m) && Uncounted(m)
    requires open.Open? && open.traced && open.fd >= 0 && !open.address.Unreadable?
    requires forall c :: c in calls && c.fd >= 0 ==> (c.tgid, c.fd) != (open.tgid, open.fd)
    ensures var m' := Run(After(m, open), calls);
            && CallKey(open) in m'
            && m'[CallKey(open)] ==
               ConnInfo(ConnId(open.tgid, open.startTicks, open.fd, open.now), open.role, Counters(0, 0, 0),
                        if open.address.Address? then open.address.family else 0xff,
                        if open.address.Address? then open.address.peer else 0)
  {
    OthersLeave(After(m, open), calls, open.tgid, open.fd);
  }

  /** An open whose address cannot be read leaves the map as it was, and with it an older record. */
  lemma {:induction false} UnreadableOpensNothing(m: Infos, open: Call)
    requires open.Open? && open.address.Unreadable?
    ensures After(m, open) == m
  {
  }

  /** Data on a connection nobody opened makes a record of unknown role and family; a record there is left alone. */
  lemma {:induction false} DataMakesUnknown(m: Infos, c: Call)
    requires c.Data? && Admitted(c)
    ensures CallKey(c) in m ==> After(m, c) == m
    ensures CallKey(c) !in m ==>
              After(m, c) == m[CallKey(c) := ConnInfo(ConnId(c.tgid, c.startTicks, c.fd, c.now), RoleUnknown,
                                                      Counters(0, 0, 0), 0xff, 0)]
  {
  }

  /** Calls on other descriptors leave a record alone. */
  lemma {:induction false} OthersLeave(m: Infos, calls: seq<Call>, tgid: u32, fd: i32)
    requires fd >= 0 && GenTgidFd(tgid, fd) in m
    requires forall c :: c in calls && c.fd >= 0 ==> (c.tgid, c.fd) != (tgid, fd)
    ensures GenTgidFd(tgid, fd) in Run(m, calls) && Run(m, calls)[GenTgidFd(tgid, fd)] == m[GenTgidFd(tgid, fd)]
    decreases |calls|
  {
    if calls == [] {
    } else {
      var c := calls[0];
      if c.fd >= 0 {
        assert c in calls;
        PackingCollides(c.tgid, c.fd, tgid, fd);
      }
      OthersLeave(After(m, c), calls[1..], tgid, fd);
    }
  }

  /**
   In every reachable state a traced close removes its record, if there is one, unless the record has
   one of the three traced families and the final report cannot be built.
   */
  lemma {:induction false} CloseRemoves(calls: seq<Call>, c: Call)
    requires c.Close? && c.traced && c.fd >= 0 && CallKey(c) in Run(map[], calls)
    ensures var m := Run(map[], calls);
            CallKey(c) !in After(m, c) <==> m[CallKey(c)].family !in {0xff, 2, 10} || c.populateOk
  {
    RunKeeps(map[], calls);
  }

  /** A data call counts exactly for a traced process, with a buffer, bytes, and one of the three families. */
  lemma {:induction false} CountsExactly(m: Infos, c: Call)
    requires c.Data?
    ensures Counts(m, c) <==>
            && c.traced && c.hasBuffer && c.fd >= 0 && c.update.count > 0 && c.pipelineOk
            && (CallKey(c) in m ==> m[CallKey(c)].family in {0xff, 2, 10})
  {
  }

  /**
   Because a data call counts in a copy, the counters of a stored record stay zero in every
   reachable state. So every call starts its data events at position zero, and reports if and only
   if it moves 65536 bytes all by itself, whatever went before it on the connection.
   */
  lemma ReportsNeedOneLargeCall(calls: seq<Call>, c: Call)
    requires Counts(Run(map[], calls), c)
    ensures InfoFor(Run(map[], calls), c).counters == ZERO
    ensures IsDue(Run(map[], calls), c) <==> c.update.count >= 65536
  {
    RunKeeps(map[], calls);
  }

  // ---------------------------------------------------------------------------
  // Incarnations

  /** The clock readings of the run lie above `t` and rise strictly. */
  ghost predicate Rising(t: int, calls: seq<Call>)
    decreases |calls|
  {
    || calls == []
    || (if calls[0].Close? then Rising(t, calls[1..]) else calls[0].now > t && Rising(calls[0].now, calls[1..]))
  }

  /** The last clock reading of a run. */
  function LastClock(t: int, calls: seq<Call>): int
    decreases |calls|
  {
    if calls == [] then t else LastClock(if calls[0].Close? then t else calls[0].now, calls[1..])
  }

  lemma {:induction false} OldIds(m: Infos, t: int, calls: seq<Call>)
    requires Rising(t, calls)
    requires forall k :: k in m ==> m[k].id.tsid <= t
    ensures forall k :: k in Run(m, calls) ==> Run(m, calls)[k].id.tsid <= LastClock(t, calls)
    decreases |calls|
  {
    if calls == [] {
    } else {
      var t' := if calls[0].Close? then t else calls[0].now;
      OldIds(After(m, calls[0]), t', calls[1..]);
    }
  }

  lemma {:induction false} NewIds(m: Infos, t: int, floor: int, calls: seq<Call>, key: u64)
    requires Rising(t, calls) && floor <= t
    requires key in m ==> m[key].id.tsid > floor
    ensures key in Run(m, calls) ==> Run(m, calls)[key].id.tsid > floor
    decreases |calls|
  {
    if calls == [] {
    } else {
      var t' := if calls[0].Close? then t else calls[0].now;
      NewIds(After(m, calls[0]), t', floor, calls[1..], key);
    }
  }

  /**
   Two incarnations of one (process, descriptor), separated by a close that removed the first,
   never share a connection id.
   */
  lemma IncarnationsDiffer(before: seq<Call>, close: Call, after: seq<Call>)
    requires Removes(Run(map[], before), close)
    requires Rising(-1, before) && Rising(LastClock(-1, before), after)
    requires CallKey(close) in Run(After(Run(map[], before), close), after)
    ensures Run(map[], before)[CallKey(close)].id != Run(After(Run(map[], before), close), after)[CallKey(close)].id
  {
    var m := Run(map[], before);
    OldIds(map[], -1, before);
    NewIds(After(m, close), LastClock(-1, before), LastClock(-1, before), after, CallKey(close));
  }
}
