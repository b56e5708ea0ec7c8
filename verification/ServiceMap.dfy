/**
 The user side of the service map: `ServiceMap` in the agent. Each poll adds up the bytes of the
 connections now open per pair of workloads, and moves the bytes of finished ones into a running
 total of its own.

 `Credit` is the reference: a running total plus, for every entry of a map, its bytes under the
 pair the entry resolves to. It mentions no iteration order. Class `ServiceMap` is the program.
 */
module ServiceMap {
  import opened Common
  import opened Sums
  import opened ConnTracer
  import Decimal

  datatype Connection = Connection(client: Workload, server: Workload, role: u32, serverPort: u32)

  /** The content of the `CONNECTIONS` map. */
  type Entries = map<ConnectionKey, ConnectionStats>

  type Totals = map<Connection, nat>

  /** Workloads by address text. */
  type IpIndex = map<string, Workload>

  function ResolveIp(ip: u32, idx: IpIndex): Option<Workload> {
    var text := Decimal.Ipv4String(ip);
    if text in idx then Some(idx[text]) else None
  }

  /**
   The pair a key belongs to; none when an address is unknown or the role is. The two addresses are
   looked up one after the other, in whatever the index holds then.
   */
  function BuildConnection(key: ConnectionKey, srcIdx: IpIndex, destIdx: IpIndex): Option<Connection> {
    match (ResolveIp(key.srcAddr, srcIdx), ResolveIp(key.destAddr, destIdx))
    case (Some(src), Some(dest)) =>
      if key.role == ROLE_CLIENT then Some(Connection(src, dest, key.role, key.destPort))
      else if key.role == ROLE_SERVER then Some(Connection(dest, src, key.role, key.srcPort))
      else None
    case _ => None
  }

  /** The same TCP connection as the other end sees it. */
  function OtherEnd(key: ConnectionKey): ConnectionKey {
    key.(srcAddr := key.destAddr, srcPort := key.destPort, destAddr := key.srcAddr, destPort := key.srcPort,
         role := if key.role == ROLE_CLIENT then ROLE_SERVER
                 else if key.role == ROLE_SERVER then ROLE_CLIENT
                 else key.role)
  }

  /** Both ends of a connection resolve to the same client, server and server port; only the role tells them apart. */
  lemma EndsAgree(key: ConnectionKey, srcIdx: IpIndex, destIdx: IpIndex)
    ensures match (BuildConnection(key, srcIdx, destIdx), BuildConnection(OtherEnd(key), destIdx, srcIdx))
            case (Some(a), Some(b)) => b == a.(role := b.role) && a.role != b.role && a.role == key.role
            case (None, None) => true
            case _ => false
  {
  }

  /**
   The pair of a key, spelled out: role 1 makes the source the client and the destination port the
   server's, role 2 the other way round, and any other role or an unknown address resolves to nothing.
   */
  lemma {:induction false} PairOfKey(key: ConnectionKey, srcIdx: IpIndex, destIdx: IpIndex)
    ensures var (src, dest) := (Decimal.Ipv4String(key.srcAddr), Decimal.Ipv4String(key.destAddr));
            BuildConnection(key, srcIdx, destIdx) ==
            if src !in srcIdx || dest !in destIdx then None
            else if key.role == 1 then Some(Connection(srcIdx[src], destIdx[dest], 1, key.destPort))
            else if key.role == 2 then Some(Connection(destIdx[dest], srcIdx[src], 2, key.srcPort))
            else None
  {
  }

  /** How keys resolve to pairs. */
  type Resolver = ConnectionKey -> Option<Connection>

  /**
   The index is shared with the watchers and may change between any two lookups. `Lookups` says
   what it holds when the source and when the destination of a key are looked up.
   */
  type Lookups = ConnectionKey -> (IpIndex, IpIndex)

  function ResolverOf(at: Lookups): Resolver { key => BuildConnection(key, at(key).0, at(key).1) }

  /** An index that does not change. */
  function Steady(idx: IpIndex): Lookups { _ => (idx, idx) }

  /** Loopback as in section 3.2.1.3 of RFC 1122: network 127. */
  predicate Loopback(addr: u32) { addr / 0x100_0000 == 127 }

  /** The loopback addresses are those whose dotted form starts with 127. */
  lemma LoopbackText(addr: u32)
    ensures Loopback(addr) <==> "127." <= Decimal.Ipv4String(addr)
  {
    var o := Decimal.Octets(addr);
    var rest := Decimal.Print(o.1) + "." + (Decimal.Print(o.2) + "." + Decimal.Print(o.3));
    var text := Decimal.Print(o.0) + "." + rest;
    assert Decimal.Print(127) == "127" by {
      assert Decimal.Print(1) == "1" && Decimal.Print(12) == "12";
    }
    Decimal.RoundTrip(o.0);
    if "127." <= text {
      Decimal.SplitAtDot(Decimal.Print(o.0), "127", rest, text[4..]);
      Decimal.PrintInjective(o.0, 127);
    }
  }

  /** An entry a poll reports as open traffic. */
  predicate Eligible(key: ConnectionKey, s: ConnectionStats) {
    Active(s) && key.srcAddr != key.destAddr && !Loopback(key.destAddr) && key.role != ROLE_UNKNOWN
  }

  function OpenOf(m: Entries): Entries { map k | k in m && Eligible(k, m[k]) :: m[k] }

  function ActiveOf(m: Entries): Entries { map k | k in m && Active(m[k]) :: m[k] }

  function InactiveOf(m: Entries): Entries { map k | k in m && !Active(m[k]) :: m[k] }

  // ---------------------------------------------------------------------------
  // Totals per pair

  function Total(m: Totals, c: Connection): nat { if c in m then m[c] else 0 }

  /** `entry(c).and_modify(+n).or_insert(n)`, skipped when the pair is unknown. */
  function Add(m: Totals, c: Option<Connection>, n: nat): Totals {
    match c
    case Some(conn) => m[conn := Total(m, conn) + n]
    case None => m
  }

  /** The bytes of the entries that resolve to one pair. */
  ghost function BytesOf(m: Entries, r: Resolver, c: Connection): map<ConnectionKey, nat> {
    map k | k in m && r(k) == Some(c) :: m[k].bytesSent
  }

  ghost function Pairs(m: Entries, r: Resolver): set<Connection> {
    set k | k in m && r(k).Some? :: r(k).value
  }

  ghost function Credit(base: Totals, m: Entries, r: Resolver): Totals {
    map c | c in base.Keys + Pairs(m, r) :: Total(base, c) + Sum(BytesOf(m, r, c))
  }

  lemma CreditTotal(base: Totals, m: Entries, r: Resolver, c: Connection)
    ensures Total(Credit(base, m, r), c) == Total(base, c) + Sum(BytesOf(m, r, c))
  {
    if c !in base.Keys + Pairs(m, r) {
      assert forall k :: k in m && r(k).Some? ==> r(k).value in Pairs(m, r);
      assert BytesOf(m, r, c) == map[];
    }
  }

  lemma CreditNothing(base: Totals, r: Resolver)
    ensures Credit(base, map[], r) == base
  {
    assert Pairs(map[], r) == {};
    forall c | c in base ensures Credit(base, map[], r)[c] == base[c] {
      assert BytesOf(map[], r, c) == map[];
    }
  }

  /** One more entry is one more addition. */
  lemma BytesOfInsert(m: Entries, k: ConnectionKey, s: ConnectionStats, r: Resolver, c: Connection)
    requires k !in m
    ensures Sum(BytesOf(m[k := s], r, c)) ==
            Sum(BytesOf(m, r, c)) + if r(k) == Some(c) then s.bytesSent else 0
  {
    if r(k) == Some(c) {
      assert BytesOf(m[k := s], r, c) == BytesOf(m, r, c)[k := s.bytesSent];
      SumSet(BytesOf(m, r, c), k, s.bytesSent);
    } else {
      assert BytesOf(m[k := s], r, c) == BytesOf(m, r, c);
    }
  }

  lemma PairsInsert(m: Entries, k: ConnectionKey, s: ConnectionStats, r: Resolver)
    ensures Pairs(m[k := s], r) == Pairs(m, r) + if r(k).Some? then {r(k).value} else {}
  {
    forall p | p in Pairs(m, r) ensures p in Pairs(m[k := s], r) {
      var j :| j in m && r(j) == Some(p);
      assert j in m[k := s];
    }
    if r(k).Some? { assert k in m[k := s]; }
  }

  lemma CreditInsert(base: Totals, m: Entries, k: ConnectionKey, s: ConnectionStats, r: Resolver)
    requires k !in m
    ensures Credit(base, m[k := s], r) == Add(Credit(base, m, r), r(k), s.bytesSent)
  {
    PairsInsert(m, k, s, r);
    forall p ensures Total(Credit(base, m[k := s], r), p) == Total(Add(Credit(base, m, r), r(k), s.bytesSent), p) {
      BytesOfInsert(m, k, s, r, p);
      CreditTotal(base, m, r, p);
      CreditTotal(base, m[k := s], r, p);
    }
    SameTotals(Credit(base, m[k := s], r), Add(Credit(base, m, r), r(k), s.bytesSent));
  }

  /** Crediting entries on their own and then adding the base is crediting them to the base. */
  lemma CreditFrom(base: Totals, m: Entries, r: Resolver, alone: Totals, merged: Totals)
    requires alone == Credit(map[], m, r)
    requires merged.Keys == alone.Keys + base.Keys
    requires forall c :: c in merged ==> merged[c] == Total(alone, c) + Total(base, c)
    ensures merged == Credit(base, m, r)
  {
    forall c ensures Total(merged, c) == Total(Credit(base, m, r), c) {
      CreditTotal(map[], m, r, c);
      CreditTotal(base, m, r, c);
    }
    SameTotals(merged, Credit(base, m, r));
  }

  lemma SameTotals(a: Totals, b: Totals)
    requires a.Keys == b.Keys
    requires forall c :: Total(a, c) == Total(b, c)
    ensures a == b
  {
    forall c | c in a ensures a[c] == b[c] {
      assert Total(a, c) == Total(b, c);
    }
  }

  // ---------------------------------------------------------------------------
  // What an answer consists of

  /** What a poll answers. */
  ghost function PollAnswer(past: Totals, m: Entries, r: Resolver): Totals { Credit(past, OpenOf(m), r) }

  /** The running total a poll leaves behind. */
  ghost function PollPast(past: Totals, m: Entries, r: Resolver): Totals { Credit(past, InactiveOf(m), r) }

  /** The bytes an answer adds to the running total of a pair, spelled out in terms of the entries. */
  ghost function ShownBytes(m: Entries, r: Resolver, c: Connection): map<ConnectionKey, nat> {
    map k | && k in m && m[k].isActive == 1 && k.srcAddr != k.destAddr && k.role != 0
            && !("127." <= Decimal.Ipv4String(k.destAddr)) && r(k) == Some(c) :: m[k].bytesSent
  }

  /** The bytes a poll folds for a pair, spelled out: of all entries that are not active, filtered or not. */
  ghost function FoldedBytes(m: Entries, r: Resolver, c: Connection): map<ConnectionKey, nat> {
    map k | k in m && m[k].isActive != 1 && r(k) == Some(c) :: m[k].bytesSent
  }

  /** What a poll answers, folds and keeps, for every running total, map and pair. */
  lemma {:induction false} PollSpelledOut(past: Totals, m: Entries, r: Resolver, c: Connection)
    ensures Total(PollAnswer(past, m, r), c) == Total(past, c) + Sum(ShownBytes(m, r, c))
    ensures Total(PollPast(past, m, r), c) == Total(past, c) + Sum(FoldedBytes(m, r, c))
    ensures forall k :: k in ActiveOf(m) <==> k in m && m[k].isActive == 1
  {
    forall k | k in m ensures Loopback(k.destAddr) <==> "127." <= Decimal.Ipv4String(k.destAddr) {
      LoopbackText(k.destAddr);
    }
    assert ShownBytes(m, r, c) == BytesOf(OpenOf(m), r, c);
    assert FoldedBytes(m, r, c) == BytesOf(InactiveOf(m), r, c);
    CreditTotal(past, OpenOf(m), r, c);
    CreditTotal(past, InactiveOf(m), r, c);
  }

  /** A connection that the filter leaves out: to itself or to a loopback address. */
  predicate Local(k: ConnectionKey) { k.srcAddr == k.destAddr || "127." <= Decimal.Ipv4String(k.destAddr) }

  /**
   The filter is for active entries only: a local connection adds nothing to an answer while it is
   active, and all its bytes to the running total once it is inactive.
   */
  lemma {:induction false} LocalCountsOnceInactive(
    past: Totals, m: Entries, k: ConnectionKey, s: ConnectionStats, r: Resolver, c: Connection)
    requires Local(k) && k !in m
    ensures s.isActive == 1 ==> Total(PollAnswer(past, m[k := s], r), c) == Total(PollAnswer(past, m, r), c)
    ensures s.isActive != 1 ==>
              Total(PollPast(past, m[k := s], r), c) ==
              Total(PollPast(past, m, r), c) + if r(k) == Some(c) then s.bytesSent else 0
  {
    LoopbackText(k.destAddr);
    if s.isActive == 1 {
      assert OpenOf(m[k := s]) == OpenOf(m);
    } else {
      assert InactiveOf(m[k := s]) == InactiveOf(m)[k := s];
      BytesOfInsert(InactiveOf(m), k, s, r, c);
      CreditTotal(past, InactiveOf(m), r, c);
      CreditTotal(past, InactiveOf(m[k := s]), r, c);
    }
  }

  // ---------------------------------------------------------------------------
  // Polling a quiet map

  /**
   Three polls of a quiet map: the first leaves out what it folds; the second differs from it by
   exactly the inactive bytes; the third equals the second, and stays so.
   */
  lemma QuietPolls(past: Totals, m: Entries, r: Resolver, c: Connection)
    ensures var past', m' := PollPast(past, m, r), ActiveOf(m);
            && Total(PollAnswer(past', m', r), c)
               == Total(PollAnswer(past, m, r), c) + Sum(BytesOf(InactiveOf(m), r, c))
            && PollPast(past', m', r) == past' && ActiveOf(m') == m'
            && PollAnswer(PollPast(past', m', r), ActiveOf(m'), r) == PollAnswer(past', m', r)
  {
    var past', m' := PollPast(past, m, r), ActiveOf(m);
    assert OpenOf(m') == OpenOf(m) && InactiveOf(m') == map[] && ActiveOf(m') == m';
    CreditNothing(past', r);
    CreditTotal(past', OpenOf(m), r, c);
    CreditTotal(past, OpenOf(m), r, c);
    CreditTotal(past, InactiveOf(m), r, c);
  }

  // ---------------------------------------------------------------------------
  // Answers that fall

  /** When an open connection goes inactive, the next answer for its pair drops by all the bytes it showed. */
  lemma {:induction false} AnswerDrops(
    past: Totals, m: Entries, k: ConnectionKey, s: ConnectionStats, r: Resolver, c: Connection)
    requires k in m && Eligible(k, m[k]) && !Active(s)
    ensures Total(PollAnswer(past, m, r), c) ==
            Total(PollAnswer(past, m[k := s], r), c) + if r(k) == Some(c) then m[k].bytesSent else 0
  {
    var rest := OpenOf(m[k := s]);
    assert OpenOf(m) == rest[k := m[k]];
    BytesOfInsert(rest, k, m[k], r, c);
    CreditTotal(past, OpenOf(m), r, c);
    CreditTotal(past, rest, r, c);
  }

  /** Entries that were open in `m` and are not in `m'`. */
  function NoLongerOpen(m: Entries, m': Entries): Entries { map k | k in OpenOf(m) && k !in OpenOf(m') :: m[k] }

  /** Connections open in both maps have not lost bytes from the one to the other. */
  ghost predicate NoneShrinks(m: Entries, m': Entries) {
    forall k :: k in OpenOf(m) && k in OpenOf(m') ==> m[k].bytesSent <= m'[k].bytesSent
  }

  /** What the connections of a pair open in `m'` have sent beyond what they showed in `m`. */
  ghost function Gains(m: Entries, m': Entries, r: Resolver, c: Connection): map<ConnectionKey, nat>
    requires NoneShrinks(m, m')
  {
    map k | k in OpenOf(m') && r(k) == Some(c) ::
      if k in OpenOf(m) then m'[k].bytesSent - m[k].bytesSent else m'[k].bytesSent
  }

  lemma {:induction false} OpenBytes(m: Entries, m': Entries, r: Resolver, c: Connection)
    requires NoneShrinks(m, m')
    ensures Sum(BytesOf(OpenOf(m'), r, c)) + Sum(BytesOf(NoLongerOpen(m, m'), r, c)) ==
            Sum(BytesOf(OpenOf(m), r, c)) + Sum(Gains(m, m', r, c))
  {
    var now, gone := BytesOf(OpenOf(m'), r, c), BytesOf(NoLongerOpen(m, m'), r, c);
    var before, gains := BytesOf(OpenOf(m), r, c), Gains(m, m', r, c);
    assert now.Keys + gone.Keys == before.Keys + gains.Keys;
    forall k | k in now.Keys + gone.Keys ensures At(now, k) + At(gone, k) == At(before, k) + At(gains, k) {
      assert k in OpenOf(m) || k in OpenOf(m');
    }
    SumsAgree2(now, gone, before, gains);
  }

  /**
   Two successive polls, with the map going from what the first left to `m'` in between: the second
   answer for a pair is the smaller one if and only if the connections no longer open had shown more
   bytes than the first poll folded and the open ones have gained since.
   */
  lemma {:induction false} AnswersFall(past: Totals, m: Entries, m': Entries, r: Resolver, c: Connection)
    requires NoneShrinks(m, m')
    ensures Total(PollAnswer(PollPast(past, m, r), m', r), c) < Total(PollAnswer(past, m, r), c) <==>
            Sum(BytesOf(NoLongerOpen(m, m'), r, c)) > Sum(BytesOf(InactiveOf(m), r, c)) + Sum(Gains(m, m', r, c))
  {
    OpenBytes(m, m', r, c);
    CreditTotal(past, OpenOf(m), r, c);
    CreditTotal(past, InactiveOf(m), r, c);
    CreditTotal(PollPast(past, m, r), OpenOf(m'), r, c);
  }

  /** One connection, and it closes: its bytes vanish from the next answer and are back in the one after. */
  lemma {:induction false} CloseVanishes(
    k: ConnectionKey, s: ConnectionStats, s': ConnectionStats, r: Resolver, c: Connection)
    requires Eligible(k, s) && !Active(s') && r(k) == Some(c)
    ensures var (m, m') := (map[k := s], map[k := s']);
            var past := PollPast(map[], m, r);
            && Total(PollAnswer(map[], m, r), c) == s.bytesSent
            && Total(PollAnswer(past, m', r), c) == 0
            && Total(PollAnswer(PollPast(past, m', r), ActiveOf(m'), r), c) == s'.bytesSent
  {
    var m, m': Entries := map[k := s], map[k := s'];
    assert OpenOf(m) == m && InactiveOf(m) == map[];
    assert OpenOf(m') == map[] && InactiveOf(m') == m' && OpenOf(ActiveOf(m')) == map[];
    CreditNothing(map[], r);
    OneEntry(k, s, r, c);
    OneEntry(k, s', r, c);
    CreditNothing(PollPast(map[], m', r), r);
  }

  lemma {:induction false} OneEntry(k: ConnectionKey, s: ConnectionStats, r: Resolver, c: Connection)
    requires r(k) == Some(c)
    ensures Total(Credit(map[], map[k := s], r), c) == s.bytesSent
  {
    CreditInsert(map[], map[], k, s, r);
    CreditNothing(map[], r);
    assert map[][k := s] == map[k := s];
  }

  // ---------------------------------------------------------------------------
  // The program

  datatype ProgramState = Uninitialized | Initialized | Running | Stopped | Failed

  /** A cache manager; the IP index it serves is shared and not part of the program's state. */
  type CacheHandle = nat

  /** The state behind the program's lock. */
  datatype Inner = Inner(
    state: ProgramState,
    ebpfMaps: map<string, u32>,
    metadata: map<string, string>,
    current: Option<Entries>,
    past: Totals,
    cacheMgr: Option<CacheHandle>)

  const FRESH: Inner := Inner(Uninitialized, map[], map[], None, map[], None)

  /** `reset` forgets the maps, the metadata and the totals; the state and the cache manager stay. */
  function Cleared(i: Inner): Inner {
    i.(current := None, past := map[], metadata := map[], ebpfMaps := map[])
  }

  /** `init`, given what opening the pinned map yields. It fills three fields before it can fail. */
  function Opened(
    i: Inner, metadata: map<string, string>, mgr: CacheHandle, maps: map<string, u32>, pin: Option<Entries>)
    : (Inner, bool)
  {
    var filled := i.(ebpfMaps := maps, metadata := metadata, cacheMgr := Some(mgr));
    if "CONNECTIONS" in maps && pin.Some? then (filled.(current := pin), true) else (filled, false)
  }

  datatype Snapshot = Snapshot(conns: Totals, stale: seq<ConnectionKey>)

  function Picked(m: Entries, keys: seq<ConnectionKey>): Entries { map k | k in m && k in keys :: m[k] }

  function Without(m: Entries, keys: seq<ConnectionKey>): Entries { map k | k in m && k !in keys :: m[k] }

  /** Folding one more key: it counts when it is still there, that is, the first time only. */
  lemma FoldOneMore(base: Totals, m: Entries, done: seq<ConnectionKey>, key: ConnectionKey, r: Resolver)
    ensures Without(m, done + [key]) == Without(m, done) - {key}
    ensures Credit(base, Picked(m, done + [key]), r) ==
            if key in Without(m, done) then Add(Credit(base, Picked(m, done), r), r(key), m[key].bytesSent)
            else Credit(base, Picked(m, done), r)
  {
    if key in Without(m, done) {
      CreditInsert(base, Picked(m, done), key, m[key], r);
      assert Picked(m, done + [key]) == Picked(m, done)[key := m[key]];
    } else {
      assert Picked(m, done + [key]) == Picked(m, done);
    }
  }

  class ServiceMap {
    var state: ProgramState
    var ebpfMaps: map<string, u32>
    var metadata: map<string, string>
    var current: Option<Entries>
    var past: Totals
    var cacheMgr: Option<CacheHandle>

    ghost function View(): Inner reads this { Inner(state, ebpfMaps, metadata, current, past, cacheMgr) }

    constructor ()
      ensures View() == FRESH
    {
      state, ebpfMaps, metadata, current, past, cacheMgr := Uninitialized, map[], map[], None, map[], None;
    }

    method Reset()
      modifies this
      ensures View() == Cleared(old(View()))
    {
      current := None;
      past := map[];
      metadata := map[];
      ebpfMaps := map[];
    }

    method Init(meta: map<string, string>, mgr: CacheHandle, maps: map<string, u32>, pin: Option<Entries>)
      returns (r: Result<()>)
      modifies this
      ensures (View(), r.Ok?) == Opened(old(View()), meta, mgr, maps, pin)
      ensures r.Ok? <==> "CONNECTIONS" in maps && pin.Some?
      ensures ebpfMaps == maps && metadata == meta && cacheMgr == Some(mgr) && past == old(past)
      ensures current == if r.Ok? then pin else old(current)
    {
      ebpfMaps := maps;
      metadata := meta;
      cacheMgr := Some(mgr);
      if "CONNECTIONS" !in maps { return Err; }
      if pin.None? { return Err; }
      current := pin;
      return Ok(());
    }

    /**
     The first half of a poll, under the read lock. `broken` holds the keys whose read fails while
     the map is walked, in whatever order the walk goes; `at` is what the lookups find meanwhile.
     */
    method TakeSnapshot(broken: set<ConnectionKey>, at: Lookups) returns (r: Result<Snapshot>)
      ensures r.Ok? <==> current.Some? && cacheMgr.Some? && broken !! current.value.Keys
      ensures r.Ok? ==>
                && r.value.conns == PollAnswer(past, current.value, ResolverOf(at))
                && (forall k :: k in r.value.stale <==> k in InactiveOf(current.value))
    {
      if current.None? || cacheMgr.None? { return Err; }
      var m := current.value;
      ghost var pairOf := ResolverOf(at);
      var stale: seq<ConnectionKey> := [];
      var conns: Totals := map[];
      var todo := m.Keys;
      ghost var open: Entries := map[];
      CreditNothing(map[], pairOf);
      while todo != {}
        invariant todo <= m.Keys
        invariant broken !! m.Keys - todo
        invariant forall k :: k in stale <==> k in m && k !in todo && !Active(m[k])
        invariant open == map k | k in OpenOf(m) && k !in todo :: m[k]
        invariant conns == Credit(map[], open, pairOf)
        decreases todo
      {
        var key :| key in todo;
        todo := todo - {key};
        if key in broken { return Err; }
        var stats := m[key];
        if stats.isActive != 1 {
          stale := stale + [key];
          continue;
        }
        if key.srcAddr == key.destAddr || Loopback(key.destAddr) { continue; }
        if key.role == ROLE_UNKNOWN { continue; }
        CreditInsert(map[], open, key, stats, pairOf);
        open := open[key := stats];
        conns := Add(conns, BuildConnection(key, at(key).0, at(key).1), stats.bytesSent);
      }
      assert open == OpenOf(m);
      var merged := MergePast(conns);
      CreditFrom(past, OpenOf(m), pairOf, conns, merged);
      return Ok(Snapshot(merged, stale));
    }

    /** Opening and the first look: a program that opens answers with what its map holds. */
    method OpenAndLook(
      meta: map<string, string>, mgr: CacheHandle, maps: map<string, u32>, pin: Option<Entries>, at: Lookups)
      returns (r: Result<Snapshot>)
      modifies this
      ensures "CONNECTIONS" in maps && pin.Some? ==>
                r.Ok? && r.value.conns == PollAnswer(old(past), pin.value, ResolverOf(at))
    {
      var init := Init(meta, mgr, maps, pin);
      if init.Err? { return Err; }
      r := TakeSnapshot({}, at);
    }

    /** Adding the running total to what the walk collected. */
    method MergePast(conns: Totals) returns (merged: Totals)
      ensures merged.Keys == conns.Keys + past.Keys
      ensures forall c :: c in merged ==> merged[c] == Total(conns, c) + Total(past, c)
    {
      var base := past;
      merged := conns;
      var todo := base.Keys;
      while todo != {}
        invariant todo <= base.Keys
        invariant forall c :: c in merged <==> c in conns || (c in base && c !in todo)
        invariant forall c :: c in merged && c in todo ==> merged[c] == Total(conns, c)
        invariant forall c :: c in merged && c !in todo ==> merged[c] == Total(conns, c) + Total(base, c)
        decreases todo
      {
        var conn :| conn in todo;
        todo := todo - {conn};
        merged := merged[conn := Total(merged, conn) + base[conn]];
      }
    }

    /** Folding one key. A key that is gone is an error, and nothing moves; without the map the `unwrap` panics. */
    method HandleInactiveConnection(key: ConnectionKey, at: Lookups) returns (o: Outcome<Result<()>>)
      modifies this`current, this`past
      ensures o.Panicked? <==> old(current).None?
      ensures old(current).None? ==> current == old(current) && past == old(past)
      ensures old(current).Some? ==>
                && current == Some(old(current.value) - {key})
                && past == (if key in old(current.value)
                            then Add(old(past), ResolverOf(at)(key), old(current.value[key].bytesSent))
                            else old(past))
                && o == Returned(if key in old(current.value) && ResolverOf(at)(key).Some? then Ok(()) else Err)
    {
      if current.None? { return Panicked; }
      var throughput := if key in current.value then current.value[key].bytesSent else 0;
      if key !in current.value {
        assert current.value == current.value - {key};
        return Returned(Err);
      }
      current := Some(current.value - {key});
      var connection := BuildConnection(key, at(key).0, at(key).1);
      if connection.None? { return Returned(Err); }
      past := past[connection.value := Total(past, connection.value) + throughput];
      return Returned(Ok(()));
    }

    /** The second half of a poll, under the write lock. A reset in between makes the first `unwrap` panic. */
    method FoldInactive(stale: seq<ConnectionKey>, at: Lookups) returns (o: Outcome<()>)
      modifies this`current, this`past
      ensures o.Panicked? <==> old(current).None? && stale != []
      ensures old(current).None? ==> current == old(current) && past == old(past)
      ensures old(current).Some? ==>
                && current == Some(Without(old(current.value), stale))
                && past == Credit(old(past), Picked(old(current.value), stale), ResolverOf(at))
    {
      ghost var base, m, pairOf := past, if current.Some? then current.value else map[], ResolverOf(at);
      CreditNothing(base, pairOf);
      assert Picked(m, []) == map[] && Without(m, []) == m;
      for i := 0 to |stale|
        invariant old(current).None? ==> i == 0 && current == None && past == base
        invariant old(current).Some? ==>
                    && current == Some(Without(m, stale[..i]))
                    && past == Credit(base, Picked(m, stale[..i]), pairOf)
      {
        assert stale[..i + 1] == stale[..i] + [stale[i]];
        FoldOneMore(base, m, stale[..i], stale[i], pairOf);
        var handled := HandleInactiveConnection(stale[i], at);
        if handled.Panicked? { return Panicked; }
      }
      assert stale[..|stale|] == stale;
      return Returned(());
    }

    /**
     A poll with nothing in between: it answers, folds every inactive entry, and keeps every active
     one. The index may change while it runs: `at` and `at'` are the lookups of the two halves.
     */
    method Poll(broken: set<ConnectionKey>, at: Lookups, at': Lookups) returns (r: Result<Totals>)
      modifies this`current, this`past
      ensures r.Ok? <==> old(current).Some? && cacheMgr.Some? && broken !! old(current).value.Keys
      ensures r.Err? ==> current == old(current) && past == old(past)
      ensures r.Ok? ==>
                && r.value == PollAnswer(old(past), old(current.value), ResolverOf(at))
                && past == PollPast(old(past), old(current.value), ResolverOf(at'))
                && current == Some(ActiveOf(old(current.value)))
    {
      var s := TakeSnapshot(broken, at);
      if s.Err? { return Err; }
      ghost var m := current.value;
      var _ := FoldInactive(s.value.stale, at');
      assert Picked(m, s.value.stale) == InactiveOf(m);
      assert Without(m, s.value.stale) == ActiveOf(m);
      return Ok(s.value.conns);
    }
  }
}
