/**
 Three legal runs in which kernel events tear a poll apart, on one server-side key. SYN_RECV stores
 the key as inactive, so a poll that looks between SYN_RECV and the first data carries a live key.
 */
module TornPolls {
  import opened Common
  import opened ConnTracer
  import opened ServiceMap
  import opened PollProtocol
  import opened Ledger
  import Decimal

  /** A server at 10.0.0.1:80, its client at 10.0.0.2:5000. */
  const TORN_KEY: ConnectionKey := ConnectionKey(7, 0, 0x0a00_0001, 80, 0x0a00_0002, 5000, ROLE_SERVER)

  function TornView(bytes: u64): Option<SockView> {
    Some(SockView(0x0a00_0001, 80, 0x0a00_0002, 5000, bytes, 0))
  }

  function TornIndex(client: Workload, server: Workload): IpIndex { map["10.0.0.1" := server, "10.0.0.2" := client] }

  function TornResolver(client: Workload, server: Workload): Resolver { ResolverOf(Steady(TornIndex(client, server))) }

  function TornPair(client: Workload, server: Workload): Connection { Connection(client, server, ROLE_SERVER, 80) }

  lemma {:induction false} TornAddresses()
    ensures Decimal.Ipv4String(0x0a00_0001) == "10.0.0.1" && Decimal.Ipv4String(0x0a00_0002) == "10.0.0.2"
  {
    assert Decimal.Print(10) == "10" by { assert Decimal.Print(1) == "1"; }
    assert Decimal.Print(0) == "0" && Decimal.Print(1) == "1" && Decimal.Print(2) == "2";
    assert Decimal.Octets(0x0a00_0001) == (10, 0, 0, 1) && Decimal.Octets(0x0a00_0002) == (10, 0, 0, 2);
    assert Decimal.Dotted(10, 0, 0, 1) == "10" + "." + ("0" + "." + ("0" + "." + "1"));
    assert Decimal.Dotted(10, 0, 0, 2) == "10" + "." + ("0" + "." + ("0" + "." + "2"));
  }

  lemma {:induction false} TornLookups(client: Workload, server: Workload, one: string, two: string)
    requires one == "10.0.0.1" && two == "10.0.0.2"
    ensures var idx := TornIndex(client, server); one in idx && idx[one] == server && two in idx && idx[two] == client
  {
    assert one[7] != two[7];
  }

  lemma {:induction false} TornResolves(client: Workload, server: Workload)
    ensures TornResolver(client, server)(TORN_KEY) == Some(TornPair(client, server))
  {
    TornAddresses();
    var idx := TornIndex(client, server);
    TornLookups(client, server, Decimal.Ipv4String(0x0a00_0001), Decimal.Ipv4String(0x0a00_0002));
    assert ResolveIp(0x0a00_0001, idx) == Some(server) && ResolveIp(0x0a00_0002, idx) == Some(client);
    assert TornResolver(client, server)(TORN_KEY) == BuildConnection(TORN_KEY, idx, idx);
  }

  // ---------------------------------------------------------------------------
  // Walking through a run

  lemma {:induction false} RunMore(w: World, h: History, b: Book, steps: seq<Step>, s: Step, r: Resolver)
    requires LegalRun(w, h, steps, r)
    requires s.Event? ==> Legal(Run(w, steps, r).kernel, Log(h, w, steps, r), s.e)
    ensures LegalRun(w, h, steps + [s], r)
    ensures Run(w, steps + [s], r) == Next(Run(w, steps, r), s, r)
    ensures Log(h, w, steps + [s], r) == NoteStep(Log(h, w, steps, r), Run(w, steps, r), s)
    ensures BookOf(b, w, steps + [s], r) == Booked(BookOf(b, w, steps, r), Run(w, steps, r), s)
    decreases |steps|
  {
    if steps == [] {
      assert ([s])[1..] == [];
    } else {
      assert (steps + [s])[1..] == steps[1..] + [s];
      RunMore(Next(w, steps[0], r), NoteStep(h, w, steps[0]), Booked(b, w, steps[0]), steps[1..], s, r);
    }
  }

  const SAW: Worker := Worker([TORN_KEY], None)

  function Got(bytes: nat): Worker { Worker([], Some((TORN_KEY, bytes))) }

  /** What matters of a moment: the socket, the entry, the pair's total, the folds, the key's page and two polls. */
  datatype Scene = Scene(
    open: bool, entry: Option<ConnectionStats>, total: nat, folds: seq<(ConnectionKey, nat)>, page: Page,
    polls: (Worker, Worker))
  {
    function Poll(p: nat): Worker { if p == 0 then polls.0 else polls.1 }

    function WithPoll(p: nat, me: Worker): Scene {
      this.(polls := if p == 0 then (me, polls.1) else (polls.0, me))
    }
  }

  ghost predicate Shows(w: World, h: History, b: Book, c: Connection, sc: Scene) {
    && w.kernel.sockets == (if sc.open then map[1 := SockInfo(7, 0, 1, ROLE_SERVER)] else map[])
    && w.kernel.connections == (if sc.entry.Some? then map[TORN_KEY := sc.entry.value] else map[])
    && (sc.open ==> h == History({7}, {7}, map[]))
    && Total(w.past, c) == sc.total && w.folds == sc.folds
    && b == map[TORN_KEY := sc.page]
    && WorkerOf(w, 0) == sc.polls.0 && WorkerOf(w, 1) == sc.polls.1
  }

  /** A legal run from the start has reached this scene. */
  ghost predicate Reached(steps: seq<Step>, r: Resolver, c: Connection, sc: Scene) {
    && r(TORN_KEY) == Some(c)
    && LegalRun(START, NO_HISTORY, steps, r)
    && Shows(Run(START, steps, r), Log(NO_HISTORY, START, steps, r), BookOf(map[], START, steps, r), c, sc)
  }

  /** SYN_RECV, with nothing sent yet. */
  lemma {:induction false} Opens(r: Resolver, c: Connection) returns (steps: seq<Step>)
    requires r(TORN_KEY) == Some(c)
    ensures Reached(steps, r, c, Scene(true, Some(ConnectionStats(0, 0, 0)), 0, [], BLANK, (IDLE, IDLE)))
  {
    var s := Event(SynRecv(1, TornView(0), 7));
    RunMore(START, NO_HISTORY, map[], [], s, r);
    assert [] + [s] == [s];
    steps := [s];
  }

  lemma {:induction false} Sends(steps: seq<Step>, r: Resolver, c: Connection, sc: Scene, bytes: u64)
    returns (steps': seq<Step>)
    requires Reached(steps, r, c, sc) && sc.open
    ensures Reached(steps', r, c, sc.(entry := Some(ConnectionStats(bytes, 0, 1)),
                                      page := Page(bytes, sc.page.folded, sc.page.folded, 0, 0)))
  {
    var s := Event(Data(1, TornView(bytes), 8, None));
    RunMore(START, NO_HISTORY, map[], steps, s, r);
    steps' := steps + [s];
  }

  lemma {:induction false} Closes(steps: seq<Step>, r: Resolver, c: Connection, sc: Scene, bytes: u64)
    returns (steps': seq<Step>)
    requires Reached(steps, r, c, sc) && sc.open
    ensures Reached(steps', r, c, sc.(open := false, entry := Some(ConnectionStats(bytes, 0, 0)),
                                      page := Page(bytes, sc.page.folded, sc.page.folded, 0, 0)))
  {
    var s := Event(Close(1, TornView(bytes), 9, None));
    RunMore(START, NO_HISTORY, map[], steps, s, r);
    steps' := steps + [s];
  }

  lemma {:induction false} Sees(steps: seq<Step>, r: Resolver, c: Connection, sc: Scene, p: nat)
    returns (steps': seq<Step>)
    requires Reached(steps, r, c, sc) && p < 2 && sc.Poll(p) == IDLE && sc.entry.Some? && !Active(sc.entry.value)
    ensures Reached(steps', r, c, sc.WithPoll(p, SAW))
  {
    RunMore(START, NO_HISTORY, map[], steps, See(p, TORN_KEY), r);
    assert IDLE.todo + [TORN_KEY] == [TORN_KEY];
    steps' := steps + [See(p, TORN_KEY)];
  }

  lemma {:induction false} Gets(steps: seq<Step>, r: Resolver, c: Connection, sc: Scene, p: nat)
    returns (steps': seq<Step>)
    requires Reached(steps, r, c, sc) && p < 2 && sc.Poll(p) == SAW
    ensures Reached(steps', r, c, sc.WithPoll(p, Got(if sc.entry.Some? then sc.entry.value.bytesSent else 0)))
  {
    RunMore(START, NO_HISTORY, map[], steps, Get(p), r);
    assert SAW.todo[1..] == [];
    steps' := steps + [Get(p)];
  }

  lemma {:induction false} Removes(steps: seq<Step>, r: Resolver, c: Connection, sc: Scene, p: nat, held: nat)
    returns (steps': seq<Step>)
    requires Reached(steps, r, c, sc) && p < 2 && sc.Poll(p) == Got(held) && sc.entry.Some?
    ensures Reached(steps', r, c,
                    sc.(entry := None, total := sc.total + held, folds := sc.folds + [(TORN_KEY, held)],
                        page := PageAfter(sc.page, false, held, sc.entry.value.bytesSent)).WithPoll(p, IDLE))
  {
    RunMore(START, NO_HISTORY, map[], steps, Remove(p), r);
    assert map[TORN_KEY := sc.entry.value] - {TORN_KEY} == map[];
    steps' := steps + [Remove(p)];
  }

  // ---------------------------------------------------------------------------
  // The runs

  /** SYN_RECV, a poll that sees the key, the first data, and only then the fold. */
  lemma {:induction false} FoldedLive(r: Resolver, c: Connection) returns (steps: seq<Step>)
    requires r(TORN_KEY) == Some(c)
    ensures Reached(steps, r, c, Scene(true, None, 100, [(TORN_KEY, 100)], Page(100, 100, 0, 0, 0), (IDLE, IDLE)))
  {
    steps := Opens(r, c);
    var sc := Scene(true, Some(ConnectionStats(0, 0, 0)), 0, [], BLANK, (IDLE, IDLE));
    steps := Sees(steps, r, c, sc, 0);
    steps := Sends(steps, r, c, sc.(polls := (SAW, IDLE)), 100);
    sc := sc.(entry := Some(ConnectionStats(100, 0, 1)), page := Page(100, 0, 0, 0, 0));
    steps := Gets(steps, r, c, sc.(polls := (SAW, IDLE)), 0);
    steps := Removes(steps, r, c, sc.(polls := (Got(100), IDLE)), 0, 100);
  }

  /** The close, and a poll that folds it as it should. */
  lemma {:induction false} FoldedAgain(r: Resolver, c: Connection) returns (steps: seq<Step>)
    requires r(TORN_KEY) == Some(c)
    ensures Reached(steps, r, c,
                    Scene(false, None, 250, [(TORN_KEY, 100), (TORN_KEY, 150)], Page(150, 250, 100, 0, 0),
                          (IDLE, IDLE)))
  {
    steps := FoldedLive(r, c);
    var sc := Scene(true, None, 100, [(TORN_KEY, 100)], Page(100, 100, 0, 0, 0), (IDLE, IDLE));
    steps := Closes(steps, r, c, sc, 150);
    sc := sc.(open := false, entry := Some(ConnectionStats(150, 0, 0)), page := Page(150, 100, 100, 0, 0));
    steps := Sees(steps, r, c, sc, 0);
    steps := Gets(steps, r, c, sc.(polls := (SAW, IDLE)), 0);
    steps := Removes(steps, r, c, sc.(polls := (Got(150), IDLE)), 0, 150);
    assert [(TORN_KEY, 100)] + [(TORN_KEY, 150)] == [(TORN_KEY, 100), (TORN_KEY, 150)];
  }

  /** Counted twice: the key is folded live and again after its close, 250 bytes for the 150 its connection sent. */
  lemma {:induction false} CountsTwice(client: Workload, server: Workload) returns (steps: seq<Step>)
    ensures var (r, c) := (TornResolver(client, server), TornPair(client, server));
            && LegalRun(START, NO_HISTORY, steps, r)
            && Run(START, steps, r).folds == [(TORN_KEY, 100), (TORN_KEY, 150)]
            && Run(START, steps, r).kernel.connections == map[]
            && Total(Run(START, steps, r).past, c) == 250
            && BookOf(map[], START, steps, r) == map[TORN_KEY := Page(150, 250, 100, 0, 0)]
  {
    TornResolves(client, server);
    steps := FoldedAgain(TornResolver(client, server), TornPair(client, server));
  }

  /** The first data arrives between the get and the remove. */
  lemma {:induction false} LosingRun(r: Resolver, c: Connection) returns (steps: seq<Step>)
    requires r(TORN_KEY) == Some(c)
    ensures Reached(steps, r, c, Scene(true, None, 0, [(TORN_KEY, 0)], Page(100, 0, 0, 100, 0), (IDLE, IDLE)))
  {
    steps := Opens(r, c);
    var sc := Scene(true, Some(ConnectionStats(0, 0, 0)), 0, [], BLANK, (IDLE, IDLE));
    steps := Sees(steps, r, c, sc, 0);
    steps := Gets(steps, r, c, sc.(polls := (SAW, IDLE)), 0);
    steps := Sends(steps, r, c, sc.(polls := (Got(0), IDLE)), 100);
    sc := sc.(entry := Some(ConnectionStats(100, 0, 1)), page := Page(100, 0, 0, 0, 0));
    steps := Removes(steps, r, c, sc.(polls := (Got(0), IDLE)), 0, 0);
  }

  /** Lost: the 100 bytes that arrive between the get and the remove are booked nowhere. */
  lemma {:induction false} LosesBytes(client: Workload, server: Workload) returns (steps: seq<Step>)
    ensures var (r, c) := (TornResolver(client, server), TornPair(client, server));
            && LegalRun(START, NO_HISTORY, steps, r)
            && Run(START, steps, r).folds == [(TORN_KEY, 0)]
            && Run(START, steps, r).kernel.connections == map[]
            && Total(Run(START, steps, r).past, c) == 0
            && BookOf(map[], START, steps, r) == map[TORN_KEY := Page(100, 0, 0, 100, 0)]
  {
    TornResolves(client, server);
    steps := LosingRun(TornResolver(client, server), TornPair(client, server));
  }

  /** As `FoldedLive`, with a second poll that has seen the key too. */
  lemma {:induction false} FoldedBeside(r: Resolver, c: Connection) returns (steps: seq<Step>)
    requires r(TORN_KEY) == Some(c)
    ensures Reached(steps, r, c, Scene(true, None, 100, [(TORN_KEY, 100)], Page(100, 100, 0, 0, 0), (IDLE, SAW)))
  {
    steps := Opens(r, c);
    var sc := Scene(true, Some(ConnectionStats(0, 0, 0)), 0, [], BLANK, (IDLE, IDLE));
    steps := Sees(steps, r, c, sc, 0);
    steps := Sees(steps, r, c, sc.(polls := (SAW, IDLE)), 1);
    steps := Sends(steps, r, c, sc.(polls := (SAW, SAW)), 100);
    sc := sc.(entry := Some(ConnectionStats(100, 0, 1)), page := Page(100, 0, 0, 0, 0));
    steps := Gets(steps, r, c, sc.(polls := (SAW, SAW)), 0);
    steps := Removes(steps, r, c, sc.(polls := (Got(100), SAW)), 0, 100);
  }

  /** The second poll gets nothing, and removes the key when it has been recorded again. */
  lemma {:induction false} HidingRun(r: Resolver, c: Connection) returns (steps: seq<Step>)
    requires r(TORN_KEY) == Some(c)
    ensures Reached(steps, r, c,
                    Scene(true, None, 100, [(TORN_KEY, 100), (TORN_KEY, 0)], Page(100, 100, 100, 100, 0),
                          (IDLE, IDLE)))
  {
    steps := FoldedBeside(r, c);
    var sc := Scene(true, None, 100, [(TORN_KEY, 100)], Page(100, 100, 0, 0, 0), (IDLE, SAW));
    steps := Gets(steps, r, c, sc, 1);
    steps := Sends(steps, r, c, sc.(polls := (IDLE, Got(0))), 100);
    sc := sc.(entry := Some(ConnectionStats(100, 0, 1)), page := Page(100, 100, 100, 0, 0), polls := (IDLE, Got(0)));
    steps := Removes(steps, r, c, sc, 1, 0);
    assert [(TORN_KEY, 100)] + [(TORN_KEY, 0)] == [(TORN_KEY, 100), (TORN_KEY, 0)];
  }

  /** A page that is not even at the end was disturbed on the way. */
  lemma {:induction false} OffIsDisturbed(steps: seq<Step>, r: Resolver, key: ConnectionKey)
    requires !EvenPage(PageOf(BookOf(map[], START, steps, r), key))
    ensures !KeyUndisturbed(START, steps, r, key)
  {
    StartBalanced(r);
    KeyAccountedRun(START, map[], steps, r, key);
  }

  /**
   Why the exact condition speaks of every moment: here a loss hides an earlier excess. At the end
   what was folded is what was last recorded, yet the run disturbs the key.
   */
  lemma {:induction false} LossHidesExcess(client: Workload, server: Workload) returns (steps: seq<Step>)
    ensures var (r, c) := (TornResolver(client, server), TornPair(client, server));
            && LegalRun(START, NO_HISTORY, steps, r)
            && Run(START, steps, r).kernel.connections == map[]
            && Total(Run(START, steps, r).past, c) == 100
            && BookOf(map[], START, steps, r) == map[TORN_KEY := Page(100, 100, 100, 100, 0)]
            && !KeyUndisturbed(START, steps, r, TORN_KEY)
  {
    TornResolves(client, server);
    steps := HidingRun(TornResolver(client, server), TornPair(client, server));
    OffIsDisturbed(steps, TornResolver(client, server), TORN_KEY);
  }
}
