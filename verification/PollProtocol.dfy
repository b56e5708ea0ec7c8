/**
 Polls and the kernel at full concurrency. A poll is not one action but many: it sees keys one at a
 time, later gets the bytes of a key it saw inactive, and later still removes that key. Kernel events
 and any number of other polls run in between, and no lock is assumed.
 */
module PollProtocol {
  import opened Common
  import opened ConnTracer
  import opened ServiceMap

  /** A poll under way: the keys it saw inactive, and the key it is folding with the bytes it got for it. */
  datatype Worker = Worker(todo: seq<ConnectionKey>, held: Option<(ConnectionKey, nat)>)

  const IDLE: Worker := Worker([], None)

  datatype World = World(
    kernel: Kernel, past: Totals, polls: map<nat, Worker>, folds: seq<(ConnectionKey, nat)>)

  const START: World := World(Kernel(map[], map[]), map[], map[], [])

  datatype Step =
    | Event(e: KernelEvent)
    | See(p: nat, key: ConnectionKey)
    | Get(p: nat)
    | Remove(p: nat)

  function WorkerOf(w: World, p: nat): Worker { if p in w.polls then w.polls[p] else IDLE }

  function Next(w: World, s: Step, r: Resolver): World {
    match s
    case Event(e) => w.(kernel := After(w.kernel, e))
    case See(p, key) =>
      var me := WorkerOf(w, p);
      if key in w.kernel.connections && !Active(w.kernel.connections[key])
      then w.(polls := w.polls[p := me.(todo := me.todo + [key])]) else w
    case Get(p) =>
      var me := WorkerOf(w, p);
      if me.held.None? && me.todo != []
      then
        var bytes := if me.todo[0] in w.kernel.connections then w.kernel.connections[me.todo[0]].bytesSent else 0;
        w.(polls := w.polls[p := Worker(me.todo[1..], Some((me.todo[0], bytes)))])
      else w
    case Remove(p) =>
      var me := WorkerOf(w, p);
      if me.held.None? then w
      else
        var w' := w.(polls := w.polls[p := me.(held := None)]);
        var (key, bytes) := me.held.value;
        if key !in w.kernel.connections then w'
        else w'.(kernel := w.kernel.(connections := w.kernel.connections - {key}),
                 past := Add(w.past, r(key), bytes),
                 folds := w.folds + [(key, bytes)])
  }

  function NoteStep(h: History, w: World, s: Step): History {
    match s
    case Event(e) => Note(h, w.kernel, e)
    case _ => h
  }

  function Run(w: World, steps: seq<Step>, r: Resolver): World
    decreases |steps|
  {
    if steps == [] then w else Run(Next(w, steps[0], r), steps[1..], r)
  }

  function Log(h: History, w: World, steps: seq<Step>, r: Resolver): History
    decreases |steps|
  {
    if steps == [] then h else Log(NoteStep(h, w, steps[0]), Next(w, steps[0], r), steps[1..], r)
  }

  /** Every kernel event of the run is legal when it happens. Polls are not restricted at all. */
  ghost predicate LegalRun(w: World, h: History, steps: seq<Step>, r: Resolver)
    decreases |steps|
  {
    || steps == []
    || (&& (steps[0].Event? ==> Legal(w.kernel, h, steps[0].e))
        && LegalRun(Next(w, steps[0], r), NoteStep(h, w, steps[0]), steps[1..], r))
  }

  /** A get and a remove with nothing in between are what `HandleInactiveConnection` does. */
  lemma {:induction false} GetRemoveIsHandle(w: World, p: nat, r: Resolver)
    requires WorkerOf(w, p).held.None? && WorkerOf(w, p).todo != []
    ensures var (key, w') := (WorkerOf(w, p).todo[0], Next(Next(w, Get(p), r), Remove(p), r));
            && WorkerOf(w', p) == Worker(WorkerOf(w, p).todo[1..], None)
            && w'.kernel == w.kernel.(connections := w.kernel.connections - {key})
            && w'.past == if key in w.kernel.connections
                          then Add(w.past, r(key), w.kernel.connections[key].bytesSent) else w.past
  {
    var key := WorkerOf(w, p).todo[0];
    if key !in w.kernel.connections { assert w.kernel.connections - {key} == w.kernel.connections; }
  }

  // ---------------------------------------------------------------------------
  // Each key is folded once

  /**
   What a poll carries is closed, unless its id was drawn at SYN_RECV; if it is still stored, the
   bytes held are its closing bytes.
   */
  ghost predicate WorkerSound(me: Worker, k: Kernel, h: History) {
    && (forall key :: key in me.todo && key.id !in h.recv ==> key in h.closed)
    && (me.held.Some? && me.held.value.0.id !in h.recv ==>
          && me.held.value.0 in h.closed
          && (me.held.value.0 in k.connections ==> me.held.value.1 == h.closed[me.held.value.0]))
  }

  /** The bytes folded from one key, fold by fold. */
  function FoldsOf(folds: seq<(ConnectionKey, nat)>, key: ConnectionKey): seq<nat> {
    if folds == [] then []
    else
      var last := folds[|folds| - 1];
      FoldsOf(folds[..|folds| - 1], key) + if last.0 == key then [last.1] else []
  }

  lemma {:induction false} FoldsMore(folds: seq<(ConnectionKey, nat)>, fold: (ConnectionKey, nat), key: ConnectionKey)
    ensures FoldsOf(folds + [fold], key) == FoldsOf(folds, key) + if fold.0 == key then [fold.1] else []
  {
    assert (folds + [fold])[..|folds|] == folds;
  }

  /** A key not drawn at SYN_RECV has been folded once if it is closed and gone from the map, and else not at all. */
  ghost predicate FoldsSound(w: World, h: History) {
    forall key: ConnectionKey :: key.id !in h.recv ==>
      FoldsOf(w.folds, key) == if key in h.closed && key !in w.kernel.connections then [h.closed[key]] else []
  }

  ghost predicate Sound(w: World, h: History) {
    && Inv(w.kernel, h)
    && (forall p :: p in w.polls ==> WorkerSound(w.polls[p], w.kernel, h))
    && FoldsSound(w, h)
  }

  lemma {:induction false} SoundEvent(w: World, h: History, e: KernelEvent)
    requires Sound(w, h) && Legal(w.kernel, h, e)
    ensures Sound(w.(kernel := After(w.kernel, e)), Note(h, w.kernel, e))
  {
    InvStep(w.kernel, h, e);
    if Touched(w.kernel, e).Some? { ClosedUntouched(w.kernel, h, e); }
    var h' := Note(h, w.kernel, e);
    assert forall key :: key in h.closed ==> key in h'.closed && h'.closed[key] == h.closed[key];
    assert forall key :: key in h.closed ==> (key in After(w.kernel, e).connections <==> key in w.kernel.connections);
  }

  lemma {:induction false} SoundRemove(w: World, h: History, p: nat, r: Resolver)
    requires Sound(w, h)
    ensures Sound(Next(w, Remove(p), r), h)
  {
    var me := WorkerOf(w, p);
    if me.held.Some? && me.held.value.0 in w.kernel.connections {
      var fold := me.held.value;
      InvRemove(w.kernel, h, {fold.0});
      forall key
        ensures FoldsOf(w.folds + [fold], key) == FoldsOf(w.folds, key) + if fold.0 == key then [fold.1] else []
      {
        FoldsMore(w.folds, fold, key);
      }
    }
  }

  lemma {:induction false} SoundStep(w: World, h: History, s: Step, r: Resolver)
    requires Sound(w, h)
    requires s.Event? ==> Legal(w.kernel, h, s.e)
    ensures Sound(Next(w, s, r), NoteStep(h, w, s))
  {
    match s
    case Event(e) => SoundEvent(w, h, e);
    case See(p, key) =>
    case Get(p) =>
    case Remove(p) => SoundRemove(w, h, p, r);
  }

  lemma {:induction false} SoundRun(w: World, h: History, steps: seq<Step>, r: Resolver)
    requires Sound(w, h) && LegalRun(w, h, steps, r)
    ensures Sound(Run(w, steps, r), Log(h, w, steps, r))
    decreases |steps|
  {
    if steps == [] {
    } else {
      SoundStep(w, h, steps[0], r);
      SoundRun(Next(w, steps[0], r), NoteStep(h, w, steps[0]), steps[1..], r);
    }
  }

  /**
   Exactly-once fold: in every interleaving of legal kernel events with any number of overlapping
   polls, a key whose id was not drawn at SYN_RECV is folded exactly once if its socket has closed
   and the key is gone from the map, then with the bytes recorded at the close, and otherwise not
   at all. So nothing closed is lost and nothing is counted twice.
   */
  lemma {:induction false} ExactlyOnceFold(steps: seq<Step>, r: Resolver, key: ConnectionKey)
    requires LegalRun(START, NO_HISTORY, steps, r)
    requires key.id !in Log(NO_HISTORY, START, steps, r).recv
    ensures var (w, closed) := (Run(START, steps, r), Log(NO_HISTORY, START, steps, r).closed);
            FoldsOf(w.folds, key) == if key in closed && key !in w.kernel.connections then [closed[key]] else []
  {
    SoundRun(START, NO_HISTORY, steps, r);
  }

  /**
   Kernel tracker: in every reachable state all socket records are active, so the tracker's early
   error needs an unreadable socket; distinct sockets have distinct ids; and every active entry
   belongs to exactly one tracked socket.
   */
  lemma {:induction false} TrackerInvariant(steps: seq<Step>, r: Resolver)
    requires LegalRun(START, NO_HISTORY, steps, r)
    ensures var k := Run(START, steps, r).kernel;
            && (forall sk :: sk in k.sockets ==> k.sockets[sk].isActive == 1)
            && (forall s1, s2 ::
                  s1 in k.sockets && s2 in k.sockets && k.sockets[s1].id == k.sockets[s2].id ==> s1 == s2)
            && (forall key :: key in k.connections && Active(k.connections[key]) ==>
                  exists sk :: sk in k.sockets && Owns(k.sockets[sk], key)
                    && forall s2 :: s2 in k.sockets && Owns(k.sockets[s2], key) ==> s2 == sk)
  {
    SoundRun(START, NO_HISTORY, steps, r);
    var k := Run(START, steps, r).kernel;
    forall key | key in k.connections && Active(k.connections[key])
      ensures exists sk :: sk in k.sockets && Owns(k.sockets[sk], key)
                && forall s2 :: s2 in k.sockets && Owns(k.sockets[s2], key) ==> s2 == sk
    {
      var sk :| sk in k.sockets && Owns(k.sockets[sk], key);
      assert forall s2 :: s2 in k.sockets && Owns(k.sockets[s2], key) ==> s2 == sk;
    }
  }

  /** The bytes folded for one pair. */
  function FoldTotal(folds: seq<(ConnectionKey, nat)>, r: Resolver, c: Connection): nat {
    if folds == [] then 0
    else
      var last := folds[|folds| - 1];
      FoldTotal(folds[..|folds| - 1], r, c) + if r(last.0) == Some(c) then last.1 else 0
  }

  lemma {:induction false} PastStep(w: World, s: Step, r: Resolver, c: Connection)
    requires Total(w.past, c) == FoldTotal(w.folds, r, c)
    ensures Total(Next(w, s, r).past, c) == FoldTotal(Next(w, s, r).folds, r, c)
  {
    if s.Remove? {
      var me := WorkerOf(w, s.p);
      if me.held.Some? {
        assert (w.folds + [me.held.value])[..|w.folds|] == w.folds;
      }
    }
  }

  /** The running total is the folds and nothing else. */
  lemma {:induction false} PastIsFolds(w: World, steps: seq<Step>, r: Resolver, c: Connection)
    requires Total(w.past, c) == FoldTotal(w.folds, r, c)
    ensures Total(Run(w, steps, r).past, c) == FoldTotal(Run(w, steps, r).folds, r, c)
    decreases |steps|
  {
    if steps == [] {
    } else {
      PastStep(w, steps[0], r, c);
      PastIsFolds(Next(w, steps[0], r), steps[1..], r, c);
    }
  }

  // ---------------------------------------------------------------------------
  // Overlapping polls of a quiet map

  ghost predicate Quiet(steps: seq<Step>) { forall i :: 0 <= i < |steps| ==> !steps[i].Event? }

  /** Keys some poll still carries. */
  ghost predicate Carried(w: World, key: ConnectionKey) { exists p :: p in w.polls && Carries(w.polls[p], key) }

  predicate Carries(me: Worker, key: ConnectionKey) { key in me.todo || (me.held.Some? && me.held.value.0 == key) }

  function Dropped(m: Entries, gone: set<ConnectionKey>): Entries { map k | k in m && k in gone :: m[k] }

  /**
   Part-way through: the keys `gone` have been folded out of the entries `m` the polls started
   from, each once; whatever is carried was inactive there, with the bytes it had there.
   */
  ghost predicate PartWay(w: World, past: Totals, m: Entries, gone: set<ConnectionKey>, r: Resolver) {
    && gone <= InactiveOf(m).Keys
    && w.kernel.connections == m - gone
    && w.past == Credit(past, Dropped(m, gone), r)
    && (forall p, key :: p in w.polls && key in w.polls[p].todo ==> key in InactiveOf(m))
    && (forall p :: p in w.polls && w.polls[p].held.Some? ==>
          && w.polls[p].held.value.0 in InactiveOf(m)
          && (w.polls[p].held.value.0 !in gone ==> w.polls[p].held.value.1 == m[w.polls[p].held.value.0].bytesSent))
  }

  ghost function GoneAfter(w: World, gone: set<ConnectionKey>, s: Step): set<ConnectionKey> {
    if s.Remove? && WorkerOf(w, s.p).held.Some? then gone + {WorkerOf(w, s.p).held.value.0} else gone
  }

  lemma {:induction false} FoldOut(past: Totals, m: Entries, gone: set<ConnectionKey>, key: ConnectionKey, r: Resolver)
    requires key in m && key !in gone
    ensures Credit(past, Dropped(m, gone + {key}), r) ==
            Add(Credit(past, Dropped(m, gone), r), r(key), m[key].bytesSent)
    ensures m - (gone + {key}) == (m - gone) - {key}
  {
    CreditInsert(past, Dropped(m, gone), key, m[key], r);
    assert Dropped(m, gone + {key}) == Dropped(m, gone)[key := m[key]];
  }

  lemma {:induction false} PartWayRemove(
    w: World, past: Totals, m: Entries, gone: set<ConnectionKey>, p: nat, r: Resolver)
    requires PartWay(w, past, m, gone, r)
    ensures PartWay(Next(w, Remove(p), r), past, m, GoneAfter(w, gone, Remove(p)), r)
  {
    if WorkerOf(w, p).held.Some? {
      var (key, bytes) := WorkerOf(w, p).held.value;
      if key in gone {
        assert gone + {key} == gone;
      } else {
        FoldOut(past, m, gone, key, r);
      }
    }
  }

  lemma {:induction false} PartWayStep(
    w: World, past: Totals, m: Entries, gone: set<ConnectionKey>, s: Step, r: Resolver)
    requires PartWay(w, past, m, gone, r) && !s.Event?
    ensures PartWay(Next(w, s, r), past, m, GoneAfter(w, gone, s), r)
  {
    if s.Remove? { PartWayRemove(w, past, m, gone, s.p, r); }
  }

  /** A key once carried stays carried until it is folded. */
  lemma {:induction false} CarriedStep(w: World, gone: set<ConnectionKey>, s: Step, r: Resolver, key: ConnectionKey)
    requires !s.Event?
    requires Carried(w, key) || key in gone
    ensures Carried(Next(w, s, r), key) || key in GoneAfter(w, gone, s)
  {
    if key !in GoneAfter(w, gone, s) {
      var p :| p in w.polls && Carries(w.polls[p], key);
      var w' := Next(w, s, r);
      assert p in w'.polls && Carries(w'.polls[p], key) by {
        if s.Get? && s.p == p && w.polls[p].held.None? && key in w.polls[p].todo {
          assert w.polls[p].todo == [w.polls[p].todo[0]] + w.polls[p].todo[1..];
        }
      }
    }
  }

  /** Some poll sees the key during the run. */
  ghost predicate Seen(steps: seq<Step>, key: ConnectionKey) {
    exists i :: 0 <= i < |steps| && steps[i].See? && steps[i].key == key
  }

  lemma {:induction false} QuietRun(
    w: World, past: Totals, m: Entries, gone: set<ConnectionKey>, steps: seq<Step>, r: Resolver,
    seen: set<ConnectionKey>)
    returns (gone': set<ConnectionKey>)
    requires PartWay(w, past, m, gone, r) && Quiet(steps)
    requires forall key :: key in seen ==> Carried(w, key) || key in gone
    ensures PartWay(Run(w, steps, r), past, m, gone', r)
    ensures forall key :: key in seen ==> Carried(Run(w, steps, r), key) || key in gone'
    ensures forall key :: key in InactiveOf(m) && Seen(steps, key) ==> Carried(Run(w, steps, r), key) || key in gone'
    decreases |steps|
  {
    if steps == [] {
      return gone;
    }
    var s := steps[0];
    PartWayStep(w, past, m, gone, s, r);
    forall key | key in seen ensures Carried(Next(w, s, r), key) || key in GoneAfter(w, gone, s) {
      CarriedStep(w, gone, s, r, key);
    }
    var now := if s.See? && s.key in InactiveOf(m) then {s.key} else {};
    forall key | key in now ensures Carried(Next(w, s, r), key) || key in GoneAfter(w, gone, s) {
      if key !in gone {
        assert s.p in Next(w, s, r).polls && Carries(Next(w, s, r).polls[s.p], key);
      }
    }
    gone' := QuietRun(Next(w, s, r), past, m, GoneAfter(w, gone, s), steps[1..], r, seen + now);
    forall key | key in InactiveOf(m) && Seen(steps, key)
      ensures Carried(Run(w, steps, r), key) || key in gone'
    {
      var i :| 0 <= i < |steps| && steps[i].See? && steps[i].key == key;
      if i > 0 {
        assert steps[1..][i - 1] == steps[i];
        assert Seen(steps[1..], key);
      }
    }
  }

  /**
   Overlapping polls: any number of polls of a quiet map, interleaved in any way, leave the running
   total and the map exactly as one poll would, once they are through and every inactive key was
   seen by at least one of them.
   */
  lemma {:induction false} OverlappingPolls(w: World, steps: seq<Step>, r: Resolver)
    requires w.polls == map[] && Quiet(steps)
    requires forall key :: key in InactiveOf(w.kernel.connections) ==> Seen(steps, key)
    requires AllIdle(Run(w, steps, r))
    ensures Run(w, steps, r).past == PollPast(w.past, w.kernel.connections, r)
    ensures Run(w, steps, r).kernel.connections == ActiveOf(w.kernel.connections)
  {
    var m := w.kernel.connections;
    assert Dropped(m, {}) == map[] && m - {} == m;
    CreditNothing(w.past, r);
    var gone := QuietRun(w, w.past, m, {}, steps, r, {});
    assert gone == InactiveOf(m).Keys;
    assert Dropped(m, gone) == InactiveOf(m);
    assert m - gone == ActiveOf(m);
  }

  lemma {:induction false} QuietConcat(w: World, a: seq<Step>, b: seq<Step>, r: Resolver)
    ensures Run(w, a + b, r) == Run(Run(w, a, r), b, r)
    decreases |a|
  {
    if a == [] {
      assert a + b == b;
    } else {
      assert (a + b)[1..] == a[1..] + b;
      QuietConcat(Next(w, a[0], r), a[1..], b, r);
    }
  }

  ghost predicate AllIdle(w: World) { forall q :: q in w.polls ==> w.polls[q] == IDLE }

  function DealWith(p: nat, key: ConnectionKey): seq<Step> { [See(p, key), Get(p), Remove(p)] }

  /** One poll deals with one key. */
  lemma {:induction false} PollOne(w: World, p: nat, key: ConnectionKey, r: Resolver)
    requires key in InactiveOf(w.kernel.connections) && AllIdle(w)
    ensures var w' := Run(w, DealWith(p, key), r);
            AllIdle(w') && w'.kernel.connections == w.kernel.connections - {key}
  {
    var one := DealWith(p, key);
    var w1 := Next(w, See(p, key), r);
    assert WorkerOf(w1, p).todo == [key];
    var w2 := Next(w1, Get(p), r);
    assert one[1..] == [Get(p), Remove(p)] && one[1..][1..] == [Remove(p)] && [Remove(p)][1..] == [];
    assert Run(w1, one[1..], r) == Run(w2, [Remove(p)], r) == Run(Next(w2, Remove(p), r), [], r);
  }

  lemma {:induction false} SeenConcat(a: seq<Step>, b: seq<Step>, key: ConnectionKey)
    requires Seen(a, key) || Seen(b, key)
    ensures Seen(a + b, key)
  {
    if Seen(a, key) {
      var i :| 0 <= i < |a| && a[i].See? && a[i].key == key;
      assert (a + b)[i] == a[i];
    } else {
      var i :| 0 <= i < |b| && b[i].See? && b[i].key == key;
      assert (a + b)[|a| + i] == b[i];
    }
  }

  /** One poll deals with the given keys, one after the other. */
  lemma {:induction false} PollKeys(w: World, p: nat, keys: set<ConnectionKey>, r: Resolver) returns (steps: seq<Step>)
    requires keys <= InactiveOf(w.kernel.connections).Keys && AllIdle(w)
    ensures Quiet(steps) && AllIdle(Run(w, steps, r))
    ensures forall key :: key in keys ==> Seen(steps, key)
    decreases keys
  {
    if keys == {} {
      steps := [];
    } else {
      var key :| key in keys;
      var one := DealWith(p, key);
      PollOne(w, p, key, r);
      var rest := PollKeys(Run(w, one, r), p, keys - {key}, r);
      steps := one + rest;
      QuietConcat(w, one, rest, r);
      assert one[0] == See(p, key) && Seen(one, key);
      forall k | k in keys ensures Seen(steps, k) {
        assert k == key || k in keys - {key};
        SeenConcat(one, rest, k);
      }
    }
  }

  /** What `Poll` of the program does to the map and the running total is one such run. */
  lemma {:induction false} PollIsRun(w: World, p: nat, r: Resolver) returns (steps: seq<Step>)
    requires w.polls == map[]
    ensures Quiet(steps)
    ensures Run(w, steps, r).past == PollPast(w.past, w.kernel.connections, r)
    ensures Run(w, steps, r).kernel.connections == ActiveOf(w.kernel.connections)
  {
    steps := PollKeys(w, p, InactiveOf(w.kernel.connections).Keys, r);
    OverlappingPolls(w, steps, r);
  }
}
