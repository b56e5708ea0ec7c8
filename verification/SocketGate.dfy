/**
 The gate that keeps read, readv and writev on ordinary files out of the data stream: the entry probe
 opens a slot, a hook deeper in the socket layer marks it, and the return probe processes data only
 from a marked slot. Reads and writes have a map each, shared with the probes of other system calls.
 */
module SocketGate {
  import opened Common
  import Traces

  type Thread = u64

  datatype Side = Reading | Writing

  datatype Syscall = Read | Readv | Writev

  function SideOf(c: Syscall): Side { if c == Writev then Writing else Reading }

  /** `source` is the call that opened the slot; other probes open slots without one. */
  datatype DataArgs = DataArgs(source: Option<Syscall>, fd: int, sockEvent: bool)

  type Slots = map<(Side, Thread), DataArgs>

  /** One probe firing. `Foreign` is whatever the probes of other system calls do to a slot of their thread. */
  datatype Event =
    | Enter(t: Thread, call: Syscall, fd: int)
    | Hook(t: Thread, side: Side)
    | Leave(t: Thread, call: Syscall, processOk: bool)
    | Foreign(t: Thread, side: Side, slot: Option<DataArgs>)

  function Place(e: Event): (Side, Thread) {
    match e
    case Enter(t, call, _) => (SideOf(call), t)
    case Hook(t, side) => (side, t)
    case Leave(t, call, _) => (SideOf(call), t)
    case Foreign(t, side, _) => (side, t)
  }

  /** A return finds a marked slot. */
  predicate Processes(m: Slots, e: Event) { e.Leave? && Place(e) in m && m[Place(e)].sockEvent }

  function Next(m: Slots, e: Event): Slots {
    match e
    case Enter(_, call, fd) => m[Place(e) := DataArgs(Some(call), fd, false)]
    case Hook(_, _) => if Place(e) in m then m[Place(e) := m[Place(e)].(sockEvent := true)] else m
    case Leave(_, call, ok) => if call == Writev && Processes(m, e) && !ok then m else m - {Place(e)}
    case Foreign(_, _, slot) => if slot.Some? then m[Place(e) := slot.value] else m - {Place(e)}
  }

  function Run(m: Slots, trace: seq<Event>): Slots { Traces.After(Next, m, trace) }

  class DataMaps {
    var slots: Slots

    constructor ()
      ensures slots == map[]
    {
      slots := map[];
    }

    /** The entry probes of read, readv and writev differ in their map and source only. */
    method TryEntry(t: Thread, call: Syscall, fd: int) returns (r: Result<int>)
      modifies this
      ensures slots == Next(old(slots), Enter(t, call, fd)) && r == Ok(0)
    {
      slots := slots[(SideOf(call), t) := DataArgs(Some(call), fd, false)];
      return Ok(0);
    }

    method TryHook(t: Thread, side: Side) returns (r: Result<int>)
      modifies this
      ensures slots == Next(old(slots), Hook(t, side))
      ensures r == if (side, t) in old(slots) then Ok(0) else Err
    {
      if (side, t) !in slots { return Err; }
      slots := slots[(side, t) := slots[(side, t)].(sockEvent := true)];
      return Ok(0);
    }

    /** read and readv free their slot in any case. */
    method TryReturnRead(t: Thread, call: Syscall, process: DataArgs -> Result<int>) returns (r: Result<int>)
      requires SideOf(call) == Reading
      modifies this
      ensures (Reading, t) in old(slots) ==>
                && slots == Next(old(slots), Leave(t, call, process(old(slots)[(Reading, t)]).Ok?))
                && r == if old(slots)[(Reading, t)].sockEvent then process(old(slots)[(Reading, t)]) else Ok(0)
      ensures (Reading, t) !in old(slots) ==> slots == old(slots) && r.Err?
    {
      if (Reading, t) !in slots { return Err; }
      var args := slots[(Reading, t)];
      r := Ok(0);
      if args.sockEvent { r := process(args); }
      slots := slots - {(Reading, t)};
    }

    /** writev returns early when processing fails and leaves its slot behind. */
    method TryReturnWritev(t: Thread, process: DataArgs -> Result<int>) returns (r: Result<int>)
      modifies this
      ensures (Writing, t) in old(slots) ==>
                && slots == Next(old(slots), Leave(t, Writev, process(old(slots)[(Writing, t)]).Ok?))
                && (r.Err? <==> old(slots)[(Writing, t)].sockEvent && process(old(slots)[(Writing, t)]).Err?)
                && (r.Ok? ==> r == Ok(0))
      ensures (Writing, t) !in old(slots) ==> slots == old(slots) && r.Err?
    {
      if (Writing, t) !in slots { return Err; }
      var args := slots[(Writing, t)];
      if args.sockEvent {
        var res := process(args);
        if res.Err? { return Err; }
      }
      slots := slots - {(Writing, t)};
      return Ok(0);
    }
  }

  // ---------------------------------------------------------------------------
  // The gate

  /** A stretch in which nothing but hooks touches one place. */
  ghost predicate Inside(trace: seq<Event>, at: (Side, Thread)) {
    forall i :: 0 <= i < |trace| && Place(trace[i]) == at ==> trace[i].Hook?
  }

  ghost predicate Hooked(trace: seq<Event>, at: (Side, Thread)) {
    exists i :: 0 <= i < |trace| && trace[i].Hook? && Place(trace[i]) == at
  }

  lemma {:induction false} SlotInside(m: Slots, trace: seq<Event>, at: (Side, Thread))
    requires at in m && Inside(trace, at)
    ensures var m' := Run(m, trace); at in m' && m'[at] == m[at].(sockEvent := m[at].sockEvent || Hooked(trace, at))
    decreases |trace|
  {
    if trace == [] {
    } else {
      var rest := trace[1..];
      assert Inside(rest, at);
      SlotInside(Next(m, trace[0]), rest, at);
      if Hooked(rest, at) {
        var i :| 0 <= i < |rest| && rest[i].Hook? && Place(rest[i]) == at;
        assert trace[i + 1] == rest[i];
      }
      if Hooked(trace, at) && !(trace[0].Hook? && Place(trace[0]) == at) {
        var i :| 0 <= i < |trace| && trace[i].Hook? && Place(trace[i]) == at;
        assert rest[i - 1] == trace[i];
      }
    }
  }

  /**
   Socket gate: in every trace, the return of a read, readv or writev processes data if and only if
   its own thread's hook fired since its own entry, and then it works on that entry's arguments.
   Whatever stood in the slot before the entry, such as the remains of a failed writev, does not matter.
   */
  lemma GateExact(trace: seq<Event>, i: nat, j: nat)
    requires i < j < |trace| && trace[i].Enter? && trace[j].Leave?
    requires trace[i].t == trace[j].t && trace[i].call == trace[j].call
    requires Inside(trace[i + 1..j], Place(trace[j]))
    ensures Processes(Run(map[], trace[..j]), trace[j]) <==> Hooked(trace[i + 1..j], Place(trace[j]))
    ensures var m := Run(map[], trace[..j]);
            && Place(trace[j]) in m
            && m[Place(trace[j])].(sockEvent := false) == DataArgs(Some(trace[i].call), trace[i].fd, false)
  {
    Traces.OneMore(Next, map[], trace, i);
    Traces.Stretch(Next, map[], trace, i + 1, j);
    SlotInside(Run(map[], trace[..i + 1]), trace[i + 1..j], Place(trace[j]));
  }

  /** The hook of `security_socket_sendmsg` is for writev, that of `security_socket_recvmsg` for read and readv. */
  predicate HookFor(e: Event, t: Thread, call: Syscall) {
    e == Hook(t, match call case Writev => Writing case Read => Reading case Readv => Reading)
  }

  /** The same with the hooks by name: a writev waits for the sending side, read and readv for the receiving side. */
  lemma GateBySide(trace: seq<Event>, i: nat, j: nat)
    requires i < j < |trace| && trace[i].Enter? && trace[j].Leave?
    requires trace[i].t == trace[j].t && trace[i].call == trace[j].call
    requires Inside(trace[i + 1..j], Place(trace[j]))
    ensures Processes(Run(map[], trace[..j]), trace[j]) <==>
            exists l :: i < l < j && HookFor(trace[l], trace[j].t, trace[j].call)
  {
    GateExact(trace, i, j);
    var between := trace[i + 1..j];
    if Hooked(between, Place(trace[j])) {
      var l :| 0 <= l < |between| && between[l].Hook? && Place(between[l]) == Place(trace[j]);
      assert HookFor(trace[i + 1 + l], trace[j].t, trace[j].call);
    }
    if l :| i < l < j && HookFor(trace[l], trace[j].t, trace[j].call) {
      assert between[l - i - 1] == trace[l];
    }
  }

  /**
   Stale slots: the return of a read, readv or writev leaves its slot behind if and only if it is a
   writev that processed data and failed.
   */
  lemma SlotSurvives(trace: seq<Event>, i: nat, j: nat)
    requires i < j < |trace| && trace[i].Enter? && trace[j].Leave?
    requires trace[i].t == trace[j].t && trace[i].call == trace[j].call
    requires Inside(trace[i + 1..j], Place(trace[j]))
    ensures Place(trace[j]) in Run(map[], trace[..j + 1]) <==>
            trace[j].call == Writev && Hooked(trace[i + 1..j], Place(trace[j])) && !trace[j].processOk
  {
    GateExact(trace, i, j);
    Traces.OneMore(Next, map[], trace, j);
  }

  /** A place without a slot stays without one while only hooks come by. */
  lemma {:induction false} NoSlotInside(m: Slots, trace: seq<Event>, at: (Side, Thread))
    requires at !in m && Inside(trace, at)
    ensures at !in Run(m, trace)
    decreases |trace|
  {
    if trace == [] {
    } else {
      assert Inside(trace[1..], at);
      NoSlotInside(Next(m, trace[0]), trace[1..], at);
    }
  }

  /**
   A later return `l` whose own entry probe did not fire, with nothing but hooks at its place since the
   return `j`, processes data if and only if `j` was a writev that processed data and failed. It is
   then data under the arguments of the old call.
   */
  lemma OrphanReturn(trace: seq<Event>, i: nat, j: nat, l: nat)
    requires i < j < l < |trace| && trace[i].Enter? && trace[j].Leave? && trace[l].Leave?
    requires trace[i].t == trace[j].t && trace[i].call == trace[j].call
    requires Place(trace[l]) == Place(trace[j])
    requires Inside(trace[i + 1..j], Place(trace[j])) && Inside(trace[j + 1..l], Place(trace[j]))
    ensures Processes(Run(map[], trace[..l]), trace[l]) <==>
            trace[j].call == Writev && Hooked(trace[i + 1..j], Place(trace[j])) && !trace[j].processOk
    ensures var m := Run(map[], trace[..l]);
            Processes(m, trace[l]) ==> m[Place(trace[l])] == DataArgs(Some(Writev), trace[i].fd, true)
  {
    var at := Place(trace[j]);
    GateExact(trace, i, j);
    SlotSurvives(trace, i, j);
    Traces.OneMore(Next, map[], trace, j);
    Traces.Stretch(Next, map[], trace, j + 1, l);
    var m := Run(map[], trace[..j + 1]);
    if at in m { SlotInside(m, trace[j + 1..l], at); } else { NoSlotInside(m, trace[j + 1..l], at); }
  }

  /** Such a trace. */
  lemma StaleSlotProcesses(t: Thread, fd: int)
    ensures var trace := [Enter(t, Writev, fd), Hook(t, Writing), Leave(t, Writev, false), Leave(t, Writev, true)];
            Processes(Run(map[], trace[..3]), trace[3])
  {
    var trace := [Enter(t, Writev, fd), Hook(t, Writing), Leave(t, Writev, false), Leave(t, Writev, true)];
    assert trace[1..2][0] == trace[1];
    OrphanReturn(trace, 0, 2, 3);
  }
}
