/**
 The accept and accept4 probes. Entry and return probes of one system call find each other through
 `ACTIVE_ACCEPT_MAP`, keyed by thread; the `sock_alloc` probe fills in the socket in between.
 */
module AcceptProbes {
  import opened Common
  import Traces

  /** Thread and process id, as `bpf_get_current_pid_tgid` packs them. */
  type Thread = u64

  /** A pointer; 0 is null. */
  type Pointer = nat

  datatype AcceptArgs = AcceptArgs(sockaddr: Pointer, sock: Pointer)

  type Slots = map<Thread, AcceptArgs>

  /** One probe firing on a thread. accept and accept4 fire the same events. */
  datatype Event =
    | Entry(t: Thread, sockaddr: Pointer)
    | SockAlloc(t: Thread, sk: Pointer)
    | Return(t: Thread)

  function Next(m: Slots, e: Event): Slots {
    match e
    case Entry(t, sockaddr) => m[t := AcceptArgs(sockaddr, 0)]
    case SockAlloc(t, sk) => if t in m && m[t].sock == 0 then m[t := m[t].(sock := sk)] else m
    case Return(t) => m - {t}
  }

  function Run(m: Slots, trace: seq<Event>): Slots { Traces.After(Next, m, trace) }

  class AcceptMap {
    var slots: Slots

    constructor ()
      ensures slots == map[]
    {
      slots := map[];
    }

    method TryEntryAccept(t: Thread, sockaddr: Pointer) returns (r: Result<int>)
      modifies this
      ensures slots == Next(old(slots), Entry(t, sockaddr)) && r == Ok(0)
    {
      slots := slots[t := AcceptArgs(sockaddr, 0)];
      return Ok(0);
    }

    /** The first socket allocated wins; a null one leaves the slot open. */
    method TryRetSockAlloc(t: Thread, sk: Pointer) returns (r: Result<int>)
      modifies this
      ensures slots == Next(old(slots), SockAlloc(t, sk))
      ensures r == if t in old(slots) then Ok(0) else Err
    {
      if t !in slots { return Err; }
      if slots[t].sock == 0 {
        slots := slots[t := slots[t].(sock := sk)];
      }
      return Ok(0);
    }

    /** `process` stands for opening the record; the slot goes whether it succeeds or not. */
    method TryRetAccept(t: Thread, process: AcceptArgs -> Result<int>) returns (r: Result<int>)
      modifies this
      ensures slots == Next(old(slots), Return(t)) && t !in slots
      ensures r == if t in old(slots) then process(old(slots[t])) else Err
    {
      if t !in slots {
        assert slots == slots - {t};
        return Err;
      }
      r := process(slots[t]);
      slots := slots - {t};
    }
  }

  // ---------------------------------------------------------------------------
  // Matching

  /** The first non-null socket the thread allocates in a stretch of the trace; null if it allocates none. */
  function FirstSock(trace: seq<Event>, t: Thread): Pointer {
    if trace == [] then 0
    else if trace[0].SockAlloc? && trace[0].t == t && trace[0].sk != 0 then trace[0].sk
    else FirstSock(trace[1..], t)
  }

  /** A stretch in which the thread neither enters nor leaves accept. Other threads may do anything. */
  ghost predicate Inside(trace: seq<Event>, t: Thread) {
    forall i :: 0 <= i < |trace| && trace[i].t == t ==> trace[i].SockAlloc?
  }

  lemma {:induction false} SlotInside(m: Slots, trace: seq<Event>, t: Thread)
    requires t in m && Inside(trace, t)
    ensures var m' := Run(m, trace);
            t in m' && m'[t] == AcceptArgs(m[t].sockaddr, if m[t].sock != 0 then m[t].sock else FirstSock(trace, t))
    decreases |trace|
  {
    if trace == [] {
    } else {
      assert Inside(trace[1..], t);
      SlotInside(Next(m, trace[0]), trace[1..], t);
    }
  }

  /**
   Accept matching: in every trace, however threads interleave and whatever came before, the return
   of an accept finds its own entry's address and the first non-null socket its own thread allocated
   since that entry, and leaves the thread's slot empty.
   */
  lemma AcceptMatching(trace: seq<Event>, i: nat, j: nat, t: Thread)
    requires i < j < |trace| && trace[i].Entry? && trace[i].t == t && trace[j] == Return(t)
    requires Inside(trace[i + 1..j], t)
    ensures var m := Run(map[], trace[..j]);
            t in m && m[t] == AcceptArgs(trace[i].sockaddr, FirstSock(trace[i + 1..j], t))
    ensures t !in Run(map[], trace[..j + 1])
  {
    Traces.OneMore(Next, map[], trace, i);
    Traces.Stretch(Next, map[], trace, i + 1, j);
    SlotInside(Run(map[], trace[..i + 1]), trace[i + 1..j], t);
    Traces.OneMore(Next, map[], trace, j);
  }
}
