/**
 Loading and unloading the service map: the program manager's requests, the tasks loads spawn, and
 the program's own state, as one state machine. Requests come one at a time; an unload is four
 steps, since it waits for its task, and tasks and the metrics collector run in between.
 */
module Lifecycle {
  import opened Common
  import opened ConnTracer
  import opened ServiceMap

  /** Where a spawned task is: not yet run, in its select loop, between the two halves of a poll, or finished. */
  datatype Phase = Spawned | Listening | Polling(stale: seq<ConnectionKey>) | Done

  /** `signalled` says that its receiver holds a shutdown signal for the program. */
  datatype Task = Task(phase: Phase, signalled: bool)

  /** What the manager is in the middle of. */
  datatype Request = Idle | Loading | Reset | Sent | Awaiting(task: Option<nat>)

  datatype System = System(inner: Inner, tasks: map<nat, Task>, handle: Option<nat>, next: nat, request: Request)

  const START: System := System(FRESH, map[], None, 0, Idle)

  datatype Step =
    | PreLoad(metadata: map<string, string>, mgr: CacheHandle, maps: map<string, u32>, pin: Option<Entries>)
    | Load
    | UnloadStop
    | UnloadSend(others: bool)       // others: somebody else listens on the broadcast channel too
    | UnloadTake
    | UnloadFinish
    | TaskStart(id: nat)
    | TaskPoll(id: nat, ok: bool, stale: seq<ConnectionKey>)
    | TaskFold(id: nat, at: Lookups)
    | TaskShutdown(id: nat)
    | CollectorFold(stale: seq<ConnectionKey>, at: Lookups)

  predicate Live(s: System, id: nat) { id in s.tasks && s.tasks[id].phase != Done }

  predicate InPhase(s: System, id: nat, p: Phase) { id in s.tasks && s.tasks[id].phase == p }

  function SetPhase(s: System, id: nat, p: Phase): System
    requires id in s.tasks
  {
    s.(tasks := s.tasks[id := s.tasks[id].(phase := p)])
  }

  function Signal(tasks: map<nat, Task>): map<nat, Task> { map id | id in tasks :: tasks[id].(signalled := true) }

  /** The second half of a poll; without the map it has no effect. */
  ghost function FoldInto(i: Inner, stale: seq<ConnectionKey>, at: Lookups): Inner {
    if i.current.None? then i
    else i.(current := Some(Without(i.current.value, stale)),
            past := Credit(i.past, Picked(i.current.value, stale), ResolverOf(at)))
  }

  /** One step; a step that is not enabled changes nothing. */
  ghost function Next(s: System, step: Step): System {
    match step
    case PreLoad(metadata, mgr, maps, pin) =>
      if s.request != Idle then s
      else if s.inner.state != Uninitialized then s.(request := Loading)
      else
        var (inner, ok) := Opened(s.inner, metadata, mgr, maps, pin);
        if ok then s.(inner := inner.(state := Initialized), request := Loading) else s.(inner := inner)
    case Load =>
      if s.request != Loading then s
      else if s.inner.state != Initialized then s.(request := Idle)
      else s.(tasks := s.tasks[s.next := Task(Spawned, false)], handle := Some(s.next), next := s.next + 1,
              request := Idle)
    case UnloadStop =>
      if s.request != Idle then s else s.(inner := Cleared(s.inner), request := Reset)
    case UnloadSend(others) =>
      if s.request != Reset then s
      else if others || exists id :: Live(s, id) then s.(tasks := Signal(s.tasks), request := Sent)
      else s.(request := Idle)
    case UnloadTake =>
      if s.request != Sent then s else s.(handle := None, request := Awaiting(s.handle))
    case UnloadFinish =>
      if !s.request.Awaiting? || (s.request.task.Some? && Live(s, s.request.task.value)) then s
      else s.(inner := s.inner.(state := Uninitialized), request := Idle)
    case TaskStart(id) =>
      if !InPhase(s, id, Spawned) then s
      else SetPhase(s.(inner := s.inner.(state := Running)), id, Listening)
    case TaskPoll(id, ok, stale) =>
      if !InPhase(s, id, Listening) then s
      else if ok && s.inner.current.Some? && s.inner.cacheMgr.Some?
      then SetPhase(s, id, Polling(stale))
      else SetPhase(s.(inner := s.inner.(state := Failed)), id, Done)
    case TaskFold(id, at) =>
      if id !in s.tasks || !s.tasks[id].phase.Polling? then s
      else
        var p := s.tasks[id].phase;
        if s.inner.current.None? && p.stale != [] then SetPhase(s, id, Done)
        else SetPhase(s.(inner := FoldInto(s.inner, p.stale, at)), id, Listening)
    case TaskShutdown(id) =>
      if !InPhase(s, id, Listening) || !s.tasks[id].signalled then s
      else SetPhase(s.(inner := s.inner.(state := Stopped)), id, Done)
    case CollectorFold(stale, at) =>
      s.(inner := FoldInto(s.inner, stale, at))
  }

  ghost function Run(s: System, run: seq<Step>): System
    decreases |run|
  {
    if run == [] then s else Run(Next(s, run[0]), run[1..])
  }

  // ---------------------------------------------------------------------------
  // The program manager and its tasks

  /** `request` is the point the current request has reached; requests are serial. */
  class ProgManager {
    const prog: ServiceMap
    var tasks: map<nat, Task>
    var handle: Option<nat>
    var next: nat
    var request: Request

    ghost function View(): System reads this, prog { System(prog.View(), tasks, handle, next, request) }

    constructor ()
      ensures View() == START && fresh(prog)
    {
      prog := new ServiceMap();
      tasks, handle, next, request := map[], None, 0, Idle;
    }

    method DoPreLoad(metadata: map<string, string>, mgr: CacheHandle, maps: map<string, u32>, pin: Option<Entries>)
      returns (r: Result<()>)
      requires request == Idle
      modifies this`request, prog
      ensures View() == Next(old(View()), PreLoad(metadata, mgr, maps, pin))
      ensures r.Ok? <==> request == Loading
    {
      if prog.state == Uninitialized {
        var started := prog.Init(metadata, mgr, maps, pin);
        if started.Err? { return Err; }
        prog.state := Initialized;
      }
      request := Loading;
      return Ok(());
    }

    /** Only an initialised program is spawned; an older handle is overwritten. */
    method DoLoad() returns (r: Result<()>)
      requires request == Loading
      modifies this
      ensures View() == Next(old(View()), Load)
      ensures r.Ok? <==> prog.state == Initialized
    {
      request := Idle;
      if prog.state != Initialized { return Err; }
      tasks := tasks[next := Task(Spawned, false)];
      handle := Some(next);
      next := next + 1;
      return Ok(());
    }

    /** `program.stop()`. */
    method DoUnloadStop()
      requires request == Idle
      modifies this`request, prog
      ensures View() == Next(old(View()), UnloadStop)
    {
      prog.Reset();
      request := Reset;
    }

    /** Sending fails when nobody listens: no task is left and no server either. */
    method DoUnloadSend(others: bool) returns (r: Result<()>)
      requires request == Reset
      modifies this`tasks, this`request
      ensures View() == Next(old(View()), UnloadSend(others))
      ensures r.Ok? <==> request == Sent
    {
      assert forall id :: Live(View(), id) <==> id in tasks && tasks[id].phase != Done;
      if !others && forall id :: id in tasks ==> tasks[id].phase == Done {
        request := Idle;
        return Err;
      }
      tasks := map id | id in tasks :: tasks[id].(signalled := true);
      request := Sent;
      return Ok(());
    }

    method DoUnloadTake()
      requires request == Sent
      modifies this`handle, this`request
      ensures View() == Next(old(View()), UnloadTake)
    {
      request := Awaiting(handle);
      handle := None;
    }

    /** Reached when the awaited task is done, however it ended. */
    method DoUnloadFinish()
      requires request.Awaiting?
      requires request.task.Some? ==> !Live(View(), request.task.value)
      modifies this`request, prog
      ensures View() == Next(old(View()), UnloadFinish)
    {
      prog.state := Uninitialized;
      request := Idle;
    }

    method DoTaskStart(id: nat)
      requires id in tasks && tasks[id].phase == Spawned
      modifies this`tasks, prog
      ensures View() == Next(old(View()), TaskStart(id))
    {
      prog.state := Running;
      tasks := tasks[id := tasks[id].(phase := Listening)];
    }

    /** A tick: the first half of a poll. An error ends its task. */
    method DoTaskPoll(id: nat, broken: set<ConnectionKey>, at: Lookups) returns (ok: bool, stale: seq<ConnectionKey>)
      requires id in tasks && tasks[id].phase == Listening
      modifies this`tasks, prog
      ensures View() == Next(old(View()), TaskPoll(id, ok, stale))
      ensures ok ==> old(prog.current).Some? && forall k :: k in stale <==> k in InactiveOf(old(prog.current).value)
    {
      var s := prog.TakeSnapshot(broken, at);
      match s {
        case Ok(snap) =>
          tasks := tasks[id := tasks[id].(phase := Polling(snap.stale))];
          return true, snap.stale;
        case Err =>
          prog.state := Failed;
          tasks := tasks[id := tasks[id].(phase := Done)];
          return false, [];
      }
    }

    /** The second half. A reset since the first half makes it panic, which ends its task. */
    method DoTaskFold(id: nat, at: Lookups)
      requires id in tasks && tasks[id].phase.Polling?
      modifies this`tasks, prog
      ensures View() == Next(old(View()), TaskFold(id, at))
    {
      var p := tasks[id].phase;
      var outcome := prog.FoldInactive(p.stale, at);
      assert prog.View() == FoldInto(old(prog.View()), p.stale, at);
      tasks := tasks[id := tasks[id].(phase := if outcome.Panicked? then Done else Listening)];
    }

    method DoTaskShutdown(id: nat)
      requires id in tasks && tasks[id].phase == Listening && tasks[id].signalled
      modifies this`tasks, prog
      ensures View() == Next(old(View()), TaskShutdown(id))
    {
      prog.state := Stopped;
      tasks := tasks[id := tasks[id].(phase := Done)];
    }
  }

  // ---------------------------------------------------------------------------
  // What every step keeps

  ghost predicate AtMostOne(s: System) { forall a, b :: Live(s, a) && Live(s, b) ==> a == b }

  /** The manager holds, or is waiting for, every task that is alive. */
  ghost predicate Held(s: System) {
    && (forall id :: id in s.tasks ==> id < s.next)
    && (forall id: nat :: Live(s, id) ==> s.handle == Some(id) || s.request == Awaiting(Some(id)))
  }

  /** The state tells whether a task is alive: one that has not run leaves it Initialized, one that has, Running. */
  ghost predicate StateTells(s: System) {
    forall id :: Live(s, id) ==> s.inner.state == if s.tasks[id].phase == Spawned then Initialized else Running
  }

  /** From the reset on, an unload finds the program's data gone, and it stays gone. */
  ghost predicate Emptied(s: System) {
    && (s.request.Reset? || s.request.Sent? || s.request.Awaiting? ==> s.inner == Cleared(s.inner))
    && (s.request.Awaiting? ==> s.handle.None?)
  }

  ghost predicate Inv(s: System) { AtMostOne(s) && Held(s) && StateTells(s) && Emptied(s) }

  /** A load that comes before the last one's task has taken its first step. */
  ghost predicate Hasty(s: System, step: Step) {
    step.Load? && s.request.Loading? && exists id :: InPhase(s, id, Spawned)
  }

  lemma {:induction false} LiveBefore(s: System, step: Step, id: nat)
    requires Live(Next(s, step), id)
    ensures Live(s, id) || (step.Load? && id == s.next && s.request.Loading? && s.inner.state == Initialized)
  {
  }

  /** A load that spawns finds no task alive, and the manager's steps leave the state of a live task's program alone. */
  lemma {:induction false} ManagerStep(s: System, step: Step)
    requires Inv(s) && !Hasty(s, step)
    requires !(step.TaskStart? || step.TaskPoll? || step.TaskFold? || step.TaskShutdown?)
    ensures Inv(Next(s, step))
  {
    var s' := Next(s, step);
    forall id: nat | Live(s, id)
      ensures step.Load? && s.request.Loading? ==> s.inner.state != Initialized
      ensures step.UnloadFinish? && s.request.Awaiting? ==> s.request.task == Some(id)
    {
      if s.inner.state == Initialized { assert InPhase(s, id, Spawned); }
    }
    forall id: nat | Live(s', id) ensures Live(s, id) || (step.Load? && id == s.next) { LiveBefore(s, step, id); }
  }

  /** A step of the one live task. */
  lemma {:induction false} TaskStep(s: System, step: Step)
    requires Inv(s)
    requires step.TaskStart? || step.TaskPoll? || step.TaskFold? || step.TaskShutdown?
    ensures Inv(Next(s, step))
  {
    var s' := Next(s, step);
    forall id: nat | Live(s', id) ensures Live(s, id) { LiveBefore(s, step, id); }
    if Live(s, step.id) {
      assert forall id: nat :: Live(s', id) ==> id == step.id;
    } else {
      assert s' == s;
    }
  }

  lemma {:induction false} InvStep(s: System, step: Step)
    requires Inv(s) && !Hasty(s, step)
    ensures Inv(Next(s, step))
  {
    if step.TaskStart? || step.TaskPoll? || step.TaskFold? || step.TaskShutdown? {
      TaskStep(s, step);
    } else {
      ManagerStep(s, step);
    }
  }

  /** A hasty load spawns a second task. */
  lemma {:induction false} HastySpawnsTwo(s: System, step: Step)
    requires Inv(s) && Hasty(s, step)
    ensures !AtMostOne(Next(s, step))
  {
    var id :| InPhase(s, id, Spawned);
    assert Live(s, id);
    assert Live(Next(s, step), id) && Live(Next(s, step), s.next);
  }

  // ---------------------------------------------------------------------------
  // Runs

  /** Every task takes its first step before the next load. */
  ghost predicate Unhurried(s: System, run: seq<Step>)
    decreases |run|
  {
    run == [] || (!Hasty(s, run[0]) && Unhurried(Next(s, run[0]), run[1..]))
  }

  /** At most one task is alive at every moment of the run. */
  ghost predicate AlwaysAtMostOne(s: System, run: seq<Step>)
    decreases |run|
  {
    AtMostOne(s) && (run == [] || AlwaysAtMostOne(Next(s, run[0]), run[1..]))
  }

  /**
   At most one task is ever alive if and only if every task takes its first step before the next
   load.
   */
  lemma {:induction false} OneTaskExactly(s: System, run: seq<Step>)
    requires Inv(s)
    ensures AlwaysAtMostOne(s, run) <==> Unhurried(s, run)
    decreases |run|
  {
    if run == [] {
    } else {
      if Hasty(s, run[0]) {
        HastySpawnsTwo(s, run[0]);
      } else {
        InvStep(s, run[0]);
        OneTaskExactly(Next(s, run[0]), run[1..]);
      }
    }
  }

  lemma {:induction false} InvRun(s: System, run: seq<Step>)
    requires Inv(s) && Unhurried(s, run)
    ensures Inv(Run(s, run))
    decreases |run|
  {
    if run == [] {
    } else {
      InvStep(s, run[0]);
      InvRun(Next(s, run[0]), run[1..]);
    }
  }

  /** Unload has just returned successfully. */
  ghost predicate Unloads(s: System, step: Step) { step.UnloadFinish? && Next(s, step) != s }

  /**
   Lifecycle: in every unhurried run at most one task is alive throughout; and when an unload
   returns successfully no task is alive, no handle is kept, and the program is as new except that
   it keeps its cache manager.
   */
  lemma {:induction false} Lifecycle(run: seq<Step>, step: Step)
    requires Unhurried(START, run)
    ensures AlwaysAtMostOne(START, run)
    ensures var s := Run(START, run); Unloads(s, step) ==>
              var s' := Next(s, step);
              && (forall id: nat :: !Live(s', id))
              && s'.handle.None? && s'.request.Idle?
              && s'.inner == FRESH.(cacheMgr := s'.inner.cacheMgr)
  {
    OneTaskExactly(START, run);
    InvRun(START, run);
    var s := Run(START, run);
    if Unloads(s, step) {
      forall id: nat ensures !Live(Next(s, step), id) {
        assert Live(Next(s, step), id) ==> Live(s, id);
      }
    }
  }

  /** Two loads in a row, before the first task runs, leave two tasks alive and one handle. */
  lemma {:induction false} TwoLoadsTwoTasks(mgr: CacheHandle, pin: Entries)
    ensures var load := PreLoad(map[], mgr, map["CONNECTIONS" := 1], Some(pin));
            var s := Run(START, [load, Load, load, Load]);
            && s.tasks == map[0 := Task(Spawned, false), 1 := Task(Spawned, false)] && s.handle == Some(1)
            && s.request.Idle? && s.inner.state == Initialized
  {
    var load := PreLoad(map[], mgr, map["CONNECTIONS" := 1], Some(pin));
    var run := [load, Load, load, Load];
    var s1 := Next(START, load);
    var s2 := Next(s1, Load);
    var s3 := Next(s2, load);
    var s4 := Next(s3, Load);
    assert run[1..] == [Load, load, Load] && run[1..][1..] == [load, Load];
    assert [load, Load][1..] == [Load] && [Load][1..] == [];
    assert Run(s2, [load, Load]) == Run(s3, [Load]) == Run(s4, []) == s4;
    assert Run(START, run) == Run(s1, run[1..]) == Run(s2, [load, Load]);
  }

  // ---------------------------------------------------------------------------
  // Unload in arbitrary runs

  /** A load that spawns while the task of the last one is alive; the handle of that task is overwritten. */
  ghost predicate Overwrites(s: System, step: Step, id: nat) {
    step.Load? && s.request.Loading? && s.inner.state == Initialized && s.handle == Some(id) && Live(s, id)
  }

  /** Some load of the run overwrites the task. */
  ghost predicate OverwrittenIn(s: System, run: seq<Step>, id: nat)
    decreases |run|
  {
    run != [] && (Overwrites(s, run[0], id) || OverwrittenIn(Next(s, run[0]), run[1..], id))
  }

  /** A live task that nobody holds or waits for. */
  ghost predicate Forgotten(s: System, id: nat) {
    Live(s, id) && s.handle != Some(id) && s.request != Awaiting(Some(id))
  }

  /** What holds in every run, hasty or not. */
  ghost predicate Loose(s: System) { (forall id :: id in s.tasks ==> id < s.next) && Emptied(s) }

  lemma {:induction false} LooseStep(s: System, step: Step)
    requires Loose(s)
    ensures Loose(Next(s, step)) && s.next <= Next(s, step).next
  {
  }

  lemma {:induction false} ForgottenStep(s: System, step: Step, id: nat)
    requires Loose(s)
    ensures Forgotten(Next(s, step), id) <==>
            Live(Next(s, step), id) && (Forgotten(s, id) || Overwrites(s, step, id))
  {
    if Live(Next(s, step), id) { LiveBefore(s, step, id); }
  }

  /** A task that is over stays over. */
  lemma {:induction false} LiveThroughout(s: System, run: seq<Step>, id: nat)
    requires Loose(s) && id < s.next && Live(Run(s, run), id)
    ensures Live(s, id)
    decreases |run|
  {
    if run == [] {
    } else {
      LooseStep(s, run[0]);
      LiveThroughout(Next(s, run[0]), run[1..], id);
      LiveBefore(s, run[0], id);
    }
  }

  lemma {:induction false} ForgottenRun(s: System, run: seq<Step>, id: nat)
    requires Loose(s)
    ensures Loose(Run(s, run))
    ensures Forgotten(Run(s, run), id) <==> Live(Run(s, run), id) && (Forgotten(s, id) || OverwrittenIn(s, run, id))
    decreases |run|
  {
    if run == [] {
    } else {
      var s' := Next(s, run[0]);
      LooseStep(s, run[0]);
      ForgottenStep(s, run[0], id);
      ForgottenRun(s', run[1..], id);
      if Live(Run(s, run), id) && (Forgotten(s, id) || Overwrites(s, run[0], id)) {
        LiveThroughout(s', run[1..], id);
      }
    }
  }

  /**
   Unload in any run, with loads as hasty as they may be: when it returns successfully the handle is
   gone, the program is as new except for its cache manager, and the tasks still alive are exactly
   those alive ones that some load overwrote. So it leaves no task if and only if every task a load
   overwrote is over by then.
   */
  lemma {:induction false} UnloadLeaves(run: seq<Step>, step: Step)
    requires Unloads(Run(START, run), step)
    ensures var s := Run(START, run);
            var s' := Next(s, step);
            && s'.handle.None? && s'.inner == FRESH.(cacheMgr := s'.inner.cacheMgr)
            && (forall id: nat :: Live(s', id) <==> Live(s, id) && OverwrittenIn(START, run, id))
            && ((forall id: nat :: !Live(s', id)) <==> forall id: nat :: OverwrittenIn(START, run, id) ==> !Live(s, id))
  {
    var s := Run(START, run);
    var s' := Next(s, step);
    ForgottenRun(START, run, 0);
    forall id: nat ensures Live(s', id) <==> Live(s, id) && OverwrittenIn(START, run, id) {
      ForgottenRun(START, run, id);
      assert Live(s', id) <==> Live(s, id);
      assert Live(s, id) ==> Forgotten(s, id);
    }
  }

  /** A load request spawns a task if and only if the program is uninitialised and opens, or is initialised. */
  lemma {:induction false} LoadSpawns(
    s: System, metadata: map<string, string>, mgr: CacheHandle, maps: map<string, u32>, pin: Option<Entries>)
    requires s.request.Idle?
    ensures var s' := Next(Next(s, PreLoad(metadata, mgr, maps, pin)), Load);
            s'.next == s.next + 1 <==>
            || s.inner.state == Initialized
            || (s.inner.state == Uninitialized && "CONNECTIONS" in maps && pin.Some?)
  {
  }

  lemma {:induction false} RunMore(s: System, run: seq<Step>, step: Step)
    ensures Run(s, run + [step]) == Next(Run(s, run), step)
    decreases |run|
  {
    if run == [] {
      assert ([step])[1..] == [];
    } else {
      assert (run + [step])[1..] == run[1..] + [step];
      RunMore(Next(s, run[0]), run[1..], step);
    }
  }

  lemma {:induction false} RunMore3(s: System, run: seq<Step>, a: Step, b: Step, c: Step)
    ensures Run(s, run + [a, b, c]) == Next(Next(Next(Run(s, run), a), b), c)
  {
    RunMore(s, run, a);
    RunMore(s, run + [a], b);
    RunMore(s, run + [a] + [b], c);
    assert run + [a] + [b] + [c] == run + [a, b, c];
  }

  /** The first half of an unload with two tasks that have not run: both are signalled, one is waited for. */
  lemma {:induction false} SignalsBoth(s: System)
    requires s.tasks == map[0 := Task(Spawned, false), 1 := Task(Spawned, false)]
    requires s.handle == Some(1) && s.request.Idle?
    ensures var s' := Next(Next(Next(s, UnloadStop), UnloadSend(false)), UnloadTake);
            && s'.tasks == map[0 := Task(Spawned, true), 1 := Task(Spawned, true)] && s'.handle.None?
            && s'.request == Awaiting(Some(1))
  {
    assert Live(Next(s, UnloadStop), 0);
  }

  /** The second half: the one waited for runs and stops. */
  lemma {:induction false} FinishesOne(s: System)
    requires s.tasks == map[0 := Task(Spawned, true), 1 := Task(Spawned, true)]
    requires s.handle.None? && s.request == Awaiting(Some(1))
    ensures var s' := Next(Next(Next(s, TaskStart(1)), TaskShutdown(1)), UnloadFinish);
            && s'.tasks == map[0 := Task(Spawned, true), 1 := Task(Done, true)] && s'.handle.None?
            && s'.request.Idle? && s'.inner.state == Uninitialized
  {
  }

  /** After two quick loads, an unload returns while the first task is still alive. */
  lemma {:induction false} UnloadMisses(mgr: CacheHandle, pin: Entries) returns (run: seq<Step>)
    ensures var s := Run(START, run);
            && s.tasks == map[0 := Task(Spawned, true), 1 := Task(Done, true)] && s.handle.None?
            && s.request.Idle? && s.inner.state == Uninitialized
  {
    var load := PreLoad(map[], mgr, map["CONNECTIONS" := 1], Some(pin));
    TwoLoadsTwoTasks(mgr, pin);
    run := [load, Load, load, Load];
    SignalsBoth(Run(START, run));
    RunMore3(START, run, UnloadStop, UnloadSend(false), UnloadTake);
    run := run + [UnloadStop, UnloadSend(false), UnloadTake];
    FinishesOne(Run(START, run));
    RunMore3(START, run, TaskStart(1), TaskShutdown(1), UnloadFinish);
    run := run + [TaskStart(1), TaskShutdown(1), UnloadFinish];
  }

  /** When that task then runs and stops, the program refuses the next load, though no task is alive. */
  lemma {:induction false} LateTaskBlocks(mgr: CacheHandle, pin: Entries) returns (run: seq<Step>)
    ensures var s := Run(START, run);
            && (forall id :: !Live(s, id)) && s.request.Idle? && s.inner.state == Stopped
            && Next(Next(s, PreLoad(map[], mgr, map["CONNECTIONS" := 1], Some(pin))), Load).tasks == s.tasks
  {
    run := UnloadMisses(mgr, pin);
    RunMore(START, run, TaskStart(0));
    run := run + [TaskStart(0)];
    RunMore(START, run, TaskShutdown(0));
    run := run + [TaskShutdown(0)];
  }

  // ---------------------------------------------------------------------------
  // From a load to its polls

  /** The program has its map and its cache manager, which is all a poll needs. */
  ghost predicate Equipped(s: System) { s.inner.current.Some? && s.inner.cacheMgr.Some? }

  ghost predicate HoldsSpawned(s: System, task: Option<nat>) { task.Some? && InPhase(s, task.value, Spawned) }

  /** An initialised program has its map, unless it is being unloaded, and its task has not run yet. */
  ghost predicate Ready(s: System) {
    s.inner.state == Initialized ==>
      match s.request
      case Loading => Equipped(s)
      case Idle => Equipped(s) && HoldsSpawned(s, s.handle)
      case Reset => HoldsSpawned(s, s.handle)
      case Sent => HoldsSpawned(s, s.handle)
      case Awaiting(task) => HoldsSpawned(s, task)
  }

  lemma {:induction false} ReadyStep(s: System, step: Step)
    requires Ready(s) && Loose(s)
    ensures Ready(Next(s, step))
  {
    if step.UnloadSend? && s.request.Reset? && s.inner.state == Initialized { assert Live(s, s.handle.value); }
  }

  lemma {:induction false} ReadyRun(s: System, run: seq<Step>)
    requires Ready(s) && Loose(s)
    ensures Ready(Run(s, run)) && Loose(Run(s, run))
    decreases |run|
  {
    if run == [] {
    } else {
      ReadyStep(s, run[0]);
      LooseStep(s, run[0]);
      ReadyRun(Next(s, run[0]), run[1..]);
    }
  }

  /** A task at work: its program is equipped, and nobody has asked it to stop. */
  ghost predicate Serving(s: System, id: nat) {
    Equipped(s) && Live(s, id) && !s.tasks[id].signalled && (s.request.Idle? || s.request.Loading?) && Loose(s)
  }

  /** Nobody unloads, and every read of the task's own polls succeeds. */
  ghost predicate Smooth(step: Step, id: nat) {
    !step.UnloadStop? && (step.TaskPoll? && step.id == id ==> step.ok)
  }

  lemma {:induction false} ServingStep(s: System, step: Step, id: nat)
    requires Serving(s, id) && Smooth(step, id)
    ensures Serving(Next(s, step), id)
  {
    LooseStep(s, step);
  }

  lemma {:induction false} ServingRun(s: System, run: seq<Step>, id: nat)
    requires Serving(s, id) && forall step :: step in run ==> Smooth(step, id)
    ensures Serving(Run(s, run), id)
    decreases |run|
  {
    if run == [] {
    } else {
      ServingStep(s, run[0], id);
      ServingRun(Next(s, run[0]), run[1..], id);
    }
  }

  /**
   In every run, hasty or not: from a load that spawns until the next unload begins, the program has
   its map and its cache manager, and the task spawned stays alive as long as the reads of its own
   polls succeed, whatever the other tasks and the collector do.
   */
  lemma {:induction false} LoadedStaysAlive(run: seq<Step>, rest: seq<Step>)
    requires Run(START, run).request.Loading? && Run(START, run).inner.state == Initialized
    requires forall step :: step in rest ==> Smooth(step, Run(START, run).next)
    ensures var s := Run(START, run);
            var s' := Run(Next(s, Load), rest);
            s'.inner.current.Some? && s'.inner.cacheMgr.Some? && Live(s', s.next)
  {
    var s := Run(START, run);
    ReadyRun(START, run);
    LooseStep(s, Load);
    assert Serving(Next(s, Load), s.next);
    ServingRun(Next(s, Load), rest, s.next);
  }

  /** A poll whose reads fail ends its task, leaves the program failed, and changes nothing else in it. */
  lemma {:induction false} FailedPollEnds(s: System, id: nat, stale: seq<ConnectionKey>)
    requires InPhase(s, id, Listening)
    ensures var s' := Next(s, TaskPoll(id, false, stale)); !Live(s', id) && s'.inner == s.inner.(state := Failed)
  {
  }

  /** A program that has run, stopped or failed refuses every load until an unload is through. */
  lemma {:induction false} RefusedUntilUnload(s: System, run: seq<Step>)
    requires s.inner.state in {Running, Stopped, Failed}
    requires forall step :: step in run ==> !step.UnloadFinish?
    ensures Run(s, run).inner.state in {Running, Stopped, Failed} && Run(s, run).next == s.next
    decreases |run|
  {
    if run == [] {
    } else {
      assert Next(s, run[0]).inner.state in {Running, Stopped, Failed} && Next(s, run[0]).next == s.next;
      RefusedUntilUnload(Next(s, run[0]), run[1..]);
    }
  }

  /** A reset between the two halves of a poll ends its task if and only if there was something to fold. */
  lemma {:induction false} ResetMidPoll(s: System, id: nat, stale: seq<ConnectionKey>, at: Lookups)
    requires InPhase(s, id, Listening) && Equipped(s) && s.request.Idle?
    ensures var s' := Next(Next(Next(s, TaskPoll(id, true, stale)), UnloadStop), TaskFold(id, at));
            && (Live(s', id) <==> stale == [])
            && s'.inner == Inner(s.inner.state, map[], map[], None, map[], s.inner.cacheMgr)
  {
  }

  /** The signal goes to every task there is, if anybody listens; otherwise the unload ends there. */
  lemma {:induction false} SignalReaches(s: System, others: bool)
    requires s.request.Reset?
    ensures var s' := Next(s, UnloadSend(others));
            && s'.inner == s.inner
            && (s'.request.Sent? <==> others || exists id :: Live(s, id))
            && (s'.request.Sent? ==> forall id :: id in s'.tasks ==> s'.tasks[id].signalled)
            && (!s'.request.Sent? ==> s'.request.Idle? && s'.tasks == s.tasks)
  {
  }
}
