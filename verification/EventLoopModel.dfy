/** The event loop as a state machine.  A handler is named by its index.  What an event handler, a timeout
    handler or a scheduled function does is up to the client: any sequence of the operations that the
    event loop offers, on any handlers, each called as the source asks of its callers.

    Every function is total: a step that is not possible changes nothing.  `failed` records a CHECK that
    does not hold, or the use of a handler that has been deleted.  Times are in nanoseconds. */
module EventLoopModel {

  datatype Handler = Handler(
    registered: bool,  // event_loop_ is set
    deadline: int,
    refs: int,
    freed: bool,
    newborn: bool,     // no reference has been taken yet
    owned: nat,        // the references that clients hold
    touched: int)      // the time of the last Add or Refresh

  /** An epoll event: the pipe of scheduled functions, or a handler. */
  datatype Event = Pipe | On(h: nat, mask: int)

  datatype Pc =
    | Waiting                    // in epoll_wait
    | Dispatching                // at the head of the loop over the batch
    | InFunc                     // a scheduled function runs
    | InEvent(h: nat)            // h's OnEvent runs
    | Sweeping(sweep: Sweep)     // at the head of the loop over expired handlers
    | InTimeout(h: nat, sweep: Sweep)  // h's OnTimeout runs

  /** A pass over the expired handlers: when it started, the queue then, the handlers it has visited. */
  datatype Sweep = Sweep(start: int, queue: seq<nat>, visited: seq<nat>)

  /** A call of OnTimeout. */
  datatype Fire = Fire(h: nat, at: int, deadline: int, touched: int)

  datatype Loop = Loop(
    timeout: int, clock: int,
    hs: seq<Handler>,
    queue: seq<nat>,            // expire_, from head to tail
    interest: map<nat, int>,    // epoll's interest set, without the pipe
    pc: Pc,
    batch: seq<Event>,          // the events not yet dealt with; the first one is being dealt with
    waitedAt: int,              // when the last epoll_wait began
    fired: seq<Fire>,
    failed: bool)

  function NewLoop(timeout: int, clock: int): Loop {
    Loop(timeout, clock, [], [], map[], Waiting, [], clock, [], false)
  }

  const MILLISECOND := 1_000_000

  /** The time epoll_wait is told to wait (src/epoll.cc:59). */
  function CeilMs(t: int): int { (t + MILLISECOND - 1) / MILLISECOND * MILLISECOND }

  // ---------------------------------------------------------------------------------------------
  // EventHandler (src/event_loop.h:38-60)

  function IncRef(s: Loop, h: nat): Loop {
    if h >= |s.hs| || s.hs[h].freed || s.hs[h].refs < 0 then s.(failed := true)
    else s.(hs := s.hs[h := s.hs[h].(refs := s.hs[h].refs + 1, newborn := false)])
  }

  function DecRef(s: Loop, h: nat): Loop {
    if h >= |s.hs| || s.hs[h].freed || s.hs[h].refs <= 0 then s.(failed := true)
    else if s.hs[h].refs > 1 then s.(hs := s.hs[h := s.hs[h].(refs := s.hs[h].refs - 1)])
    else if s.hs[h].registered then s.(failed := true)
    else s.(hs := s.hs[h := s.hs[h].(refs := 0, freed := true)])
  }

  // ---------------------------------------------------------------------------------------------
  // EventLoop's operations (src/event_loop.cc:55-81, 130-140)

  /** The queue without h. */
  function Without(q: seq<nat>, h: nat): seq<nat> {
    if q == [] then [] else if q[0] == h then q[1..] else [q[0]] + Without(q[1..], h)
  }

  function Add(s: Loop, h: nat, mask: int): Loop {
    if h >= |s.hs| || s.hs[h].registered || h in s.queue || h in s.interest then s.(failed := true) else
    var s1 := IncRef(s, h);
    if s1.failed then s1 else
    s1.(hs := s1.hs[h := s1.hs[h].(registered := true, deadline := s.clock + s.timeout, touched := s.clock)],
        queue := s.queue + [h], interest := s.interest[h := mask])
  }

  function Remove(s: Loop, h: nat): Loop {
    if h >= |s.hs| || s.hs[h].freed || !s.hs[h].registered || h !in s.queue || h !in s.interest then s.(failed := true) else
    DecRef(s.(hs := s.hs[h := s.hs[h].(registered := false)], queue := Without(s.queue, h), interest := s.interest - {h}), h)
  }

  function Modify(s: Loop, h: nat, mask: int): Loop {
    if h >= |s.hs| || s.hs[h].freed || !s.hs[h].registered || h !in s.interest then s.(failed := true)
    else s.(interest := s.interest[h := mask])
  }

  function Refresh(s: Loop, h: nat): Loop {
    if h >= |s.hs| || s.hs[h].freed || !s.hs[h].registered || h !in s.queue then s.(failed := true) else
    var hs := s.hs[h := s.hs[h].(deadline := s.clock + s.timeout, touched := s.clock)];
    var tail := s.queue[|s.queue| - 1];
    if tail >= |hs| || hs[h].deadline < hs[tail].deadline then s.(failed := true)
    else s.(hs := hs, queue := Without(s.queue, h) + [h])
  }

  // ---------------------------------------------------------------------------------------------
  // Loop (src/event_loop.cc:99-128)

  /** Lines 102-106: a reference for every event of the batch. */
  function IncRefs(s: Loop, evs: seq<Event>): Loop
    decreases |evs|
  {
    if evs == [] then s else
    var s1 := IncRefs(s, evs[..|evs| - 1]);
    match evs[|evs| - 1]
    case Pipe => s1
    case On(h, _) => IncRef(s1, h)
  }

  /** epoll reports only what is in its interest set. */
  predicate Reportable(s: Loop, evs: seq<Event>) {
    forall i :: 0 <= i < |evs| && evs[i].On? ==> evs[i].h in s.interest
  }

  function Wait(s: Loop, dt: nat, evs: seq<Event>): Loop {
    IncRefs(s.(clock := s.clock + dt, waitedAt := s.clock), evs).(batch := evs, pc := Dispatching)
  }

  /** The head of the loop over the batch, lines 107-113. */
  function Dispatch(s: Loop): Loop {
    if s.batch == [] then s.(pc := Sweeping(Sweep(s.clock, s.queue, []))) else
    match s.batch[0]
    case Pipe => s.(pc := InFunc)
    case On(h, _) =>
      if h >= |s.hs| || s.hs[h].freed then s.(failed := true)
      else if s.hs[h].registered then s.(pc := InEvent(h))
      else DecRef(s, h).(batch := s.batch[1..])
  }

  /** The head of the loop over expired handlers, lines 118-123. */
  function Expire(s: Loop, sweep: Sweep): Loop {
    if s.queue == [] then s.(pc := Waiting) else
    var h := s.queue[0];
    if h >= |s.hs| || s.hs[h].freed then s.(failed := true)
    else if s.hs[h].deadline > s.clock then s.(pc := Waiting)
    else if !s.hs[h].registered then s.(failed := true)
    else
      IncRef(s, h).(pc := InTimeout(h, sweep.(visited := sweep.visited + [h])),
                    fired := s.fired + [Fire(h, s.clock, s.hs[h].deadline, s.hs[h].touched)])
  }

  /** The client's code returns: lines 115 and 124-125. */
  function Return(s: Loop): Loop {
    match s.pc
    case InFunc => if s.batch == [] then s else s.(pc := Dispatching, batch := s.batch[1..])
    case InEvent(h) => if s.batch == [] then s else DecRef(s, h).(pc := Dispatching, batch := s.batch[1..])
    case InTimeout(h, sweep) =>
      if h >= |s.hs| || s.hs[h].freed then s.(failed := true) else
      DecRef(if s.hs[h].registered then Refresh(s, h) else s, h).(pc := Sweeping(sweep))
    case _ => s
  }

  // ---------------------------------------------------------------------------------------------
  // Steps

  datatype Op =
    | DoAdd(h: nat, mask: int)
    | DoRemove(h: nat)
    | DoModify(h: nat, mask: int)
    | DoRefresh(h: nat)
    | Hold(h: nat)      // IncRef by a client
    | Release(h: nat)   // DecRef by a client, of a reference it holds

  datatype Label =
    | Tick(dt: nat)
    | Create            // a client creates a handler
    | Client(op: Op)
    | EpollWait(dt: nat, evs: seq<Event>)
    | Continue          // the loop goes on
    | Returns           // the client's code returns

  predicate InClient(pc: Pc) { pc.InFunc? || pc.InEvent? || pc.InTimeout? }

  /** The operations that a client may call. */
  predicate Allowed(s: Loop, op: Op) {
    && op.h < |s.hs| && !s.hs[op.h].freed
    && match op
       case DoAdd(h, _) => !s.hs[h].registered
       case DoRemove(h) => s.hs[h].registered
       case DoModify(h, _) => s.hs[h].registered
       case DoRefresh(h) => s.hs[h].registered
       case Hold(_) => true
       case Release(h) => s.hs[h].owned > 0
  }

  function Owning(s: Loop, h: nat, d: int): Loop
    requires h < |s.hs| && s.hs[h].owned + d >= 0
  {
    s.(hs := s.hs[h := s.hs[h].(owned := s.hs[h].owned + d)])
  }

  function Do(s: Loop, op: Op): Loop
    requires Allowed(s, op)
  {
    match op
    case DoAdd(h, mask) => Add(s, h, mask)
    case DoRemove(h) => Remove(s, h)
    case DoModify(h, mask) => Modify(s, h, mask)
    case DoRefresh(h) => Refresh(s, h)
    case Hold(h) => IncRef(Owning(s, h, 1), h)
    case Release(h) => DecRef(Owning(s, h, -1), h)
  }

  function Step(s: Loop, l: Label): Loop {
    match l
    case Tick(dt) => s.(clock := s.clock + dt)
    case Create => s.(hs := s.hs + [Handler(false, 0, 0, false, true, 0, 0)])
    case Client(op) => if InClient(s.pc) && Allowed(s, op) then Do(s, op) else s
    case EpollWait(dt, evs) => if s.pc.Waiting? && Reportable(s, evs) then Wait(s, dt, evs) else s
    case Continue =>
      if s.pc.Dispatching? then Dispatch(s) else if s.pc.Sweeping? then Expire(s, s.pc.sweep) else s
    case Returns => Return(s)
  }

  function Run(s: Loop, ls: seq<Label>): Loop {
    if ls == [] then s else Step(Run(s, ls[..|ls| - 1]), ls[|ls| - 1])
  }
}
