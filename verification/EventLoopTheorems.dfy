/** The guarantees of the event loop, over every run. */
module EventLoopTheorems {
  import opened Common
  import opened EventLoopModel
  import opened EventLoopProofs

  function Reached(timeout: int, clock: int, ls: seq<Label>): Loop { Run(NewLoop(timeout, clock), ls) }

  // ---------------------------------------------------------------------------------------------
  // References and batches

  /** No CHECK fails.  A handler is deleted exactly when its last reference has gone.  Whatever clients
      do, a handler whose event is still in the batch, or whose code is running, has not been deleted. */
  lemma BatchSafety(timeout: int, clock: int, ls: seq<Label>)
    requires timeout > 0
    ensures var s := Reached(timeout, clock, ls);
            && !s.failed
            && (forall h :: 0 <= h < |s.hs| ==>
                  (s.hs[h].freed <==>
                   !s.hs[h].newborn && !s.hs[h].registered && s.hs[h].owned == 0 && Held(s.batch, s.pc, h) == 0))
            && (forall i :: 0 <= i < |s.batch| && s.batch[i].On? ==> Live(s, s.batch[i].h))
            && (s.pc.InEvent? || s.pc.InTimeout? ==> Live(s, s.pc.h))
  {
    var s := Reached(timeout, clock, ls);
    RunKeeps(timeout, clock, ls);
    forall h | 0 <= h < |s.hs|
      ensures s.hs[h].freed <==> !s.hs[h].newborn && !s.hs[h].registered && s.hs[h].owned == 0 && Held(s.batch, s.pc, h) == 0
    {
      RefOf(s, h);
    }
    forall i | 0 <= i < |s.batch| && s.batch[i].On? ensures Live(s, s.batch[i].h) {
      Counted(s.batch, i);
      HeldIsLive(s, s.batch[i].h);
    }
    if s.pc.InTimeout? { HeldIsLive(s, s.pc.h); }
  }

  lemma {:induction false} Counted(batch: seq<Event>, i: nat)
    requires i < |batch| && batch[i].On?
    ensures Count(batch, batch[i].h) > 0
  {
    if i > 0 { Counted(batch[1..], i - 1); }
  }

  /** When the loop waits, it holds no reference: those of the batch and the sweep have been given back. */
  lemma NothingHeldWhileWaiting(timeout: int, clock: int, ls: seq<Label>, h: nat)
    requires timeout > 0
    requires var s := Reached(timeout, clock, ls); s.pc.Waiting? && h < |s.hs|
    ensures var s := Reached(timeout, clock, ls); s.hs[h].refs == One(s.hs[h].registered) + s.hs[h].owned
  {
    RunKeeps(timeout, clock, ls);
    RefOf(Reached(timeout, clock, ls), h);
    EmptyCount(h);
  }

  /** The expiry queue holds exactly the registered handlers, each once, ordered by deadline, though
      nothing ever sorts it; and epoll is interested in the same handlers. */
  lemma QueueIsSorted(timeout: int, clock: int, ls: seq<Label>)
    requires timeout > 0
    ensures var s := Reached(timeout, clock, ls);
            QueueInv(s.hs, s.queue, s.interest) && Bounded(s.hs, s.queue) && Sorted(s.hs, s.queue)
  {
    RunKeeps(timeout, clock, ls);
  }

  // ---------------------------------------------------------------------------------------------
  // What the operations mean to their callers

  /** All handlers but h are as they were: their state, their order in the queue, their event masks. */
  ghost predicate OthersKept(s: Loop, s': Loop, h: nat) {
    && |s'.hs| == |s.hs| && (forall x :: 0 <= x < |s.hs| && x != h ==> s'.hs[x] == s.hs[x])
    && Without(s'.queue, h) == Without(s.queue, h)
    && (forall x :: x != h ==> (x in s'.interest <==> x in s.interest))
    && (forall x :: x != h && x in s.interest ==> x in s'.interest && s'.interest[x] == s.interest[x])
  }

  /** Nobody in the queue expires after h. */
  predicate LastToExpire(s: Loop, h: nat) {
    && s.queue != [] && s.queue[|s.queue| - 1] == h && Bounded(s.hs, s.queue)
    && forall k :: 0 <= k < |s.queue| ==> s.hs[s.queue[k]].deadline <= s.hs[h].deadline
  }

  ghost predicate Effect(s: Loop, s': Loop, op: Op) {
    && OthersKept(s, s', op.h) && op.h < |s.hs| && op.h < |s'.hs|
    && var x, x' := s.hs[op.h], s'.hs[op.h];
       && (op.h in s'.queue <==> x'.registered) && (op.h in s'.interest <==> x'.registered)
       && match op
          case DoAdd(h, mask) =>
            x'.registered && x'.deadline == s.clock + s.timeout && LastToExpire(s', h) && s'.interest[h] == mask
          case DoRemove(_) => !x'.registered
          case DoModify(h, mask) => x' == x && s'.queue == s.queue && h in s'.interest && s'.interest[h] == mask
          case DoRefresh(h) =>
            && x' == x.(deadline := s.clock + s.timeout, touched := s.clock)
            && LastToExpire(s', h) && s'.interest == s.interest
          case Hold(_) => x'.refs == x.refs + 1 && s'.queue == s.queue && s'.interest == s.interest
          case Release(_) => x'.refs == x.refs - 1 && s'.queue == s.queue && s'.interest == s.interest
  }

  /** Each operation does to its handler what its name says, in memory and in epoll, and nothing to any
      other handler. */
  lemma OperationsDo(timeout: int, clock: int, ls: seq<Label>, op: Op)
    requires timeout > 0
    requires var s := Reached(timeout, clock, ls); InClient(s.pc) && Allowed(s, op)
    ensures var s := Reached(timeout, clock, ls); Effect(s, Step(s, Client(op)), op)
  {
    RunKeeps(timeout, clock, ls);
    var s := Reached(timeout, clock, ls);
    hide Reached, Run, Inv, Effect, Add, Remove, Modify, Refresh, IncRef, DecRef, Owning;
    match op
    case DoAdd(h, mask) => AddDoes(s, h, mask);
    case DoRemove(h) => RemoveDoes(s, h);
    case DoModify(h, mask) => ModifyDoes(s, h, mask);
    case DoRefresh(h) => RefreshDoes(s, h);
    case Hold(h) => HoldDoes(s, h);
    case Release(h) => ReleaseDoes(s, h);
  }

  lemma LastIsLatest(s: Loop, h: nat)
    requires Inv(s) && s.queue != [] && s.queue[|s.queue| - 1] == h
    ensures LastToExpire(s, h)
  {
    hide RefInv, QueueInv, PcInv;
  }

  lemma AddDoes(s: Loop, h: nat, mask: int)
    requires Inv(s) && Allowed(s, DoAdd(h, mask))
    ensures Effect(s, Add(s, h, mask), DoAdd(h, mask))
  {
    hide RefInv, Held, TimeInv, PcInv, Without, LastToExpire, Later, NoDup;
    AddKeeps(s, h, mask);
    LastIsLatest(Add(s, h, mask), h);
    RefOf(s, h);
    QueueFacts(s, h);
    hide Inv;
  }

  lemma RemoveDoes(s: Loop, h: nat)
    requires Inv(s) && Allowed(s, DoRemove(h))
    ensures Effect(s, Remove(s, h), DoRemove(h))
  {
    hide RefInv, Held, TimeInv, PcInv, Without;
    RefOf(s, h);
    QueueFacts(s, h);
    hide Inv;
  }

  lemma ModifyDoes(s: Loop, h: nat, mask: int)
    requires Inv(s) && Allowed(s, DoModify(h, mask))
    ensures Effect(s, Modify(s, h, mask), DoModify(h, mask))
  {
    hide RefInv, Held, TimeInv, PcInv, Without;
    RefOf(s, h);
    hide Inv;
  }

  lemma RefreshDoes(s: Loop, h: nat)
    requires Inv(s) && Allowed(s, DoRefresh(h))
    ensures Effect(s, Refresh(s, h), DoRefresh(h))
  {
    hide RefInv, Held, TimeInv, PcInv, Without, LastToExpire, Later, NoDup;
    RefOf(s, h);
    QueueFacts(s, h);
    TailInTime(s);
    RefreshKeeps(s, h);
    LastIsLatest(Refresh(s, h), h);
    hide Inv;
  }

  lemma HoldDoes(s: Loop, h: nat)
    requires Inv(s) && Allowed(s, Hold(h))
    ensures Effect(s, Do(s, Hold(h)), Hold(h))
  {
    hide RefInv, Held, TimeInv, PcInv, Without;
    RefOf(s, h);
    hide Inv;
  }

  lemma ReleaseDoes(s: Loop, h: nat)
    requires Inv(s) && Allowed(s, Release(h))
    ensures Effect(s, Do(s, Release(h)), Release(h))
  {
    hide RefInv, Held, TimeInv, PcInv, Without;
    RefOf(s, h);
    hide Inv;
  }

  lemma QueueFacts(s: Loop, h: nat)
    requires Inv(s)
    ensures h !in Without(s.queue, h)
    ensures Without(Without(s.queue, h), h) == Without(s.queue, h)
    ensures Without(Without(s.queue, h) + [h], h) == Without(s.queue, h)
    ensures h !in s.queue ==> Without(s.queue + [h], h) == Without(s.queue, h)
  {
    WithoutNone(s.queue, h);
    if h in s.queue { WithoutKeeps(s.hs, s.queue, h); }
    WithoutNone(Without(s.queue, h), h);
    WithoutLast(Without(s.queue, h), h);
    if h !in s.queue { WithoutLast(s.queue, h); }
  }

  lemma {:induction false} WithoutNone(q: seq<nat>, h: nat)
    ensures h !in q ==> Without(q, h) == q
  {
    if q != [] { WithoutNone(q[1..], h); }
  }

  lemma {:induction false} WithoutLast(q: seq<nat>, h: nat)
    requires h !in q
    ensures Without(q + [h], h) == q
  {
    if q == [] {
      assert q + [h] == [h];
    } else {
      assert (q + [h])[1..] == q[1..] + [h] && (q + [h])[0] == q[0];
      WithoutLast(q[1..], h);
    }
  }

  /** The loop by itself neither registers nor unregisters anyone, and touches no event mask. */
  lemma OnlyClientsRegister(timeout: int, clock: int, ls: seq<Label>, l: Label, h: nat)
    requires timeout > 0 && !l.Client? && h < |Reached(timeout, clock, ls).hs|
    ensures var s := Reached(timeout, clock, ls);
            var s' := Step(s, l);
            h < |s'.hs| && s'.hs[h].registered == s.hs[h].registered && s'.interest == s.interest
  {
    RunKeeps(timeout, clock, ls);
    hide Reached, Run;
    LoopRegistersNone(Reached(timeout, clock, ls), l, h);
  }

  lemma LoopRegistersNone(s: Loop, l: Label, h: nat)
    requires Inv(s) && !l.Client? && h < |s.hs|
    ensures var s' := Step(s, l);
            h < |s'.hs| && s'.hs[h].registered == s.hs[h].registered && s'.interest == s.interest
  {
    hide Inv, Without, IncRefs, Dispatch, Expire, Return;
    match l
    case EpollWait(dt, evs) => IncRefsRegister(s.(clock := s.clock + dt, waitedAt := s.clock), evs, h);
    case Continue => ContinueRegistersNone(s, h);
    case Returns => ReturnRegistersNone(s, h);
    case _ =>
  }

  predicate SameRegistration(s: Loop, s': Loop, h: nat) {
    h < |s.hs| && h < |s'.hs| && s'.hs[h].registered == s.hs[h].registered && s'.interest == s.interest
  }

  lemma CountingRegistersNone(s: Loop, x: nat, h: nat)
    requires h < |s.hs|
    ensures SameRegistration(s, DecRef(s, x), h) && SameRegistration(s, IncRef(s, x), h)
  {
  }

  lemma RefreshRegistersNone(s: Loop, x: nat, h: nat)
    requires h < |s.hs|
    ensures SameRegistration(s, Refresh(s, x), h)
  {
    hide Without;
  }

  lemma ContinueRegistersNone(s: Loop, h: nat)
    requires h < |s.hs|
    ensures SameRegistration(s, Step(s, Continue), h)
  {
    hide Dispatch, Expire;
    DispatchRegistersNone(s, h);
    if s.pc.Sweeping? { ExpireRegistersNone(s, s.pc.sweep, h); }
  }

  lemma DispatchRegistersNone(s: Loop, h: nat)
    requires h < |s.hs|
    ensures SameRegistration(s, Dispatch(s), h)
  {
    hide DecRef;
    if s.batch != [] && s.batch[0].On? { CountingRegistersNone(s, s.batch[0].h, h); }
  }

  lemma ExpireRegistersNone(s: Loop, sweep: Sweep, h: nat)
    requires h < |s.hs|
    ensures SameRegistration(s, Expire(s, sweep), h)
  {
    hide IncRef;
    if s.queue != [] { CountingRegistersNone(s, s.queue[0], h); }
  }

  lemma ReturnRegistersNone(s: Loop, h: nat)
    requires h < |s.hs|
    ensures SameRegistration(s, Return(s), h)
  {
    hide DecRef, Refresh;
    match s.pc
    case InEvent(x) => CountingRegistersNone(s, x, h);
    case InTimeout(x, _) =>
      CountingRegistersNone(s, x, h);
      RefreshRegistersNone(s, x, h);
      CountingRegistersNone(Refresh(s, x), x, h);
    case _ =>
  }

  lemma {:induction false} IncRefsRegister(s: Loop, evs: seq<Event>, h: nat)
    requires h < |s.hs|
    ensures var s' := IncRefs(s, evs);
            |s'.hs| == |s.hs| && s'.hs[h].registered == s.hs[h].registered && s'.interest == s.interest
    decreases |evs|
  {
    if evs != [] { IncRefsRegister(s, evs[..|evs| - 1], h); }
  }

  // ---------------------------------------------------------------------------------------------
  // Time

  /** OnTimeout is never called before a full timeout has passed since the handler's last Add or Refresh. */
  lemma NeverEarly(timeout: int, clock: int, ls: seq<Label>)
    requires timeout > 0
    ensures var s := Reached(timeout, clock, ls);
            forall i :: 0 <= i < |s.fired| ==> s.fired[i].at >= s.fired[i].touched + timeout
  {
    FiredDeadlines(timeout, clock, ls);
  }

  /** Only the head of the sweep's loop calls OnTimeout, on a handler whose deadline has come. */
  lemma StepHistory(s: Loop, l: Label)
    requires Inv(s)
    ensures var s' := Step(s, l);
            && s'.timeout == s.timeout && s.clock <= s'.clock
            && (s'.fired == s.fired
                || (l.Continue? && s.pc.Sweeping? && s.queue != [] && s.queue[0] < |s.hs|
                    && var x := s.hs[s.queue[0]];
                       && x.deadline <= s.clock && x.deadline == x.touched + s.timeout
                       && s'.fired == s.fired + [Fire(s.queue[0], s.clock, x.deadline, x.touched)]))
  {
    hide RefInv, QueueInv, Held;
    match l
    case Client(op) => if InClient(s.pc) && Allowed(s, op) { hide Do, Inv; DoKeeps(s, op); }
    case EpollWait(dt, evs) => if s.pc.Waiting? && Reportable(s, evs) { IncRefsHistory(s.(clock := s.clock + dt, waitedAt := s.clock), evs); }
    case _ =>
  }

  lemma {:induction false} IncRefsHistory(s: Loop, evs: seq<Event>)
    ensures var s' := IncRefs(s, evs); s' == s.(hs := s'.hs, failed := s'.failed)
    decreases |evs|
  {
    if evs != [] { IncRefsHistory(s, evs[..|evs| - 1]); }
  }

  // ---------------------------------------------------------------------------------------------
  // One pass over the expired handlers

  /** Deadlines in the queue are as they were, or a full timeout away. */
  predicate Kept(s: Loop, s': Loop) {
    && s'.timeout == s.timeout && Bounded(s.hs, s.queue) && Bounded(s'.hs, s'.queue)
    && forall h :: h in s'.queue ==>
         (h in s.queue && s'.hs[h].deadline == s.hs[h].deadline) || s'.hs[h].deadline == s.clock + s.timeout
  }

  lemma ReturnKept(s: Loop)
    requires Inv(s)
    ensures var s' := Return(s);
            && Kept(s, s') && s'.clock == s.clock && s'.waitedAt == s.waitedAt
            && (s.pc.InTimeout? && s.pc.h in s'.queue ==> s'.hs[s.pc.h].deadline == s.clock + s.timeout)
  {
    ReturnKeeps(s);
    if s.pc.InTimeout? {
      HeldIsLive(s, s.pc.h);
      RefOf(s, s.pc.h);
      if s.hs[s.pc.h].registered { RefreshKeeps(s, s.pc.h); }
      hide RefInv, QueueInv, Held, Refresh, Sorted;
      DecRefKeeps(if s.hs[s.pc.h].registered then Refresh(s, s.pc.h) else s, s.pc.h);
    } else if s.pc.InEvent? {
      hide RefInv, QueueInv, Held, Sorted;
      DecRefKeeps(s, s.pc.h);
    }
  }

  lemma DecRefKeeps(s: Loop, h: nat)
    ensures var s' := DecRef(s, h);
            && s' == s.(hs := s'.hs, failed := s'.failed) && |s'.hs| == |s.hs|
            && forall x :: 0 <= x < |s.hs| ==> s'.hs[x].deadline == s.hs[x].deadline
  {
  }

  /** As long as the clock has moved less than a timeout since the pass began, what is due was in the
      queue then and has not been visited, unless it is being visited now. */
  predicate SweepOk(s: Loop, sweep: Sweep, now: Option<nat>) {
    && sweep.start <= s.clock && Bounded(s.hs, s.queue)
    && (s.clock < sweep.start + s.timeout ==>
          && NoDup(sweep.visited) && (forall v :: v in sweep.visited ==> v in sweep.queue)
          && (forall h :: h in s.queue && s.hs[h].deadline < sweep.start + s.timeout ==>
                h in sweep.queue && (h !in sweep.visited || now == Some(h))))
  }

  predicate SweepInv(s: Loop) {
    match s.pc
    case Sweeping(sweep) => SweepOk(s, sweep, None)
    case InTimeout(h, sweep) => SweepOk(s, sweep, Some(h))
    case _ => true
  }

  lemma StepSweep(s: Loop, l: Label)
    requires Inv(s) && SweepInv(s)
    ensures SweepInv(Step(s, l))
  {
    hide RefInv, Held;
    match l
    case Tick(dt) =>
    case Create =>
    case Client(op) => if InClient(s.pc) && Allowed(s, op) { hide Do; DoKeeps(s, op); }
    case EpollWait(dt, evs) =>
      if s.pc.Waiting? && Reportable(s, evs) { assert Wait(s, dt, evs).pc.Dispatching?; }
    case Continue =>
      if s.pc.Sweeping? && s.queue != [] { HeadIsLive(s); hide Inv; VisitSweep(s); }
    case Returns => hide Return; ReturnSweep(s);
  }

  lemma VisitSweep(s: Loop)
    requires s.pc.Sweeping? && SweepInv(s) && s.queue != [] && Live(s, s.queue[0])
    ensures SweepInv(Expire(s, s.pc.sweep))
  {
    var h := s.queue[0];
    var s' := Expire(s, s.pc.sweep);
    assert h in s.queue;
    if s.hs[h].deadline <= s.clock && s'.pc.InTimeout? {
      var was, now := s.pc.sweep.visited, s'.pc.sweep.visited;
      assert now == was + [h];
      assert forall v :: v in now <==> v in was || v == h by { assert now[|was|] == h; }
    }
  }

  lemma ReturnSweep(s: Loop)
    requires Inv(s) && SweepInv(s)
    ensures SweepInv(Return(s))
  {
    ReturnKept(s);
    assert Return(s).pc == match s.pc
                           case InTimeout(_, sweep) => Sweeping(sweep)
                           case InFunc => Dispatching
                           case InEvent(_) => Dispatching
                           case _ => s.pc by
    {
      hide RefInv, QueueInv, TimeInv;
      if s.pc.InTimeout? { HeldIsLive(s, s.pc.h); }
    }
    hide Inv, Return;
  }

  lemma {:induction false} RunSweep(timeout: int, clock: int, ls: seq<Label>)
    requires timeout > 0
    ensures SweepInv(Reached(timeout, clock, ls)) && Reached(timeout, clock, ls).timeout == timeout
    decreases |ls|
  {
    if ls != [] {
      var s := Reached(timeout, clock, ls[..|ls| - 1]);
      RunSweep(timeout, clock, ls[..|ls| - 1]);
      RunKeeps(timeout, clock, ls[..|ls| - 1]);
      StepSweep(s, ls[|ls| - 1]);
      StepHistory(s, ls[|ls| - 1]);
    }
  }

  /** If the clock moves by less than a timeout during a pass over the expired handlers, then whatever
      the handlers do, the pass visits a handler at most once, and it makes no more visits than the queue
      had members when it began: so it ends. */
  lemma SweepVisitsOnce(timeout: int, clock: int, ls: seq<Label>)
    requires timeout > 0
    requires var s := Reached(timeout, clock, ls);
             && (s.pc.Sweeping? || s.pc.InTimeout?)
             && s.clock < s.pc.sweep.start + timeout
    ensures var sweep := Reached(timeout, clock, ls).pc.sweep; NoDup(sweep.visited) && |sweep.visited| <= |sweep.queue|
  {
    RunSweep(timeout, clock, ls);
    var sweep := Reached(timeout, clock, ls).pc.sweep;
    Pigeonhole(sweep.visited, sweep.queue);
  }

  // ---------------------------------------------------------------------------------------------
  // Every event is dealt with

  /** An event that the loop has come to: whether its handler was still registered then, a scheduled
      function having none, and whether the code it is for was called. */
  datatype Served = Served(e: Event, wanted: bool, called: bool)

  predicate Calls(pc: Pc, e: Event) {
    match e
    case Pipe => pc.InFunc?
    case On(h, _) => pc == InEvent(h)
  }

  predicate Comes(s: Loop, l: Label) { l.Continue? && s.pc.Dispatching? && s.batch != [] }

  function NewlyServed(s: Loop, l: Label): seq<Served> {
    if !Comes(s, l) then [] else
    var e := s.batch[0];
    [Served(e, e.Pipe? || (e.h < |s.hs| && s.hs[e.h].registered), Calls(Step(s, l).pc, e))]
  }

  function NewlyReported(s: Loop, l: Label): seq<Event> {
    if l.EpollWait? && s.pc.Waiting? && Reportable(s, l.evs) then l.evs else []
  }

  function ServedEvents(s0: Loop, ls: seq<Label>): seq<Served>
    decreases |ls|
  {
    if ls == [] then [] else
    ServedEvents(s0, ls[..|ls| - 1]) + NewlyServed(Run(s0, ls[..|ls| - 1]), ls[|ls| - 1])
  }

  /** Everything that epoll has reported. */
  function Reported(s0: Loop, ls: seq<Label>): seq<Event>
    decreases |ls|
  {
    if ls == [] then [] else
    Reported(s0, ls[..|ls| - 1]) + NewlyReported(Run(s0, ls[..|ls| - 1]), ls[|ls| - 1])
  }

  function EventsOf(q: seq<Served>): seq<Event> { seq(|q|, i requires 0 <= i < |q| => q[i].e) }

  /** The events of the batch that the loop has not come to. */
  function Pending(s: Loop): seq<Event> {
    if (s.pc.InFunc? || s.pc.InEvent?) && s.batch != [] then s.batch[1..] else s.batch
  }

  /** Over every run: the loop comes to every event that epoll has reported, once and in order, and calls
      the handler, or the scheduled function, unless the handler has left the loop by then. */
  lemma {:induction false} EventsInOrder(timeout: int, clock: int, ls: seq<Label>)
    requires timeout > 0
    ensures var s0, s := NewLoop(timeout, clock), Reached(timeout, clock, ls);
            && EventsOf(ServedEvents(s0, ls)) + Pending(s) == Reported(s0, ls)
            && forall i :: 0 <= i < |ServedEvents(s0, ls)| ==> ServedEvents(s0, ls)[i].called == ServedEvents(s0, ls)[i].wanted
    decreases |ls|
  {
    var s0 := NewLoop(timeout, clock);
    hide Inv, Step, Pending, NewlyServed, NewlyReported;
    if ls == [] {
      assert EventsOf([]) == [] && Pending(s0) == [] by { NothingYet(s0); }
    } else {
      var k := |ls| - 1;
      var s := Reached(timeout, clock, ls[..k]);
      EventsInOrder(timeout, clock, ls[..k]);
      RunKeeps(timeout, clock, ls[..k]);
      StepServes(s, ls[k]);
      assert Accounted(s, ls[k]);
      MoreEvents(ServedEvents(s0, ls[..k]), NewlyServed(s, ls[k]), Pending(Step(s, ls[k])));
    }
  }

  lemma NothingYet(s: Loop)
    requires s.batch == []
    ensures Pending(s) == []
  {
  }

  lemma MoreEvents(q: seq<Served>, more: seq<Served>, rest: seq<Event>)
    ensures EventsOf(q + more) + rest == EventsOf(q) + (EventsOf(more) + rest)
  {
  }

  /** The step deals with what it takes off the batch, and adds what it reports. */
  predicate Accounted(s: Loop, l: Label) {
    && EventsOf(NewlyServed(s, l)) + Pending(Step(s, l)) == Pending(s) + NewlyReported(s, l)
    && forall i :: 0 <= i < |NewlyServed(s, l)| ==> NewlyServed(s, l)[i].called == NewlyServed(s, l)[i].wanted
  }

  lemma StepServes(s: Loop, l: Label)
    requires Inv(s)
    ensures Accounted(s, l)
  {
    hide Inv, Accounted;
    match l
    case Tick(_) => QuietStep(s, l);
    case Create => QuietStep(s, l);
    case Client(op) => if InClient(s.pc) && Allowed(s, op) { ClientStays(s, op); } QuietStep(s, l);
    case EpollWait(dt, evs) => WaitServes(s, dt, evs);
    case Continue => if s.pc.Dispatching? && s.batch != [] { ComesServes(s); } else { ContinueStays(s); QuietStep(s, l); }
    case Returns => ReturnStays(s); QuietStep(s, l);
  }

  lemma QuietStep(s: Loop, l: Label)
    requires !l.EpollWait? && !Comes(s, l) && Pending(Step(s, l)) == Pending(s)
    ensures Accounted(s, l)
  {
    hide Step, Pending;
    assert EventsOf([]) + Pending(s) == Pending(s) + [];
  }

  lemma WaitServes(s: Loop, dt: nat, evs: seq<Event>)
    requires Inv(s)
    ensures Accounted(s, EpollWait(dt, evs))
  {
    PcOf(s);
    hide Inv, IncRefs;
    assert EventsOf([]) == [];
  }

  lemma ContinueStays(s: Loop)
    requires !(s.pc.Dispatching? && s.batch != [])
    ensures Pending(Step(s, Continue)) == Pending(s)
  {
  }

  lemma ComesServes(s: Loop)
    requires Inv(s) && s.pc.Dispatching? && s.batch != []
    ensures Accounted(s, Continue)
  {
    hide Inv, DecRef;
    if s.batch[0].On? { ComesLive(s); DecRefPlace(s, s.batch[0].h); }
    assert s.batch == [s.batch[0]] + s.batch[1..];
  }

  lemma DecRefPlace(s: Loop, h: nat)
    ensures DecRef(s, h).pc == s.pc && DecRef(s, h).batch == s.batch
  {
  }

  lemma ComesLive(s: Loop)
    requires Inv(s) && s.pc.Dispatching? && s.batch != [] && s.batch[0].On?
    ensures Live(s, s.batch[0].h)
  {
    Counted(s.batch, 0);
    HeldIsLive(s, s.batch[0].h);
  }

  lemma ClientStays(s: Loop, op: Op)
    requires InClient(s.pc) && Allowed(s, op)
    ensures Pending(Step(s, Client(op))) == Pending(s)
  {
    hide Without;
  }

  lemma ReturnStays(s: Loop)
    requires Inv(s)
    ensures Pending(Step(s, Returns)) == Pending(s)
  {
    PcOf(s);
    hide Inv;
    hide Without;
  }

  // ---------------------------------------------------------------------------------------------
  // How late OnTimeout can be

  /** The time given to epoll_wait is a whole number of milliseconds, not less than the timeout and less
      than a millisecond more: the loop neither wakes up too early and spins nor sleeps a millisecond
      too long. */
  lemma WholeMilliseconds(t: int)
    ensures t <= CeilMs(t) < t + MILLISECOND && CeilMs(t) % MILLISECOND == 0 && MILLISECOND == 1_000_000
  {
    var q := (t + MILLISECOND - 1) / MILLISECOND;
    assert CeilMs(t) == q * MILLISECOND && (q * MILLISECOND) % MILLISECOND == 0;
  }

  /** Handlers take no time, and epoll_wait returns when its timeout is over. */
  predicate Prompt(timeout: int, l: Label) {
    match l
    case Tick(dt) => dt == 0
    case EpollWait(dt, _) => dt <= CeilMs(timeout)
    case _ => true
  }

  predicate AllAfter(s: Loop, time: int) {
    Bounded(s.hs, s.queue) && forall i :: 0 <= i < |s.queue| ==> s.hs[s.queue[i]].deadline > time
  }

  predicate PromptInv(s: Loop) {
    && s.waitedAt <= s.clock
    && (if s.pc.Waiting? then AllAfter(s, s.clock)
        else s.clock <= s.waitedAt + CeilMs(s.timeout) && AllAfter(s, s.waitedAt))
    && forall i :: 0 <= i < |s.fired| ==> s.fired[i].at < s.fired[i].deadline + CeilMs(s.timeout)
  }

  lemma KeptAfter(s: Loop, s': Loop)
    requires Kept(s, s') && AllAfter(s, s.waitedAt) && s'.waitedAt == s.waitedAt <= s.clock && s.timeout > 0
    ensures AllAfter(s', s'.waitedAt)
  {
    forall i | 0 <= i < |s'.queue| ensures s'.hs[s'.queue[i]].deadline > s'.waitedAt {
      assert s'.queue[i] in s'.queue;
      if s'.queue[i] in s.queue { var k :| 0 <= k < |s.queue| && s.queue[k] == s'.queue[i]; }
    }
  }

  lemma StepPrompt(s: Loop, l: Label)
    requires Inv(s) && PromptInv(s) && Prompt(s.timeout, l)
    ensures PromptInv(Step(s, l))
  {
    hide RefInv, QueueInv, Held, CeilMs;
    StepHistory(s, l);
    match l
    case Tick(dt) =>
    case Create =>
    case Client(op) =>
      if InClient(s.pc) && Allowed(s, op) { hide Do; DoKeeps(s, op); KeptAfter(s, Do(s, op)); }
    case EpollWait(dt, evs) =>
      if s.pc.Waiting? && Reportable(s, evs) { WaitPrompt(s, dt, evs); }
    case Continue => ContinuePrompt(s);
    case Returns =>
      ReturnKept(s);
      hide Inv;
      if InClient(s.pc) { KeptAfter(s, Return(s)); ReturnPc(s); }
  }

  lemma ReturnPc(s: Loop)
    ensures !s.pc.Waiting? ==> !Return(s).pc.Waiting?
  {
  }

  lemma WaitPrompt(s: Loop, dt: nat, evs: seq<Event>)
    requires Inv(s) && PromptInv(s) && s.pc.Waiting? && Reportable(s, evs) && dt <= CeilMs(s.timeout)
    ensures PromptInv(Wait(s, dt, evs))
  {
    forall i | 0 <= i < |evs| && evs[i].On? ensures Live(s, evs[i].h) && s.hs[evs[i].h].refs >= 0 { RefOf(s, evs[i].h); }
    IncRefsSpec(s.(clock := s.clock + dt, waitedAt := s.clock), evs);
    hide IncRefs, Inv, CeilMs;
  }

  lemma ContinuePrompt(s: Loop)
    requires Inv(s) && PromptInv(s)
    ensures PromptInv(Step(s, Continue))
  {
    hide RefInv, QueueInv, Held, CeilMs;
    if s.pc.Dispatching? && s.batch != [] && s.batch[0].On? { DecRefKeeps(s, s.batch[0].h); }
    if s.pc.Sweeping? && s.queue != [] { HeadIsLive(s); }
  }

  predicate AllPrompt(timeout: int, ls: seq<Label>) { forall i :: 0 <= i < |ls| ==> Prompt(timeout, ls[i]) }

  lemma {:induction false} RunPrompt(timeout: int, clock: int, ls: seq<Label>)
    requires timeout > 0 && AllPrompt(timeout, ls)
    ensures PromptInv(Reached(timeout, clock, ls)) && Reached(timeout, clock, ls).timeout == timeout
    decreases |ls|
  {
    if ls != [] {
      var s := Reached(timeout, clock, ls[..|ls| - 1]);
      RunPrompt(timeout, clock, ls[..|ls| - 1]);
      RunKeeps(timeout, clock, ls[..|ls| - 1]);
      StepPrompt(s, ls[|ls| - 1]);
      StepHistory(s, ls[|ls| - 1]);
    }
  }

  /** With handlers that take no time and waits that end on time, OnTimeout comes less than the rounded
      timeout after the deadline; and when the loop waits, no deadline has passed. */
  lemma TimerBound(timeout: int, clock: int, ls: seq<Label>)
    requires timeout > 0 && AllPrompt(timeout, ls)
    ensures var s := Reached(timeout, clock, ls);
            && (forall i :: 0 <= i < |s.fired| ==>
                  s.fired[i].touched + timeout <= s.fired[i].at < s.fired[i].touched + timeout + CeilMs(timeout)
                  && s.fired[i].at < s.fired[i].touched + 2 * timeout + MILLISECOND)
            && (s.pc.Waiting? ==>
                  forall h :: 0 <= h < |s.hs| && s.hs[h].registered ==> s.hs[h].deadline > s.clock)
  {
    RunPrompt(timeout, clock, ls);
    WholeMilliseconds(timeout);
    FiredDeadlines(timeout, clock, ls);
    RunKeeps(timeout, clock, ls);
    var s := Reached(timeout, clock, ls);
    hide RefInv, Run, CeilMs;
    if s.pc.Waiting? {
      forall h | 0 <= h < |s.hs| && s.hs[h].registered ensures s.hs[h].deadline > s.clock { assert h in s.queue; }
    }
  }

  lemma {:induction false} FiredDeadlines(timeout: int, clock: int, ls: seq<Label>)
    requires timeout > 0
    ensures var s := Reached(timeout, clock, ls);
            s.timeout == timeout
            && forall i :: 0 <= i < |s.fired| ==> s.fired[i].at >= s.fired[i].deadline == s.fired[i].touched + timeout
    decreases |ls|
  {
    if ls != [] {
      FiredDeadlines(timeout, clock, ls[..|ls| - 1]);
      RunKeeps(timeout, clock, ls[..|ls| - 1]);
      StepHistory(Reached(timeout, clock, ls[..|ls| - 1]), ls[|ls| - 1]);
    }
  }
}
