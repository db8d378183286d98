/** The DNS resolver's cache as a state machine.  A step is one lock-held section, or what a thread
    does between two of them; any interleaving of steps is a run.

    A cache entry is a node, named by its index, which plays the part of the map iterator that a task
    captures.  `index` is the map's key order.  A callback is named by the index of the call that
    issued it.  Every function is total: a step that is not possible changes nothing.  `failed`
    records that a task has used the iterator of an erased entry. */
module DnsModel {
  import opened Common

  datatype Options = Options(ttl: int, period: int, duration: int)

  // ---------------------------------------------------------------------------------------------
  // Rings of addresses (src/dns.cc:35-37, 68-75)

  /** A shared_ptr into a circular address list: null, or a position on the ring. */
  datatype Cursor = Null | At(ring: seq<string>, pos: nat)

  function Advance(c: Cursor): Cursor {
    match c
    case Null => Null
    case At(ring, pos) => if ring == [] then c else At(ring, (pos + 1) % |ring|)
  }

  // ---------------------------------------------------------------------------------------------
  // Data

  /** CacheData, with the history of its uses. */
  datatype Node = Node(
    key: string, alive: bool,
    callbacks: seq<nat>,
    addr: Cursor, usedAt: int, resolvedAt: int, succAt: int, useCount: nat,
    first: bool,        // the entry's first run has not reached its callbacks yet
    log: seq<nat>,      // the callbacks served so far, in the order of Use
    base: nat, logBase: nat,  // the ring position and |log| at the last successful refresh
    lookups: nat,       // lookups started since the last Use
    idleRuns: nat)      // runs since the last Use that neither looked up nor erased

  /** A use of an entry: where its cursor is, the time and ring position of the lookup that put it on its
      ring, the place of the use among all of the entry's uses, and its time. */
  datatype Serve = Serve(addr: Cursor, obtained: int, base: nat, logBase: nat, slot: nat, at: int)

  datatype Stage =
    | Sampled                // Resolve has read the clock and wants the mutex
    | NeedSchedule(node: nat)  // has inserted an entry that holds the callback; is about to schedule it
    | InEntry(node: nat)     // the callback is held by an entry
    | InBatch(task: nat)     // the callback is held by a task that delivers
    | Serving(node: nat, serve: Serve, given: Cursor)  // Resolve is about to invoke the callback itself
    | Delivered(d: nat)

  datatype Call = Call(key: string, now: int, stage: Stage)

  datatype Pc =
    | Scheduled(at: int)
    | Started(now: int)      // has read the clock and wants the mutex
    | Resolving              // in ResolveSync, without the mutex
    | Resolved(ring: seq<string>, now: int)  // wants the mutex; [] is a failed lookup
    | Delivering(cbs: seq<nat>, serve: Serve, ran: Option<int>)  // without the mutex
    | Relock                 // all delivered; wants the mutex
    | Rescheduling(next: int)
    | Ended

  datatype Task = Task(node: nat, pc: Pc)

  /** An invoked callback, and what it was given.  For one that a task has invoked, `ran` says when the
      lookup of that run completed, if the run made one. */
  datatype Delivery = Delivery(cb: nat, node: nat, serve: Serve, given: Cursor, byTask: bool, ran: Option<int>)

  /** A successful getaddrinfo: what it found for the key, and the time read after it. */
  datatype Lookup = Lookup(key: string, ring: seq<string>, at: int)

  datatype Dns = Dns(
    opt: Options, clock: int,
    index: map<string, nat>, nodes: seq<Node>,
    calls: seq<Call>, tasks: seq<Task>, delivered: seq<Delivery>,
    answers: set<Lookup>,
    failed: bool)

  function NewDns(opt: Options, clock: int): Dns { Dns(opt, clock, map[], [], [], [], [], {}, false) }

  function Max(a: int, b: int): int { if a < b then b else a }

  function Min(a: int, b: int): int { if a < b then a else b }

  // ---------------------------------------------------------------------------------------------
  // Resolve (src/dns.cc:83-105)

  /** The default CacheData: its three times are the clock's epoch. */
  function NewNode(key: string, cb: nat): Node {
    Node(key, true, [cb], Null, 0, 0, 0, 0, true, [], 0, 0, 0, 0)
  }

  function Use(n: Node, cb: nat, now: int): Node {
    n.(useCount := n.useCount + 1, addr := Advance(n.addr), usedAt := Max(n.usedAt, now),
       log := n.log + [cb], lookups := 0, idleRuns := 0)
  }

  function ServeNext(n: Node, now: int): Serve { Serve(n.addr, n.succAt, n.base, n.logBase, |n.log|, now) }

  function SetStage(s: Dns, c: nat, stage: Stage): Dns {
    if c < |s.calls| then s.(calls := s.calls[c := s.calls[c].(stage := stage)]) else s
  }

  function ResolveSection(s: Dns, c: nat): Dns
    requires c < |s.calls|
  {
    var key, now := s.calls[c].key, s.calls[c].now;
    if key !in s.index then
      SetStage(s.(nodes := s.nodes + [NewNode(key, c)], index := s.index[key := |s.nodes|]), c, NeedSchedule(|s.nodes|))
    else
      var i := s.index[key];
      if i >= |s.nodes| then s.(failed := true) else
      var n := s.nodes[i];
      if n.callbacks != [] then
        SetStage(s.(nodes := s.nodes[i := n.(callbacks := n.callbacks + [c])]), c, InEntry(i))
      else
        var given := if n.succAt + s.opt.ttl > now then n.addr else Null;
        SetStage(s.(nodes := s.nodes[i := Use(n, c, now)]), c, Serving(i, ServeNext(n, now), given))
  }

  // ---------------------------------------------------------------------------------------------
  // ProcessCacheEntry (src/dns.cc:107-143)

  function Next(opt: Options, n: Node): int { Min(n.resolvedAt + opt.period, n.usedAt + opt.duration) }

  function UseAll(n: Node, cbs: seq<nat>, now: int): Node
    decreases |cbs|
  {
    if cbs == [] then n else Use(UseAll(n, cbs[..|cbs| - 1], now), cbs[|cbs| - 1], now)
  }

  /** Stores a lookup's result.  The cursor starts where `useCount` uses would have moved it. */
  function Store(n: Node, ring: seq<string>, now: int): Node {
    var n1 := n.(resolvedAt := now);
    if ring == [] then n1 else
    n1.(addr := At(ring, n.useCount % |ring|), succAt := now, useCount := 0,
        base := n.useCount % |ring|, logBase := |n.log|)
  }

  /** Lines 131-141: hands the waiting callbacks over for delivery, or decides when to run next. */
  function Tail(s: Dns, t: nat, now: int, ran: Option<int>): Dns
    requires t < |s.tasks| && s.tasks[t].node < |s.nodes|
  {
    var i := s.tasks[t].node;
    var n := s.nodes[i];
    if n.callbacks != [] then
      var pc := Delivering(n.callbacks, ServeNext(n, now), ran);
      s.(nodes := s.nodes[i := UseAll(n.(callbacks := [], first := false), n.callbacks, now)],
         tasks := s.tasks[t := Task(i, pc)],
         calls := seq(|s.calls|, c requires 0 <= c < |s.calls| =>
                                   if c in n.callbacks then s.calls[c].(stage := InBatch(t)) else s.calls[c]))
    else
      s.(nodes := s.nodes[i := n.(first := false)], tasks := s.tasks[t := Task(i, Rescheduling(Next(s.opt, n)))])
  }

  /** Lines 110-116. */
  function CheckSection(s: Dns, t: nat, now: int): Dns
    requires t < |s.tasks| && s.tasks[t].node < |s.nodes|
  {
    var i := s.tasks[t].node;
    var n := s.nodes[i];
    if n.callbacks == [] && n.usedAt + s.opt.duration <= now then
      s.(nodes := s.nodes[i := n.(alive := false)], index := s.index - {n.key}, tasks := s.tasks[t := Task(i, Ended)])
    else if n.resolvedAt + s.opt.period <= now then
      s.(nodes := s.nodes[i := n.(lookups := n.lookups + 1)], tasks := s.tasks[t := Task(i, Resolving)])
    else
      Tail(s.(nodes := s.nodes[i := n.(idleRuns := n.idleRuns + 1)]), t, now, None)
  }

  /** Lines 119-141. */
  function StoreSection(s: Dns, t: nat, ring: seq<string>, now: int): Dns
    requires t < |s.tasks| && s.tasks[t].node < |s.nodes|
  {
    var i := s.tasks[t].node;
    Tail(s.(nodes := s.nodes[i := Store(s.nodes[i], ring, now)]), t, now, Some(now))
  }

  /** One callback of a batch is invoked (line 136). */
  function DeliverStep(s: Dns, t: nat): Dns
    requires t < |s.tasks| && s.tasks[t].pc.Delivering?
  {
    var i := s.tasks[t].node;
    var Delivering(cbs, serve, ran) := s.tasks[t].pc;
    if cbs == [] then s.(tasks := s.tasks[t := Task(i, Relock)]) else
    var s1 := SetStage(s, cbs[0], Delivered(|s.delivered|));
    s1.(tasks := s.tasks[t := Task(i, Delivering(cbs[1..], serve.(addr := Advance(serve.addr), slot := serve.slot + 1), ran))],
        delivered := s.delivered + [Delivery(cbs[0], i, serve, serve.addr, true, ran)])
  }

  function Found(key: string, ring: seq<string>, at: int): set<Lookup> {
    if ring == [] then {} else {Lookup(key, ring, at)}
  }

  // ---------------------------------------------------------------------------------------------
  // Steps

  datatype Label =
    | Tick(dt: nat)
    | Resolve(key: string)        // a client calls Resolve, which reads the clock
    | Enter(c: nat)               // call c gets the mutex
    | ScheduleFirst(c: nat)       // call c schedules the entry it has inserted
    | Invoke(c: nat)              // call c invokes its callback
    | Begin(t: nat)               // a pool thread starts task t, which reads the clock
    | Check(t: nat)               // task t gets the mutex for the first time
    | Answer(t: nat, ring: seq<string>)  // ResolveSync returns, and task t reads the clock
    | StoreResult(t: nat)         // task t gets the mutex back
    | DeliverOne(t: nat)
    | Finish(t: nat)              // task t gets the mutex after its deliveries
    | Reschedule(t: nat)          // task t schedules its successor

  /** Task t has captured the iterator of an entry that has not been erased. */
  predicate Valid(s: Dns, t: nat) {
    t < |s.tasks| && s.tasks[t].node < |s.nodes| && s.nodes[s.tasks[t].node].alive
  }

  function Step(s: Dns, l: Label): Dns {
    match l
    case Tick(dt) => s.(clock := s.clock + dt)
    case Resolve(key) => s.(calls := s.calls + [Call(key, s.clock, Sampled)])
    case Enter(c) => if c < |s.calls| && s.calls[c].stage.Sampled? then ResolveSection(s, c) else s
    case ScheduleFirst(c) =>
      if c < |s.calls| && s.calls[c].stage.NeedSchedule? then
        var i := s.calls[c].stage.node;
        SetStage(s.(tasks := s.tasks + [Task(i, Scheduled(s.calls[c].now))]), c, InEntry(i))
      else s
    case Invoke(c) =>
      if c < |s.calls| && s.calls[c].stage.Serving? then
        var Serving(i, serve, given) := s.calls[c].stage;
        SetStage(s.(delivered := s.delivered + [Delivery(c, i, serve, given, false, None)]), c, Delivered(|s.delivered|))
      else s
    case Begin(t) =>
      if t < |s.tasks| && s.tasks[t].pc.Scheduled? && s.tasks[t].pc.at <= s.clock
      then s.(tasks := s.tasks[t := s.tasks[t].(pc := Started(s.clock))]) else s
    case Check(t) =>
      if !(t < |s.tasks| && s.tasks[t].pc.Started?) then s
      else if !Valid(s, t) then s.(failed := true)
      else CheckSection(s, t, s.tasks[t].pc.now)
    case Answer(t, ring) =>
      if !(t < |s.tasks| && s.tasks[t].pc.Resolving?) then s
      else if !Valid(s, t) then s.(failed := true)
      else
        s.(tasks := s.tasks[t := s.tasks[t].(pc := Resolved(ring, s.clock))],
           answers := s.answers + Found(s.nodes[s.tasks[t].node].key, ring, s.clock))
    case StoreResult(t) =>
      if !(t < |s.tasks| && s.tasks[t].pc.Resolved?) then s
      else if !Valid(s, t) then s.(failed := true)
      else StoreSection(s, t, s.tasks[t].pc.ring, s.tasks[t].pc.now)
    case DeliverOne(t) => if t < |s.tasks| && s.tasks[t].pc.Delivering? then DeliverStep(s, t) else s
    case Finish(t) =>
      if !(t < |s.tasks| && s.tasks[t].pc.Relock?) then s
      else if !Valid(s, t) then s.(failed := true)
      else s.(tasks := s.tasks[t := s.tasks[t].(pc := Rescheduling(Next(s.opt, s.nodes[s.tasks[t].node])))])
    case Reschedule(t) =>
      if t < |s.tasks| && s.tasks[t].pc.Rescheduling? then
        s.(tasks := s.tasks[t := s.tasks[t].(pc := Ended)] + [Task(s.tasks[t].node, Scheduled(s.tasks[t].pc.next))])
      else s
  }

  function Run(s: Dns, ls: seq<Label>): Dns {
    if ls == [] then s else Step(Run(s, ls[..|ls| - 1]), ls[|ls| - 1])
  }
}
