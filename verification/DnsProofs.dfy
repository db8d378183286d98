/** What every run of the DNS cache guarantees. */
module DnsProofs {
  import opened Common
  import opened DnsModel

  // ---------------------------------------------------------------------------------------------
  // Arithmetic on the ring

  lemma ModUnique(x: int, n: int, q: int, r: int)
    requires n > 0 && 0 <= r < n && x == n * q + r
    ensures x % n == r
  {
    var q', r' := x / n, x % n;
    Distribute(n, q, q');
    if q > q' { AtLeast(n, q - q'); }
    if q < q' { AtLeast(n, q' - q); Distribute(n, q', q); }
  }

  lemma Distribute(n: int, a: int, b: int)
    ensures n * (a - b) == n * a - n * b
  {
  }

  lemma AtLeast(n: int, d: int)
    requires n > 0 && d > 0
    ensures n * d >= n
  {
  }

  lemma ModStep(a: int, n: int)
    requires n > 0
    ensures (a % n + 1) % n == (a + 1) % n
  {
    var q, r := a / n, a % n;
    if r + 1 < n {
      ModUnique(a + 1, n, q, r + 1);
      ModUnique(r + 1, n, 0, r + 1);
    } else {
      assert n * (q + 1) == n * q + n;
      ModUnique(a + 1, n, q + 1, 0);
      ModUnique(n, n, 1, 0);
    }
  }

  lemma ModPlusMod(a: int, b: int, n: int)
    requires n > 0
    ensures (a + b % n) % n == (a + b) % n
  {
    var q := (a + b % n) / n;
    var r := (a + b % n) % n;
    assert n * (q + b / n) == n * q + n * (b / n);
    ModUnique(a + b, n, q + b / n, r);
  }

  // ---------------------------------------------------------------------------------------------
  // The invariant: which entries exist and who runs them

  predicate Active(t: Task) { !t.pc.Ended? }

  predicate IndexInv(s: Dns) {
    && (forall k :: k in s.index ==> s.index[k] < |s.nodes| && s.nodes[s.index[k]].alive && s.nodes[s.index[k]].key == k)
    && (forall i :: 0 <= i < |s.nodes| && s.nodes[i].alive ==> s.nodes[i].key in s.index && s.index[s.nodes[i].key] == i)
  }

  predicate HasTask(s: Dns, i: nat) { exists t :: 0 <= t < |s.tasks| && Active(s.tasks[t]) && s.tasks[t].node == i }

  predicate HasCall(s: Dns, i: nat) { exists c :: 0 <= c < |s.calls| && s.calls[c].stage == NeedSchedule(i) }

  /** Every entry is owned by exactly one task, or by the call that is about to schedule its first. */
  predicate OwnInv(s: Dns) {
    && (forall t :: 0 <= t < |s.tasks| && Active(s.tasks[t]) ==> Valid(s, t))
    && (forall t, u | 0 <= t < |s.tasks| && 0 <= u < |s.tasks| && Active(s.tasks[t]) && Active(s.tasks[u]) ::
          s.tasks[t].node == s.tasks[u].node ==> t == u)
    && (forall c :: 0 <= c < |s.calls| && s.calls[c].stage.NeedSchedule? ==>
                      var i := s.calls[c].stage.node; i < |s.nodes| && s.nodes[i].alive && !HasTask(s, i))
    && (forall c, d | 0 <= c < |s.calls| && 0 <= d < |s.calls| && s.calls[c].stage.NeedSchedule? ::
          s.calls[c].stage == s.calls[d].stage ==> c == d)
    && (forall i :: 0 <= i < |s.nodes| && s.nodes[i].alive ==> HasTask(s, i) || HasCall(s, i))
  }

  // ---------------------------------------------------------------------------------------------
  // The invariant: where the callbacks are

  /** A call's stage tells where its callback is, and the callback is there and nowhere else. */
  predicate PlaceInv(s: Dns) {
    && (forall c :: 0 <= c < |s.calls| ==> InPlace(s, c))
    && (forall i, k :: 0 <= i < |s.nodes| && 0 <= k < |s.nodes[i].callbacks| ==>
                         var c := s.nodes[i].callbacks[k];
                         c < |s.calls| && (s.calls[c].stage == InEntry(i) || s.calls[c].stage == NeedSchedule(i)))
    && (forall i :: 0 <= i < |s.nodes| ==> NoDup(s.nodes[i].callbacks))
    && (forall t, k :: 0 <= t < |s.tasks| && s.tasks[t].pc.Delivering? && 0 <= k < |s.tasks[t].pc.cbs| ==>
                         var c := s.tasks[t].pc.cbs[k]; c < |s.calls| && s.calls[c].stage == InBatch(t))
    && (forall t :: 0 <= t < |s.tasks| && s.tasks[t].pc.Delivering? ==> NoDup(s.tasks[t].pc.cbs))
    && (forall d :: 0 <= d < |s.delivered| ==>
                      s.delivered[d].cb < |s.calls| && s.calls[s.delivered[d].cb].stage == Delivered(d))
  }

  predicate InPlace(s: Dns, c: nat)
    requires c < |s.calls|
  {
    match s.calls[c].stage
    case NeedSchedule(i) => i < |s.nodes| && c in s.nodes[i].callbacks
    case InEntry(i) => i < |s.nodes| && c in s.nodes[i].callbacks
    case InBatch(t) => t < |s.tasks| && s.tasks[t].pc.Delivering? && c in s.tasks[t].pc.cbs
    case Delivered(d) => d < |s.delivered| && s.delivered[d].cb == c
    case _ => true
  }

  // ---------------------------------------------------------------------------------------------
  // The invariant: what the entries hold

  /** The k-th lookup since the last use completes at least (k - 1) periods after it. */
  predicate Spaced(opt: Options, n: Node, at: int) {
    n.lookups >= 1 ==> at >= n.usedAt + (n.lookups - 1) * opt.period
  }

  predicate NodeOk(opt: Options, clock: int, n: Node) {
    && n.usedAt <= clock && n.resolvedAt <= clock
    && (n.first <==> n.callbacks != [])
    && (n.first ==> n.alive && n.addr == Null && n.log == [] && n.idleRuns == 0 && n.usedAt == 0 && n.resolvedAt == 0 && n.lookups <= 1)
    && n.logBase <= |n.log| && n.useCount == |n.log| - n.logBase
    && (n.addr.At? ==> n.addr.ring != [] && n.addr.pos == (n.base + n.useCount) % |n.addr.ring|)
    && (n.lookups >= 1 ==> (n.lookups - 1) * opt.period < opt.duration)
    && n.idleRuns <= 1
    && (!n.alive ==> n.usedAt + opt.duration <= clock)
  }

  /** The callback was given the slot `serve.slot` of its entry's uses, and the address that the ring
      holds for that slot. */
  predicate ServeOk(n: Node, cb: nat, serve: Serve) {
    && serve.slot < |n.log| && n.log[serve.slot] == cb && serve.at <= n.usedAt
    && RingOk(serve) && (serve.slot >= n.logBase ==> SameRing(n, serve))
  }

  /** No refresh has succeeded between the use and the entry's present contents. */
  predicate SameRing(n: Node, serve: Serve) {
    && serve.base == n.base && serve.logBase == n.logBase
    && serve.addr.At? == n.addr.At? && (n.addr.At? ==> serve.addr.ring == n.addr.ring)
  }

  predicate RingOk(serve: Serve) {
    serve.addr.At? ==>
      && serve.addr.ring != [] && serve.logBase <= serve.slot
      && serve.addr.pos == (serve.base + serve.slot - serve.logBase) % |serve.addr.ring|
  }

  predicate BatchOk(n: Node, cbs: seq<nat>, serve: Serve, ran: Option<int>) {
    && serve.slot + |cbs| <= |n.log|
    && (forall k :: 0 <= k < |cbs| ==> n.log[serve.slot + k] == cbs[k])
    && RingOk(serve) && n.logBase <= serve.slot && SameRing(n, serve)
    && (serve.addr.At? ==> ran == Some(serve.obtained))
    && serve.at <= n.usedAt && (ran.Some? ==> serve.at == ran.value)
  }

  predicate TaskOk(opt: Options, clock: int, n: Node, pc: Pc) {
    match pc
    case Scheduled(at) =>
      && Spaced(opt, n, n.resolvedAt) && (n.first ==> n.lookups == 0 && at <= clock) && (n.idleRuns > 0 ==> at == Next(opt, n))
      && (!n.first ==> at <= Next(opt, n))
    case Started(now) =>
      0 <= now <= clock && Spaced(opt, n, n.resolvedAt) && (n.first ==> n.lookups == 0) && (n.idleRuns > 0 ==> now >= Next(opt, n))
    case Resolving => Spaced(opt, n, clock)
    case Resolved(_, now) => 0 <= now <= clock && Spaced(opt, n, now)
    case Delivering(cbs, serve, ran) => !n.first && Spaced(opt, n, n.resolvedAt) && BatchOk(n, cbs, serve, ran)
    case Relock => !n.first && Spaced(opt, n, n.resolvedAt)
    case Rescheduling(next) =>
      !n.first && Spaced(opt, n, n.resolvedAt) && (n.idleRuns > 0 ==> next == Next(opt, n)) && next <= Next(opt, n)
    case Ended => true
  }

  /** What Resolve answers itself: the entry's address, as long as it is young enough. */
  function Given(serve: Serve, ttl: int, now: int): Cursor { if serve.obtained + ttl > now then serve.addr else Null }

  predicate CallOk(s: Dns, c: Call, id: nat) {
    && c.now <= s.clock
    && (c.stage.NeedSchedule? ==>
          c.stage.node < |s.nodes| && s.nodes[c.stage.node].first && s.nodes[c.stage.node].lookups == 0)
    && (c.stage.Serving? ==>
          && c.stage.node < |s.nodes| && ServeOk(s.nodes[c.stage.node], id, c.stage.serve)
          && c.stage.given == Given(c.stage.serve, s.opt.ttl, c.now) && c.stage.serve.at == c.now)
  }

  predicate DeliveryOk(s: Dns, d: Delivery) {
    && d.node < |s.nodes| && d.cb < |s.calls| && ServeOk(s.nodes[d.node], d.cb, d.serve)
    && (if d.byTask then
          && d.given == d.serve.addr && (d.serve.addr.At? ==> d.ran == Some(d.serve.obtained))
          && (d.ran.Some? ==> d.serve.at == d.ran.value)
        else
          d.given == Given(d.serve, s.opt.ttl, s.calls[d.cb].now) && d.serve.at == s.calls[d.cb].now)
  }

  predicate DataInv(s: Dns) {
    && (forall i :: 0 <= i < |s.nodes| ==> NodeOk(s.opt, s.clock, s.nodes[i]))
    && (forall t :: 0 <= t < |s.tasks| && Active(s.tasks[t]) ==>
                      s.tasks[t].node < |s.nodes| && TaskOk(s.opt, s.clock, s.nodes[s.tasks[t].node], s.tasks[t].pc))
    && (forall c :: 0 <= c < |s.calls| ==> CallOk(s, s.calls[c], c))
    && (forall d :: 0 <= d < |s.delivered| ==> DeliveryOk(s, s.delivered[d]))
  }

  predicate Inv(s: Dns) {
    && !s.failed && s.clock >= 0 && s.opt.period > 0 && s.opt.duration > 0
    && IndexInv(s) && OwnInv(s) && PlaceInv(s) && DataInv(s)
  }

  /** What the invariant says of an active task and its entry. */
  lemma TaskFacts(s: Dns, t: nat)
    requires Inv(s) && t < |s.tasks| && Active(s.tasks[t])
    ensures Valid(s, t)
    ensures NodeOk(s.opt, s.clock, s.nodes[s.tasks[t].node])
    ensures TaskOk(s.opt, s.clock, s.nodes[s.tasks[t].node], s.tasks[t].pc)
  {
    hide IndexInv, PlaceInv, NodeOk, TaskOk;
  }

  // ---------------------------------------------------------------------------------------------
  // Uses

  lemma UseKeeps(opt: Options, clock: int, n: Node, cb: nat, now: int)
    requires NodeOk(opt, clock, n) && n.callbacks == [] && n.alive && now <= clock
    ensures NodeOk(opt, clock, Use(n, cb, now))
    ensures n.addr.At? ==> RingOk(ServeNext(n, now))
  {
    if n.addr.At? { ModStep(n.base + n.useCount, |n.addr.ring|); }
  }

  /** Serving a batch reserves consecutive slots and advances the cursor once for each. */
  lemma {:induction false} UseAllKeeps(opt: Options, clock: int, n: Node, cbs: seq<nat>, now: int)
    requires NodeOk(opt, clock, n) && n.callbacks == [] && n.alive && now <= clock
    ensures var m := UseAll(n, cbs, now);
            && NodeOk(opt, clock, m) && m.log == n.log + cbs
            && m.usedAt == (if cbs == [] then n.usedAt else Max(n.usedAt, now))
            && m.addr.At? == n.addr.At? && (n.addr.At? ==> m.addr.ring == n.addr.ring)
            && m == n.(useCount := m.useCount, addr := m.addr, usedAt := m.usedAt, log := m.log,
                       lookups := m.lookups, idleRuns := m.idleRuns)
            && (if cbs == [] then m == n else m.lookups == 0 && m.idleRuns == 0)
    decreases |cbs|
  {
    if cbs == [] {
      assert n.log + cbs == n.log;
    } else {
      var k := |cbs| - 1;
      UseAllKeeps(opt, clock, n, cbs[..k], now);
      UseKeeps(opt, clock, UseAll(n, cbs[..k], now), cbs[k], now);
      assert cbs == cbs[..k] + [cbs[k]];
      assert n.log + cbs[..k] + [cbs[k]] == n.log + cbs;
    }
  }

  lemma StoreKeeps(opt: Options, clock: int, n: Node, ring: seq<string>, now: int)
    requires NodeOk(opt, clock, n) && now <= clock && !n.first
    ensures NodeOk(opt, clock, Store(n, ring, now))
  {
    if ring != [] { ModPlusMod(0, n.useCount, |ring|); }
  }

  // ---------------------------------------------------------------------------------------------
  // Steps of a task that leave all callbacks where they are

  /** The entry is on the same ring as before, or on one that none of its uses so far has seen. */
  predicate Turned(was: Node, n: Node) {
    || n.logBase >= |was.log|
    || (n.base == was.base && n.logBase == was.logBase
        && n.addr.At? == was.addr.At? && (n.addr.At? ==> n.addr.ring == was.addr.ring))
  }

  /** `n` can take the place of its entry's old contents. */
  predicate Continues(old_: Node, n: Node) {
    n.key == old_.key && n.alive == old_.alive && old_.log <= n.log && old_.usedAt <= n.usedAt && Turned(old_, n)
  }

  function Moved(s: Dns, t: nat, n: Node, pc: Pc): Dns
    requires t < |s.tasks| && s.tasks[t].node < |s.nodes|
  {
    s.(nodes := s.nodes[s.tasks[t].node := n], tasks := s.tasks[t := Task(s.tasks[t].node, pc)])
  }

  lemma MovedOwns(s: Dns, t: nat, n: Node, pc: Pc)
    requires IndexInv(s) && OwnInv(s) && t < |s.tasks| && Active(s.tasks[t]) && !pc.Ended?
    requires Valid(s, t) && Continues(s.nodes[s.tasks[t].node], n)
    ensures IndexInv(Moved(s, t, n, pc)) && OwnInv(Moved(s, t, n, pc))
  {
    var s' := Moved(s, t, n, pc);
    SameOwners(s, s');
  }

  /** Ownership depends on which tasks are active and which calls are about to schedule. */
  lemma SameOwners(s: Dns, s': Dns)
    requires OwnInv(s) && |s'.tasks| == |s.tasks| && |s'.calls| == |s.calls| && |s'.nodes| == |s.nodes|
    requires forall t :: 0 <= t < |s.tasks| ==> s'.tasks[t].node == s.tasks[t].node && Active(s'.tasks[t]) == Active(s.tasks[t])
    requires forall c :: 0 <= c < |s.calls| ==> s'.calls[c].stage == s.calls[c].stage
                                                || (!s.calls[c].stage.NeedSchedule? && !s'.calls[c].stage.NeedSchedule?)
    requires forall i :: 0 <= i < |s.nodes| ==> s'.nodes[i].alive == s.nodes[i].alive
    ensures OwnInv(s')
  {
    forall i: nat ensures HasTask(s', i) == HasTask(s, i) {
      if HasTask(s, i) { var t :| 0 <= t < |s.tasks| && Active(s.tasks[t]) && s.tasks[t].node == i; assert Active(s'.tasks[t]); }
      if HasTask(s', i) { var t :| 0 <= t < |s'.tasks| && Active(s'.tasks[t]) && s'.tasks[t].node == i; assert Active(s.tasks[t]); }
    }
    forall i: nat ensures HasCall(s', i) == HasCall(s, i) {
      if HasCall(s, i) { var c :| 0 <= c < |s.calls| && s.calls[c].stage == NeedSchedule(i); assert s'.calls[c].stage == NeedSchedule(i); }
      if HasCall(s', i) { var c :| 0 <= c < |s'.calls| && s'.calls[c].stage == NeedSchedule(i); assert s.calls[c].stage == NeedSchedule(i); }
    }
    assert forall t :: 0 <= t < |s'.tasks| && Active(s'.tasks[t]) ==> Active(s.tasks[t]) && Valid(s, t);
  }

  lemma MovedPlaces(s: Dns, t: nat, n: Node, pc: Pc)
    requires PlaceInv(s) && t < |s.tasks| && s.tasks[t].node < |s.nodes|
    requires n.callbacks == s.nodes[s.tasks[t].node].callbacks && !pc.Delivering?
    requires s.tasks[t].pc.Delivering? ==> s.tasks[t].pc.cbs == []
    ensures PlaceInv(Moved(s, t, n, pc))
  {
    var s' := Moved(s, t, n, pc);
    forall c | 0 <= c < |s'.calls| ensures InPlace(s', c) { assert InPlace(s, c); }
  }

  lemma MovedData(s: Dns, t: nat, n: Node, pc: Pc)
    requires DataInv(s) && OwnInv(s) && t < |s.tasks| && Active(s.tasks[t])
    requires Valid(s, t) && Continues(s.nodes[s.tasks[t].node], n)
    requires NodeOk(s.opt, s.clock, n) && TaskOk(s.opt, s.clock, n, pc)
    ensures DataInv(Moved(s, t, n, pc))
  {
    hide NodeOk, TaskOk, RingOk;
    var i := s.tasks[t].node;
    var s' := Moved(s, t, n, pc);
    forall u | 0 <= u < |s'.tasks| && Active(s'.tasks[u])
      ensures s'.tasks[u].node < |s'.nodes| && TaskOk(s'.opt, s'.clock, s'.nodes[s'.tasks[u].node], s'.tasks[u].pc)
    {
      if u != t { assert Active(s.tasks[u]) && s.tasks[u].node != i; }
    }
    forall c | 0 <= c < |s'.calls| ensures CallOk(s', s'.calls[c], c) {
      assert CallOk(s, s.calls[c], c);
      if s.calls[c].stage.NeedSchedule? { assert HasTask(s, i); }
    }
    forall d | 0 <= d < |s'.delivered| ensures DeliveryOk(s', s'.delivered[d]) {
      assert DeliveryOk(s, s.delivered[d]);
    }
  }

  lemma MovedKeeps(s: Dns, t: nat, n: Node, pc: Pc)
    requires Inv(s) && t < |s.tasks| && Active(s.tasks[t]) && !pc.Ended? && !pc.Delivering?
    requires s.tasks[t].pc.Delivering? ==> s.tasks[t].pc.cbs == []
    requires s.tasks[t].node < |s.nodes|
             && Continues(s.nodes[s.tasks[t].node], n) && n.callbacks == s.nodes[s.tasks[t].node].callbacks
    requires NodeOk(s.opt, s.clock, n) && TaskOk(s.opt, s.clock, n, pc)
    ensures Inv(Moved(s, t, n, pc))
  {
    hide IndexInv, PlaceInv, DataInv, NodeOk, TaskOk;
    assert Valid(s, t);
    MovedOwns(s, t, n, pc);
    MovedPlaces(s, t, n, pc);
    MovedData(s, t, n, pc);
  }

  /** A task goes on, and its entry stays as it is. */
  lemma PcKeeps(s: Dns, t: nat, pc: Pc)
    requires Inv(s) && t < |s.tasks| && Active(s.tasks[t]) && !pc.Ended? && !pc.Delivering?
    requires s.tasks[t].pc.Delivering? ==> s.tasks[t].pc.cbs == []
    requires Valid(s, t) && TaskOk(s.opt, s.clock, s.nodes[s.tasks[t].node], pc)
    ensures Inv(s.(tasks := s.tasks[t := s.tasks[t].(pc := pc)]))
  {
    hide Inv, NodeOk, TaskOk;
    TaskFacts(s, t);
    var n := s.nodes[s.tasks[t].node];
    MovedKeeps(s, t, n, pc);
    assert s.nodes[s.tasks[t].node := n] == s.nodes;
  }

  lemma NowIsPast(s: Dns)
    requires Inv(s)
    ensures s.clock >= 0
  {
  }

  lemma BeginKeeps(s: Dns, t: nat)
    requires Inv(s)
    ensures Inv(Step(s, Begin(t)))
  {
    hide Inv, NodeOk;
    if t < |s.tasks| && s.tasks[t].pc.Scheduled? && s.tasks[t].pc.at <= s.clock {
      TaskFacts(s, t);
      NowIsPast(s);
      PcKeeps(s, t, Started(s.clock));
    }
  }

  lemma AnswerKeeps(s: Dns, t: nat, ring: seq<string>)
    requires Inv(s)
    ensures Inv(Step(s, Answer(t, ring)))
  {
    hide Inv, NodeOk, TaskOk, CheckSection, StoreSection, ResolveSection, DeliverStep;
    if t < |s.tasks| && s.tasks[t].pc.Resolving? {
      TaskFacts(s, t);
      var pc := Resolved(ring, s.clock);
      ResolvedKeeps(s, t, ring);
      AnswersAreHistory(s.(tasks := s.tasks[t := s.tasks[t].(pc := pc)]),
                        s.answers + Found(s.nodes[s.tasks[t].node].key, ring, s.clock));
    }
  }

  lemma ResolvedKeeps(s: Dns, t: nat, ring: seq<string>)
    requires Inv(s) && t < |s.tasks| && s.tasks[t].pc.Resolving?
    ensures Inv(s.(tasks := s.tasks[t := s.tasks[t].(pc := Resolved(ring, s.clock))]))
  {
    hide Inv, NodeOk, BatchOk;
    TaskFacts(s, t);
    NowIsPast(s);
    PcKeeps(s, t, Resolved(ring, s.clock));
  }

  lemma AnswersAreHistory(s: Dns, answers: set<Lookup>)
    requires Inv(s)
    ensures Inv(s.(answers := answers))
  {
    hide NodeOk, TaskOk, ServeOk, NoDup;
    var s' := s.(answers := answers);
    SameOwners(s, s');
    forall c | 0 <= c < |s'.calls| ensures InPlace(s', c) && CallOk(s', s'.calls[c], c) {
      assert InPlace(s, c) && CallOk(s, s.calls[c], c);
    }
    forall d | 0 <= d < |s'.delivered| ensures DeliveryOk(s', s'.delivered[d]) { assert DeliveryOk(s, s.delivered[d]); }
  }

  lemma FinishKeeps(s: Dns, t: nat)
    requires Inv(s)
    ensures Inv(Step(s, Finish(t)))
  {
    hide Inv, NodeOk;
    if t < |s.tasks| && s.tasks[t].pc.Relock? {
      TaskFacts(s, t);
      PcKeeps(s, t, Rescheduling(Next(s.opt, s.nodes[s.tasks[t].node])));
    }
  }

  // ---------------------------------------------------------------------------------------------
  // Handing the waiting callbacks over for delivery

  /** Task t takes the callbacks `cbs` of its entry, which becomes `m`. */
  function Batched(s: Dns, t: nat, m: Node, cbs: seq<nat>, serve: Serve, ran: Option<int>): Dns
    requires t < |s.tasks| && s.tasks[t].node < |s.nodes|
  {
    Moved(s, t, m, Delivering(cbs, serve, ran))
      .(calls := seq(|s.calls|, c requires 0 <= c < |s.calls| =>
                                  if c in cbs then s.calls[c].(stage := InBatch(t)) else s.calls[c]))
  }

  lemma BatchedOwns(s: Dns, t: nat, m: Node, cbs: seq<nat>, serve: Serve, ran: Option<int>)
    requires IndexInv(s) && OwnInv(s) && PlaceInv(s) && t < |s.tasks| && Active(s.tasks[t])
    requires Valid(s, t) && Continues(s.nodes[s.tasks[t].node], m) && cbs == s.nodes[s.tasks[t].node].callbacks
    ensures var s' := Batched(s, t, m, cbs, serve, ran); IndexInv(s') && OwnInv(s')
  {
    var i := s.tasks[t].node;
    var s' := Batched(s, t, m, cbs, serve, ran);
    assert HasTask(s, i);
    forall c | 0 <= c < |s.calls| && c in cbs ensures !s.calls[c].stage.NeedSchedule? {
      var k :| 0 <= k < |cbs| && cbs[k] == c;
      assert s.nodes[i].callbacks[k] == c;
    }
    SameOwners(s, s');
  }

  lemma BatchedPlaces(s: Dns, t: nat, m: Node, cbs: seq<nat>, serve: Serve, ran: Option<int>)
    requires PlaceInv(s) && t < |s.tasks| && s.tasks[t].node < |s.nodes| && !s.tasks[t].pc.Delivering?
    requires cbs == s.nodes[s.tasks[t].node].callbacks && m.callbacks == []
    ensures PlaceInv(Batched(s, t, m, cbs, serve, ran))
  {
    var i := s.tasks[t].node;
    var s' := Batched(s, t, m, cbs, serve, ran);
    forall c | 0 <= c < |s.calls| && c in cbs
      ensures s.calls[c].stage == InEntry(i) || s.calls[c].stage == NeedSchedule(i)
    {
      var k :| 0 <= k < |cbs| && cbs[k] == c;
      assert s.nodes[i].callbacks[k] == c;
    }
    forall c | 0 <= c < |s'.calls| ensures InPlace(s', c) { assert InPlace(s, c); }
    forall j, k | 0 <= j < |s'.nodes| && 0 <= k < |s'.nodes[j].callbacks|
      ensures var c := s'.nodes[j].callbacks[k];
              c < |s'.calls| && (s'.calls[c].stage == InEntry(j) || s'.calls[c].stage == NeedSchedule(j))
    {
      assert s'.nodes[j] == s.nodes[j];
    }
    forall k | 0 <= k < |cbs| ensures cbs[k] < |s'.calls| && s'.calls[cbs[k]].stage == InBatch(t) {
      assert s.nodes[i].callbacks[k] == cbs[k] && cbs[k] in cbs;
    }
    forall u, k | 0 <= u < |s'.tasks| && s'.tasks[u].pc.Delivering? && 0 <= k < |s'.tasks[u].pc.cbs|
      ensures var c := s'.tasks[u].pc.cbs[k]; c < |s'.calls| && s'.calls[c].stage == InBatch(u)
    {
      if u != t { assert s'.tasks[u] == s.tasks[u]; }
    }
  }

  lemma BatchedData(s: Dns, t: nat, m: Node, cbs: seq<nat>, serve: Serve, ran: Option<int>)
    requires DataInv(s) && OwnInv(s) && t < |s.tasks| && Active(s.tasks[t])
    requires Valid(s, t) && Continues(s.nodes[s.tasks[t].node], m)
    requires NodeOk(s.opt, s.clock, m) && TaskOk(s.opt, s.clock, m, Delivering(cbs, serve, ran))
    ensures DataInv(Batched(s, t, m, cbs, serve, ran))
  {
    MovedData(s, t, m, Delivering(cbs, serve, ran));
    hide NodeOk, TaskOk, RingOk;
    var s1 := Moved(s, t, m, Delivering(cbs, serve, ran));
    var s' := Batched(s, t, m, cbs, serve, ran);
    forall c | 0 <= c < |s'.calls| ensures CallOk(s', s'.calls[c], c) { assert CallOk(s1, s1.calls[c], c); }
    forall d | 0 <= d < |s'.delivered| ensures DeliveryOk(s', s'.delivered[d]) { assert DeliveryOk(s1, s1.delivered[d]); }
  }

  predicate SameEntry(n: Node, n1: Node) {
    n1.key == n.key && n1.alive == n.alive && n1.log == n.log && n1.callbacks == n.callbacks && n1.first == n.first
    && n1.usedAt == n.usedAt && Turned(n, n1)
  }

  /** `n1` is what the locked section has made of the entry's contents so far. */
  predicate Prepared(s: Dns, t: nat, n1: Node) {
    && t < |s.tasks| && Active(s.tasks[t]) && !s.tasks[t].pc.Delivering? && Valid(s, t)
    && SameEntry(s.nodes[s.tasks[t].node], n1)
    && NodeOk(s.opt, s.clock, n1.(callbacks := [], first := false))
  }

  lemma TailKeeps(s: Dns, t: nat, n1: Node, now: int, ran: Option<int>)
    requires Inv(s) && Prepared(s, t, n1) && now <= s.clock
    requires n1.callbacks == [] ==> Spaced(s.opt, n1, n1.resolvedAt)
    requires n1.callbacks != [] && n1.addr.At? ==> ran == Some(n1.succAt)
    requires ran.Some? ==> ran.value == now
    ensures Inv(Tail(s.(nodes := s.nodes[s.tasks[t].node := n1]), t, now, ran))
  {
    var i := s.tasks[t].node;
    var s1 := s.(nodes := s.nodes[i := n1]);
    assert NodeOk(s.opt, s.clock, s.nodes[i]);
    if n1.callbacks != [] {
      BatchKeeps(s, t, n1, now, ran);
    } else {
      MovedKeeps(s, t, n1.(first := false), Rescheduling(Next(s.opt, n1)));
      assert Tail(s1, t, now, ran).nodes == s.nodes[i := n1.(first := false)];
    }
  }

  lemma BatchKeeps(s: Dns, t: nat, n1: Node, now: int, ran: Option<int>)
    requires Inv(s) && Prepared(s, t, n1) && now <= s.clock && n1.callbacks != []
    requires (n1.addr.At? ==> ran == Some(n1.succAt)) && (ran.Some? ==> ran.value == now)
    ensures Inv(Tail(s.(nodes := s.nodes[s.tasks[t].node := n1]), t, now, ran))
  {
    hide Inv, NodeOk, UseAll, TaskOk, SameEntry, Continues;
    var i := s.tasks[t].node;
    var m := UseAll(n1.(callbacks := [], first := false), n1.callbacks, now);
    BatchIsOk(s, t, n1, now, ran);
    BatchedKeeps(s, t, m, n1.callbacks, ServeNext(n1, now), ran);
    var s1 := s.(nodes := s.nodes[i := n1]);
    assert Tail(s1, t, now, ran) == Batched(s, t, m, n1.callbacks, ServeNext(n1, now), ran);
  }

  lemma BatchedKeeps(s: Dns, t: nat, m: Node, cbs: seq<nat>, serve: Serve, ran: Option<int>)
    requires Inv(s) && t < |s.tasks| && Active(s.tasks[t]) && !s.tasks[t].pc.Delivering? && Valid(s, t)
    requires cbs == s.nodes[s.tasks[t].node].callbacks && m.callbacks == [] && Continues(s.nodes[s.tasks[t].node], m)
    requires NodeOk(s.opt, s.clock, m) && TaskOk(s.opt, s.clock, m, Delivering(cbs, serve, ran))
    ensures Inv(Batched(s, t, m, cbs, serve, ran))
  {
    hide IndexInv, PlaceInv, DataInv, OwnInv, NodeOk, TaskOk, Continues;
    BatchedOwns(s, t, m, cbs, serve, ran);
    BatchedPlaces(s, t, m, cbs, serve, ran);
    BatchedData(s, t, m, cbs, serve, ran);
  }

  /** The entry after the uses that a batch makes of it, and its task, which has the batch. */
  lemma BatchIsOk(s: Dns, t: nat, n1: Node, now: int, ran: Option<int>)
    requires Prepared(s, t, n1) && now <= s.clock && n1.callbacks != []
    requires (n1.addr.At? ==> ran == Some(n1.succAt)) && (ran.Some? ==> ran.value == now)
    ensures var m := UseAll(n1.(callbacks := [], first := false), n1.callbacks, now);
            && m.callbacks == [] && Continues(s.nodes[s.tasks[t].node], m) && NodeOk(s.opt, s.clock, m)
            && TaskOk(s.opt, s.clock, m, Delivering(n1.callbacks, ServeNext(n1, now), ran))
            && n1.callbacks == s.nodes[s.tasks[t].node].callbacks
  {
    var n2 := n1.(callbacks := [], first := false);
    var m := UseAll(n2, n1.callbacks, now);
    UseAllKeeps(s.opt, s.clock, n2, n1.callbacks, now);
    hide NodeOk, UseAll, RingOk;
    FirstIsCleared(s.opt, s.clock, m);
    RingOkOfServe(s.opt, s.clock, n2, now);
    assert ServeNext(n1, now) == ServeNext(n2, now);
  }

  lemma FirstIsCleared(opt: Options, clock: int, m: Node)
    requires NodeOk(opt, clock, m) && m.callbacks == []
    ensures !m.first
  {
  }

  lemma RingOkOfServe(opt: Options, clock: int, n: Node, now: int)
    requires NodeOk(opt, clock, n)
    ensures RingOk(ServeNext(n, now)) && n.logBase <= |n.log|
  {
  }

  lemma StoreResultKeeps(s: Dns, t: nat)
    requires Inv(s)
    ensures Inv(Step(s, StoreResult(t)))
  {
    hide Inv, NodeOk, Prepared, Store, Tail;
    if t < |s.tasks| && s.tasks[t].pc.Resolved? {
      TaskFacts(s, t);
      var n := s.nodes[s.tasks[t].node];
      var Resolved(ring, now) := s.tasks[t].pc;
      StorePrepares(s, t, ring, now);
      hide TaskOk;
      TailKeeps(s, t, Store(n, ring, now), now, Some(now));
    }
  }

  lemma StorePrepares(s: Dns, t: nat, ring: seq<string>, now: int)
    requires t < |s.tasks| && Active(s.tasks[t]) && !s.tasks[t].pc.Delivering? && Valid(s, t) && now <= s.clock
    requires NodeOk(s.opt, s.clock, s.nodes[s.tasks[t].node]) && Spaced(s.opt, s.nodes[s.tasks[t].node], now)
    ensures var n1 := Store(s.nodes[s.tasks[t].node], ring, now);
            && Prepared(s, t, n1) && Spaced(s.opt, n1, n1.resolvedAt)
            && (n1.callbacks != [] && n1.addr.At? ==> n1.succAt == now)
  {
    var n := s.nodes[s.tasks[t].node];
    StoreKeeps(s.opt, s.clock, n.(callbacks := [], first := false), ring, now);
    assert Store(n, ring, now).(callbacks := [], first := false) == Store(n.(callbacks := [], first := false), ring, now);
  }

  /** Starting a lookup: the bound on lookups since the last use is kept. */
  lemma LookupKeeps(opt: Options, clock: int, n: Node, now: int)
    requires opt.period > 0 && opt.duration > 0
    requires NodeOk(opt, clock, n) && TaskOk(opt, clock, n, Started(now))
    requires n.callbacks == [] ==> now < n.usedAt + opt.duration
    requires n.resolvedAt + opt.period <= now
    ensures var n' := n.(lookups := n.lookups + 1); NodeOk(opt, clock, n') && TaskOk(opt, clock, n', Resolving)
  {
    if n.lookups > 0 { assert n.lookups * opt.period == (n.lookups - 1) * opt.period + opt.period; }
  }

  lemma CheckKeeps(s: Dns, t: nat)
    requires Inv(s)
    ensures Inv(Step(s, Check(t)))
  {
    if t < |s.tasks| && s.tasks[t].pc.Started? {
      TaskFacts(s, t);
      hide Inv, CheckSection;
      CheckSectionKeeps(s, t);
    }
  }

  lemma CheckSectionKeeps(s: Dns, t: nat)
    requires Inv(s) && t < |s.tasks| && s.tasks[t].pc.Started? && s.tasks[t].node < |s.nodes|
    ensures Inv(CheckSection(s, t, s.tasks[t].pc.now))
  {
    hide IndexInv, PlaceInv, DataInv, OwnInv, NodeOk, TaskOk;
    TaskFacts(s, t);
    hide Inv, Tail;
    var n := s.nodes[s.tasks[t].node];
    var now := s.tasks[t].pc.now;
    if n.callbacks == [] && n.usedAt + s.opt.duration <= now {
      StartedTime(s.opt, s.clock, n, now);
      EraseKeeps(s, t);
    } else if n.resolvedAt + s.opt.period <= now {
      LookupStarts(s, t);
    } else {
      IdleTail(s, t);
    }
  }

  lemma StartedTime(opt: Options, clock: int, n: Node, now: int)
    requires TaskOk(opt, clock, n, Started(now))
    ensures 0 <= now <= clock
  {
  }

  lemma LookupStarts(s: Dns, t: nat)
    requires Inv(s) && t < |s.tasks| && s.tasks[t].pc.Started? && Valid(s, t)
    requires var n, now := s.nodes[s.tasks[t].node], s.tasks[t].pc.now;
             (n.callbacks == [] ==> now < n.usedAt + s.opt.duration) && n.resolvedAt + s.opt.period <= now
    ensures var n := s.nodes[s.tasks[t].node]; Inv(Moved(s, t, n.(lookups := n.lookups + 1), Resolving))
  {
    hide IndexInv, PlaceInv, DataInv, OwnInv, NodeOk, TaskOk;
    TaskFacts(s, t);
    var n := s.nodes[s.tasks[t].node];
    LookupKeeps(s.opt, s.clock, n, s.tasks[t].pc.now);
    MovedKeeps(s, t, n.(lookups := n.lookups + 1), Resolving);
  }

  lemma IdleTail(s: Dns, t: nat)
    requires Inv(s) && t < |s.tasks| && s.tasks[t].pc.Started? && Valid(s, t)
    requires var n, now := s.nodes[s.tasks[t].node], s.tasks[t].pc.now;
             (n.callbacks == [] ==> now < n.usedAt + s.opt.duration) && now < n.resolvedAt + s.opt.period
    ensures var i := s.tasks[t].node;
            var n := s.nodes[i];
            Inv(Tail(s.(nodes := s.nodes[i := n.(idleRuns := n.idleRuns + 1)]), t, s.tasks[t].pc.now, None))
  {
    hide IndexInv, PlaceInv, DataInv, OwnInv, NodeOk, TaskOk;
    TaskFacts(s, t);
    var n := s.nodes[s.tasks[t].node];
    IdleKeeps(s.opt, s.clock, n, s.tasks[t].pc.now);
    TailKeeps(s, t, n.(idleRuns := n.idleRuns + 1), s.tasks[t].pc.now, None);
  }

  /** Only one run since the last use can find nothing to do: the next one is late enough. */
  lemma IdleKeeps(opt: Options, clock: int, n: Node, now: int)
    requires opt.period > 0 && opt.duration > 0
    requires NodeOk(opt, clock, n) && TaskOk(opt, clock, n, Started(now))
    requires n.callbacks == [] ==> now < n.usedAt + opt.duration
    requires now < n.resolvedAt + opt.period
    ensures var n' := n.(idleRuns := n.idleRuns + 1);
            && NodeOk(opt, clock, n'.(callbacks := [], first := false)) && now <= clock
            && (n.callbacks == [] ==> Spaced(opt, n', n'.resolvedAt))
            && (n.callbacks != [] ==> n.addr == Null)
  {
  }

  // ---------------------------------------------------------------------------------------------
  // Erasing an entry

  function Erased(s: Dns, t: nat): Dns
    requires t < |s.tasks| && s.tasks[t].node < |s.nodes|
  {
    var i := s.tasks[t].node;
    s.(nodes := s.nodes[i := s.nodes[i].(alive := false)], index := s.index - {s.nodes[i].key},
       tasks := s.tasks[t := Task(i, Ended)])
  }

  lemma EraseOwns(s: Dns, t: nat)
    requires IndexInv(s) && OwnInv(s) && t < |s.tasks| && Active(s.tasks[t])
    ensures IndexInv(Erased(s, t)) && OwnInv(Erased(s, t))
  {
    var i := s.tasks[t].node;
    assert Valid(s, t) && HasTask(s, i);
    var s' := Erased(s, t);
    forall j: nat | j != i ensures HasTask(s', j) == HasTask(s, j) && HasCall(s', j) == HasCall(s, j) {
      if HasTask(s, j) { var u :| 0 <= u < |s.tasks| && Active(s.tasks[u]) && s.tasks[u].node == j; assert Active(s'.tasks[u]); }
      if HasTask(s', j) { var u :| 0 <= u < |s'.tasks| && Active(s'.tasks[u]) && s'.tasks[u].node == j; assert Active(s.tasks[u]); }
    }
    forall u | 0 <= u < |s'.tasks| && Active(s'.tasks[u]) ensures Valid(s', u) {
      assert Active(s.tasks[u]) && Valid(s, u) && s.tasks[u].node != i;
    }
  }

  lemma ErasePlaces(s: Dns, t: nat)
    requires PlaceInv(s) && t < |s.tasks| && s.tasks[t].node < |s.nodes| && !s.tasks[t].pc.Delivering?
    ensures PlaceInv(Erased(s, t))
  {
    var s' := Erased(s, t);
    forall c | 0 <= c < |s'.calls| ensures InPlace(s', c) { assert InPlace(s, c); }
  }

  lemma EraseData(s: Dns, t: nat)
    requires DataInv(s) && OwnInv(s) && t < |s.tasks| && Active(s.tasks[t])
    requires s.tasks[t].node < |s.nodes| && s.nodes[s.tasks[t].node].callbacks == []
    requires s.nodes[s.tasks[t].node].usedAt + s.opt.duration <= s.clock
    ensures DataInv(Erased(s, t))
  {
    hide NodeOk, TaskOk, RingOk;
    var i := s.tasks[t].node;
    var s' := Erased(s, t);
    forall c | 0 <= c < |s'.calls| ensures CallOk(s', s'.calls[c], c) { assert CallOk(s, s.calls[c], c); }
    forall d | 0 <= d < |s'.delivered| ensures DeliveryOk(s', s'.delivered[d]) { assert DeliveryOk(s, s.delivered[d]); }
    forall u | 0 <= u < |s'.tasks| && Active(s'.tasks[u])
      ensures s'.tasks[u].node < |s'.nodes| && TaskOk(s'.opt, s'.clock, s'.nodes[s'.tasks[u].node], s'.tasks[u].pc)
    {
      assert Active(s.tasks[u]) && s.tasks[u].node != i;
    }
    NodeOkDead(s.opt, s.clock, s.nodes[i]);
  }

  lemma EraseKeeps(s: Dns, t: nat)
    requires Inv(s) && t < |s.tasks| && Active(s.tasks[t]) && !s.tasks[t].pc.Delivering?
    requires s.tasks[t].node < |s.nodes| && s.nodes[s.tasks[t].node].callbacks == []
    requires s.nodes[s.tasks[t].node].usedAt + s.opt.duration <= s.clock
    ensures Valid(s, t) && Inv(Erased(s, t))
  {
    hide IndexInv, PlaceInv, DataInv, OwnInv, NodeOk, TaskOk;
    TaskFacts(s, t);
    EraseOwns(s, t);
    ErasePlaces(s, t);
    EraseData(s, t);
  }

  lemma NodeOkDead(opt: Options, clock: int, n: Node)
    requires NodeOk(opt, clock, n) && n.callbacks == [] && n.usedAt + opt.duration <= clock
    ensures NodeOk(opt, clock, n.(alive := false))
  {
  }

  // ---------------------------------------------------------------------------------------------
  // Delivering

  lemma DeliverData(s: Dns, t: nat)
    requires DataInv(s) && OwnInv(s) && PlaceInv(s) && t < |s.tasks| && s.tasks[t].pc.Delivering? && s.tasks[t].pc.cbs != []
    ensures DataInv(DeliverStep(s, t))
  {
    var s' := DeliverStep(s, t);
    assert Active(s.tasks[t]) && Valid(s, t);
    var i := s.tasks[t].node;
    var n := s.nodes[i];
    var Delivering(cbs, serve, ran) := s.tasks[t].pc;
    assert TaskOk(s.opt, s.clock, n, s.tasks[t].pc);
    assert cbs[0] < |s.calls| && s.calls[cbs[0]].stage == InBatch(t);
    assert n.log[serve.slot + 0] == cbs[0];
    if serve.addr.At? { ModStep(serve.base + serve.slot - serve.logBase, |serve.addr.ring|); }
    forall k | 0 <= k < |cbs[1..]| ensures n.log[serve.slot + 1 + k] == cbs[1..][k] { assert n.log[serve.slot + (k + 1)] == cbs[k + 1]; }
    assert TaskOk(s'.opt, s'.clock, n, s'.tasks[t].pc);
    assert DeliveryOk(s', s'.delivered[|s.delivered|]);
    hide NodeOk, TaskOk, RingOk;
    forall c | 0 <= c < |s'.calls| ensures CallOk(s', s'.calls[c], c) { assert CallOk(s, s.calls[c], c); }
    forall d | 0 <= d < |s'.delivered| ensures DeliveryOk(s', s'.delivered[d]) {
      if d < |s.delivered| { assert s'.delivered[d] == s.delivered[d] && DeliveryOk(s, s.delivered[d]); }
    }
    forall u | 0 <= u < |s'.tasks| && Active(s'.tasks[u])
      ensures s'.tasks[u].node < |s'.nodes| && TaskOk(s'.opt, s'.clock, s'.nodes[s'.tasks[u].node], s'.tasks[u].pc)
    {
      if u != t { assert Active(s.tasks[u]); }
    }
  }

  lemma DeliverPlaces(s: Dns, t: nat)
    requires PlaceInv(s) && t < |s.tasks| && s.tasks[t].pc.Delivering? && s.tasks[t].pc.cbs != []
    ensures PlaceInv(DeliverStep(s, t))
  {
    var s' := DeliverStep(s, t);
    var cbs := s.tasks[t].pc.cbs;
    assert cbs[0] < |s.calls| && s.calls[cbs[0]].stage == InBatch(t);
    forall c | 0 <= c < |s'.calls| ensures InPlace(s', c) { DeliverPlace(s, t, c); }
    hide InPlace;
    forall u, k | 0 <= u < |s'.tasks| && s'.tasks[u].pc.Delivering? && 0 <= k < |s'.tasks[u].pc.cbs|
      ensures var c := s'.tasks[u].pc.cbs[k]; c < |s'.calls| && s'.calls[c].stage == InBatch(u)
    {
      if u == t { assert cbs[1..][k] == cbs[k + 1] && cbs[0] != cbs[k + 1]; } else { assert s'.tasks[u] == s.tasks[u]; }
    }
    forall d | 0 <= d < |s'.delivered|
      ensures s'.delivered[d].cb < |s'.calls| && s'.calls[s'.delivered[d].cb].stage == Delivered(d)
    {
      if d < |s.delivered| { assert s'.delivered[d] == s.delivered[d]; }
    }
  }

  lemma DeliverPlace(s: Dns, t: nat, c: nat)
    requires PlaceInv(s) && t < |s.tasks| && s.tasks[t].pc.Delivering? && s.tasks[t].pc.cbs != [] && c < |s.calls|
    ensures c < |DeliverStep(s, t).calls| && InPlace(DeliverStep(s, t), c)
  {
    var cbs := s.tasks[t].pc.cbs;
    assert InPlace(s, c) && cbs[0] < |s.calls|;
    hide PlaceInv;
    if s.calls[c].stage == InBatch(t) && c != cbs[0] {
      var k :| 0 <= k < |cbs| && cbs[k] == c;
      assert cbs[1..][k - 1] == c;
    }
  }

  lemma DeliverKeeps(s: Dns, t: nat)
    requires Inv(s)
    ensures Inv(Step(s, DeliverOne(t)))
  {
    hide Inv, DeliverStep, CheckSection, StoreSection, ResolveSection;
    if t < |s.tasks| && s.tasks[t].pc.Delivering? {
      if s.tasks[t].pc.cbs == [] { BatchDone(s, t); } else { DeliverOneKeeps(s, t); }
    }
  }

  lemma BatchDone(s: Dns, t: nat)
    requires Inv(s) && t < |s.tasks| && s.tasks[t].pc.Delivering? && s.tasks[t].pc.cbs == []
    ensures Inv(DeliverStep(s, t))
  {
    hide Inv, NodeOk, BatchOk;
    TaskFacts(s, t);
    PcKeeps(s, t, Relock);
  }

  lemma DeliverOneKeeps(s: Dns, t: nat)
    requires Inv(s) && t < |s.tasks| && s.tasks[t].pc.Delivering? && s.tasks[t].pc.cbs != []
    ensures Inv(DeliverStep(s, t))
  {
    hide IndexInv, PlaceInv, DataInv, OwnInv, NodeOk, TaskOk;
    FirstInBatch(s, t);
    DeliverData(s, t);
    DeliverPlaces(s, t);
    SameOwners(s, DeliverStep(s, t));
    IndexOnly(s, DeliverStep(s, t));
  }

  lemma FirstInBatch(s: Dns, t: nat)
    requires PlaceInv(s) && t < |s.tasks| && s.tasks[t].pc.Delivering? && s.tasks[t].pc.cbs != []
    ensures s.tasks[t].pc.cbs[0] < |s.calls| && s.calls[s.tasks[t].pc.cbs[0]].stage == InBatch(t)
  {
  }

  // ---------------------------------------------------------------------------------------------
  // Scheduling

  /** The tasks become `tasks`: those that are new or changed satisfy TaskOk and deliver nothing. */
  lemma RetaskData(s: Dns, tasks: seq<Task>)
    requires DataInv(s) && |s.tasks| <= |tasks|
    requires forall u :: 0 <= u < |tasks| && Active(tasks[u]) ==>
               || (u < |s.tasks| && tasks[u] == s.tasks[u])
               || (tasks[u].node < |s.nodes| && TaskOk(s.opt, s.clock, s.nodes[tasks[u].node], tasks[u].pc))
    ensures DataInv(s.(tasks := tasks))
  {
    hide NodeOk, TaskOk, RingOk;
    var s' := s.(tasks := tasks);
    forall c | 0 <= c < |s'.calls| ensures CallOk(s', s'.calls[c], c) { assert CallOk(s, s.calls[c], c); }
    forall d | 0 <= d < |s'.delivered| ensures DeliveryOk(s', s'.delivered[d]) { assert DeliveryOk(s, s.delivered[d]); }
  }

  lemma RetaskPlaces(s: Dns, tasks: seq<Task>)
    requires PlaceInv(s) && |s.tasks| <= |tasks|
    requires forall u :: 0 <= u < |tasks| ==>
               (u < |s.tasks| && tasks[u] == s.tasks[u])
               || (!tasks[u].pc.Delivering? && (u < |s.tasks| ==> !s.tasks[u].pc.Delivering?))
    ensures PlaceInv(s.(tasks := tasks))
  {
    var s' := s.(tasks := tasks);
    forall c | 0 <= c < |s'.calls| ensures InPlace(s', c) { assert InPlace(s, c); }
  }

  /** A task's successor takes the entry over. */
  lemma RescheduleKeeps(s: Dns, t: nat)
    requires Inv(s)
    ensures Inv(Step(s, Reschedule(t)))
  {
    hide IndexInv, OwnInv, PlaceInv, DataInv;
    if t < |s.tasks| && s.tasks[t].pc.Rescheduling? {
      var tasks := Succeeded(s, t);
      SuccessorData(s, t);
      hide NodeOk, TaskOk;
      RetaskPlaces(s, tasks);
      SuccessorOwns(s, s.(tasks := tasks), t);
      IndexOnly(s, s.(tasks := tasks));
    }
  }

  function Succeeded(s: Dns, t: nat): seq<Task>
    requires t < |s.tasks| && s.tasks[t].pc.Rescheduling?
  {
    s.tasks[t := s.tasks[t].(pc := Ended)] + [Task(s.tasks[t].node, Scheduled(s.tasks[t].pc.next))]
  }

  lemma SuccessorData(s: Dns, t: nat)
    requires Inv(s) && t < |s.tasks| && s.tasks[t].pc.Rescheduling?
    ensures DataInv(s.(tasks := Succeeded(s, t)))
  {
    hide IndexInv, OwnInv, PlaceInv, DataInv, NodeOk;
    TaskFacts(s, t);
    RetaskData(s, Succeeded(s, t));
  }

  lemma IndexOnly(s: Dns, s': Dns)
    requires IndexInv(s) && s'.index == s.index && s'.nodes == s.nodes
    ensures IndexInv(s')
  {
  }

  lemma SuccessorOwns(s: Dns, s': Dns, t: nat)
    requires OwnInv(s) && t < |s.tasks| && Active(s.tasks[t])
    requires exists at :: s' == s.(tasks := s.tasks[t := s.tasks[t].(pc := Ended)] + [Task(s.tasks[t].node, Scheduled(at))])
    ensures OwnInv(s')
  {
    var i := s.tasks[t].node;
    var last := |s.tasks|;
    assert HasTask(s, i) && Active(s'.tasks[last]);
    forall j: nat ensures HasTask(s', j) == HasTask(s, j) && HasCall(s', j) == HasCall(s, j) {
      if HasTask(s, j) && j != i {
        var u :| 0 <= u < |s.tasks| && Active(s.tasks[u]) && s.tasks[u].node == j;
        assert Active(s'.tasks[u]) && s'.tasks[u].node == j;
      }
      if HasTask(s', j) && j != i {
        var u :| 0 <= u < |s'.tasks| && Active(s'.tasks[u]) && s'.tasks[u].node == j;
        assert Active(s.tasks[u]) && s.tasks[u].node == j;
      }
    }
    forall u | 0 <= u < |s'.tasks| && Active(s'.tasks[u])
      ensures Valid(s', u) && (s'.tasks[u].node == i ==> u == last) && (u < last ==> Active(s.tasks[u]) && s'.tasks[u] == s.tasks[u])
    {
      if u < last { assert Active(s.tasks[u]) && Valid(s, u); }
    }
  }

  /** The first call's callback stays in its entry. */
  lemma SettleCall(s: Dns, c: nat)
    requires PlaceInv(s) && DataInv(s) && c < |s.calls| && s.calls[c].stage.NeedSchedule?
    ensures var s' := SetStage(s, c, InEntry(s.calls[c].stage.node)); PlaceInv(s') && DataInv(s')
  {
    hide NodeOk, TaskOk, RingOk;
    var s' := SetStage(s, c, InEntry(s.calls[c].stage.node));
    assert InPlace(s, c);
    forall d | 0 <= d < |s'.calls| ensures InPlace(s', d) { assert InPlace(s, d); }
    forall d | 0 <= d < |s'.calls| ensures CallOk(s', s'.calls[d], d) { assert CallOk(s, s.calls[d], d); }
    forall d | 0 <= d < |s'.delivered| ensures DeliveryOk(s', s'.delivered[d]) { assert DeliveryOk(s, s.delivered[d]); }
  }

  lemma ScheduleFirstKeeps(s: Dns, c: nat)
    requires Inv(s)
    ensures Inv(Step(s, ScheduleFirst(c)))
  {
    hide IndexInv, OwnInv, PlaceInv, DataInv, TaskOk;
    if c < |s.calls| && s.calls[c].stage.NeedSchedule? {
      var s' := Step(s, ScheduleFirst(c));
      FirstTaskOk(s, c);
      FirstTaskOwns(s, c);
      IndexOnly(s, s');
      RetaskData(s, s'.tasks);
      RetaskPlaces(s, s'.tasks);
      SettleCall(s.(tasks := s'.tasks), c);
    }
  }

  lemma FirstTaskOk(s: Dns, c: nat)
    requires DataInv(s) && s.opt.period > 0 && c < |s.calls| && s.calls[c].stage.NeedSchedule?
    ensures var i := s.calls[c].stage.node;
            i < |s.nodes| && TaskOk(s.opt, s.clock, s.nodes[i], Scheduled(s.calls[c].now))
  {
    var i := s.calls[c].stage.node;
    assert CallOk(s, s.calls[c], c);
    assert NodeOk(s.opt, s.clock, s.nodes[i]);
  }

  lemma TaskGives(s: Dns, t: nat)
    requires t < |s.tasks| && Active(s.tasks[t])
    ensures HasTask(s, s.tasks[t].node)
  {
  }

  /** Scheduling an entry's first task leaves the owners of all other entries as they are. */
  lemma OtherOwners(s: Dns, c: nat)
    requires c < |s.calls| && s.calls[c].stage.NeedSchedule?
    ensures var s' := Step(s, ScheduleFirst(c));
            forall j: nat :: j != s.calls[c].stage.node ==> HasTask(s', j) == HasTask(s, j) && HasCall(s', j) == HasCall(s, j)
  {
    var s' := Step(s, ScheduleFirst(c));
    forall j: nat | j != s.calls[c].stage.node ensures HasTask(s', j) == HasTask(s, j) && HasCall(s', j) == HasCall(s, j) {
      if HasTask(s, j) { var u :| 0 <= u < |s.tasks| && Active(s.tasks[u]) && s.tasks[u].node == j; assert Active(s'.tasks[u]) && s'.tasks[u].node == j; }
      if HasTask(s', j) { var u :| 0 <= u < |s'.tasks| && Active(s'.tasks[u]) && s'.tasks[u].node == j; assert Active(s.tasks[u]) && s.tasks[u].node == j; }
      if HasCall(s, j) { var d :| 0 <= d < |s.calls| && s.calls[d].stage == NeedSchedule(j); assert s'.calls[d].stage == NeedSchedule(j); }
      if HasCall(s', j) { var d :| 0 <= d < |s'.calls| && s'.calls[d].stage == NeedSchedule(j); assert s.calls[d].stage == NeedSchedule(j); }
    }
  }

  lemma FirstTaskOwns(s: Dns, c: nat)
    requires OwnInv(s) && c < |s.calls| && s.calls[c].stage.NeedSchedule?
    ensures OwnInv(Step(s, ScheduleFirst(c)))
  {
    var i := s.calls[c].stage.node;
    var s' := Step(s, ScheduleFirst(c));
    var last := |s.tasks|;
    assert Active(s'.tasks[last]) && s'.tasks[last].node == i && HasTask(s', i);
    OtherOwners(s, c);
    hide HasTask, HasCall;
    forall u | 0 <= u < |s'.tasks| && Active(s'.tasks[u])
      ensures Valid(s', u) && (s'.tasks[u].node == i ==> u == last) && (u < last ==> Active(s.tasks[u]) && s'.tasks[u] == s.tasks[u])
    {
      if u < last {
        assert Active(s.tasks[u]) && Valid(s, u);
        TaskGives(s, u);
      }
    }
    forall d | 0 <= d < |s'.calls| && s'.calls[d].stage.NeedSchedule? ensures s'.calls[d].stage.node != i && s'.calls[d] == s.calls[d] {
      assert s.calls[d].stage == s'.calls[d].stage;
    }
  }

  // ---------------------------------------------------------------------------------------------
  // Calls

  /** Call c moves on, and entry i takes the contents n. */
  function Answered(s: Dns, i: nat, n: Node, c: nat, stage: Stage): Dns
    requires i < |s.nodes|
  {
    SetStage(s.(nodes := s.nodes[i := n]), c, stage)
  }

  /** `n` is as good as the old contents for whichever task owns the entry. */
  ghost predicate Supersedes(opt: Options, clock: int, was: Node, n: Node) {
    && Continues(was, n) && n.first == was.first && (n.first ==> n.lookups == was.lookups)
    && NodeOk(opt, clock, n)
    && forall pc :: TaskOk(opt, clock, was, pc) ==> TaskOk(opt, clock, n, pc)
  }

  lemma AnsweredData(s: Dns, i: nat, n: Node, c: nat, stage: Stage)
    requires DataInv(s) && i < |s.nodes| && c < |s.calls| && !stage.NeedSchedule?
    requires Supersedes(s.opt, s.clock, s.nodes[i], n)
    requires var s' := Answered(s, i, n, c, stage); CallOk(s', s'.calls[c], c)
    ensures DataInv(Answered(s, i, n, c, stage))
  {
    hide NodeOk, TaskOk, RingOk;
    var s' := Answered(s, i, n, c, stage);
    forall d | 0 <= d < |s'.calls| ensures CallOk(s', s'.calls[d], d) {
      assert CallOk(s, s.calls[d], d);
    }
    forall d | 0 <= d < |s'.delivered| ensures DeliveryOk(s', s'.delivered[d]) {
      assert DeliveryOk(s, s.delivered[d]);
    }
  }

  lemma AnsweredOwns(s: Dns, i: nat, n: Node, c: nat, stage: Stage)
    requires IndexInv(s) && OwnInv(s) && i < |s.nodes| && c < |s.calls| && Continues(s.nodes[i], n)
    requires !stage.NeedSchedule? && !s.calls[c].stage.NeedSchedule?
    ensures var s' := Answered(s, i, n, c, stage); IndexInv(s') && OwnInv(s')
  {
    SameOwners(s, Answered(s, i, n, c, stage));
  }

  lemma WaitKeeps(s: Dns, c: nat, i: nat)
    requires Inv(s) && c < |s.calls| && s.calls[c].stage.Sampled? && i < |s.nodes| && s.nodes[i].callbacks != []
    ensures Inv(Answered(s, i, s.nodes[i].(callbacks := s.nodes[i].callbacks + [c]), c, InEntry(i)))
  {
    hide IndexInv, PlaceInv, DataInv, OwnInv;
    var n := s.nodes[i].(callbacks := s.nodes[i].callbacks + [c]);
    NodeFacts(s, i);
    CallFacts(s, c);
    AnsweredOwns(s, i, n, c, InEntry(i));
    AnsweredData(s, i, n, c, InEntry(i));
    WaitPlaces(s, c, i);
  }

  lemma WaitPlaces(s: Dns, c: nat, i: nat)
    requires PlaceInv(s) && c < |s.calls| && s.calls[c].stage.Sampled? && i < |s.nodes|
    ensures PlaceInv(Answered(s, i, s.nodes[i].(callbacks := s.nodes[i].callbacks + [c]), c, InEntry(i)))
  {
    var cbs := s.nodes[i].callbacks;
    var s' := Answered(s, i, s.nodes[i].(callbacks := cbs + [c]), c, InEntry(i));
    forall d | 0 <= d < |s'.calls| ensures InPlace(s', d) {
      assert InPlace(s, d);
      if d == c { assert (cbs + [c])[|cbs|] == c; }
    }
    forall k | 0 <= k < |cbs| ensures cbs[k] != c { assert s.nodes[i].callbacks[k] == cbs[k]; }
  }

  lemma NodeFacts(s: Dns, i: nat)
    requires DataInv(s) && i < |s.nodes|
    ensures NodeOk(s.opt, s.clock, s.nodes[i])
  {
  }

  lemma CallFacts(s: Dns, c: nat)
    requires DataInv(s) && c < |s.calls|
    ensures s.calls[c].now <= s.clock && CallOk(s, s.calls[c], c)
  {
  }

  lemma ServeKeeps(s: Dns, c: nat, i: nat)
    requires Inv(s) && c < |s.calls| && s.calls[c].stage.Sampled? && i < |s.nodes| && s.nodes[i].callbacks == [] && s.nodes[i].alive
    ensures var n, now := s.nodes[i], s.calls[c].now;
            var given := if n.succAt + s.opt.ttl > now then n.addr else Null;
            Inv(Answered(s, i, Use(n, c, now), c, Serving(i, ServeNext(n, now), given)))
  {
    hide IndexInv, PlaceInv, DataInv, OwnInv;
    var n, now := s.nodes[i], s.calls[c].now;
    var given := if n.succAt + s.opt.ttl > now then n.addr else Null;
    NodeFacts(s, i);
    CallFacts(s, c);
    UseKeeps(s.opt, s.clock, n, c, now);
    UseSupersedes(s.opt, s.clock, n, c, now);
    hide Supersedes, NodeOk;
    AnsweredOwns(s, i, Use(n, c, now), c, Serving(i, ServeNext(n, now), given));
    AnsweredData(s, i, Use(n, c, now), c, Serving(i, ServeNext(n, now), given));
    ServePlaces(s, i, Use(n, c, now), c, Serving(i, ServeNext(n, now), given));
  }

  lemma UseSupersedes(opt: Options, clock: int, n: Node, cb: nat, now: int)
    requires NodeOk(opt, clock, n) && n.callbacks == [] && n.alive && now <= clock
    ensures Supersedes(opt, clock, n, Use(n, cb, now))
  {
    UseKeeps(opt, clock, n, cb, now);
  }

  lemma ServePlaces(s: Dns, i: nat, n: Node, c: nat, stage: Stage)
    requires PlaceInv(s) && c < |s.calls| && s.calls[c].stage.Sampled? && i < |s.nodes|
    requires n.callbacks == s.nodes[i].callbacks && stage.Serving?
    ensures PlaceInv(Answered(s, i, n, c, stage))
  {
    var s' := Answered(s, i, n, c, stage);
    forall d | 0 <= d < |s'.calls| ensures InPlace(s', d) { assert InPlace(s, d); }
  }

  /** A new entry, owned by the call that inserts it. */
  function Inserted(s: Dns, c: nat): Dns
    requires c < |s.calls|
  {
    var key := s.calls[c].key;
    SetStage(s.(nodes := s.nodes + [NewNode(key, c)], index := s.index[key := |s.nodes|]), c, NeedSchedule(|s.nodes|))
  }

  lemma InsertOwns(s: Dns, c: nat)
    requires IndexInv(s) && OwnInv(s) && c < |s.calls| && s.calls[c].stage.Sampled? && s.calls[c].key !in s.index
    ensures IndexInv(Inserted(s, c)) && OwnInv(Inserted(s, c))
  {
    var s' := Inserted(s, c);
    var i := |s.nodes|;
    assert s'.calls[c].stage == NeedSchedule(i) && HasCall(s', i);
    forall j: nat ensures HasTask(s', j) == HasTask(s, j) && (HasCall(s, j) ==> HasCall(s', j)) {
      if HasCall(s, j) { var d :| 0 <= d < |s.calls| && s.calls[d].stage == NeedSchedule(j); assert s'.calls[d].stage == NeedSchedule(j); }
    }
    forall t | 0 <= t < |s'.tasks| && Active(s'.tasks[t]) ensures Valid(s', t) && s'.tasks[t].node != i { assert Valid(s, t); }
    forall d | 0 <= d < |s'.calls| && s'.calls[d].stage.NeedSchedule? && d != c
      ensures s'.calls[d].stage.node < i && s.calls[d] == s'.calls[d]
    {
      assert s.calls[d].stage == s'.calls[d].stage;
    }
  }

  lemma InsertPlaces(s: Dns, c: nat)
    requires PlaceInv(s) && c < |s.calls| && s.calls[c].stage.Sampled?
    ensures PlaceInv(Inserted(s, c))
  {
    var s' := Inserted(s, c);
    forall d | 0 <= d < |s'.calls| ensures InPlace(s', d) { assert InPlace(s, d); }
    forall i, k | 0 <= i < |s'.nodes| && 0 <= k < |s'.nodes[i].callbacks|
      ensures var d := s'.nodes[i].callbacks[k];
              d < |s'.calls| && (s'.calls[d].stage == InEntry(i) || s'.calls[d].stage == NeedSchedule(i))
    {
      if i < |s.nodes| { assert s'.nodes[i] == s.nodes[i]; }
    }
  }

  lemma InsertData(s: Dns, c: nat)
    requires DataInv(s) && s.clock >= 0 && c < |s.calls|
    ensures DataInv(Inserted(s, c))
  {
    var s' := Inserted(s, c);
    assert NodeOk(s.opt, s.clock, NewNode(s.calls[c].key, c));
    hide NodeOk, TaskOk, RingOk;
    forall d | 0 <= d < |s'.calls| ensures CallOk(s', s'.calls[d], d) { assert CallOk(s, s.calls[d], d); }
    forall d | 0 <= d < |s'.delivered| ensures DeliveryOk(s', s'.delivered[d]) { assert DeliveryOk(s, s.delivered[d]); }
  }

  lemma EnterKeeps(s: Dns, c: nat)
    requires Inv(s)
    ensures Inv(Step(s, Enter(c)))
  {
    hide OwnInv, PlaceInv, DataInv;
    if c < |s.calls| && s.calls[c].stage.Sampled? {
      if s.calls[c].key !in s.index {
        hide IndexInv;
        InsertOwns(s, c);
        InsertPlaces(s, c);
        InsertData(s, c);
      } else {
        var i := s.index[s.calls[c].key];
        if s.nodes[i].callbacks != [] { WaitKeeps(s, c, i); } else { ServeKeeps(s, c, i); }
      }
    }
  }

  // ---------------------------------------------------------------------------------------------
  // Answering a call, new calls, and the clock

  lemma InvokeKeeps(s: Dns, c: nat)
    requires Inv(s)
    ensures Inv(Step(s, Invoke(c)))
  {
    hide IndexInv, OwnInv, PlaceInv, DataInv;
    if c < |s.calls| && s.calls[c].stage.Serving? {
      var s' := Step(s, Invoke(c));
      SameOwners(s, s');
      IndexOnly(s, s');
      InvokePlaces(s, c);
      InvokeData(s, c);
    }
  }

  lemma InvokePlaces(s: Dns, c: nat)
    requires PlaceInv(s) && c < |s.calls| && s.calls[c].stage.Serving?
    ensures PlaceInv(Step(s, Invoke(c)))
  {
    var s' := Step(s, Invoke(c));
    forall d | 0 <= d < |s'.calls| ensures InPlace(s', d) { assert InPlace(s, d); }
    forall d | 0 <= d < |s'.delivered|
      ensures s'.delivered[d].cb < |s'.calls| && s'.calls[s'.delivered[d].cb].stage == Delivered(d)
    {
      if d < |s.delivered| { assert s'.delivered[d] == s.delivered[d]; }
    }
  }

  lemma InvokeData(s: Dns, c: nat)
    requires DataInv(s) && c < |s.calls| && s.calls[c].stage.Serving?
    ensures DataInv(Step(s, Invoke(c)))
  {
    hide NodeOk, TaskOk, RingOk;
    var s' := Step(s, Invoke(c));
    assert CallOk(s, s.calls[c], c);
    forall d | 0 <= d < |s'.calls| ensures CallOk(s', s'.calls[d], d) { assert CallOk(s, s.calls[d], d); }
    forall d | 0 <= d < |s'.delivered| ensures DeliveryOk(s', s'.delivered[d]) {
      if d < |s.delivered| { assert s'.delivered[d] == s.delivered[d] && DeliveryOk(s, s.delivered[d]); }
    }
  }

  lemma ResolveKeeps(s: Dns, key: string)
    requires Inv(s)
    ensures Inv(Step(s, Resolve(key)))
  {
    hide IndexInv, OwnInv, PlaceInv, DataInv;
    IndexOnly(s, Step(s, Resolve(key)));
    ResolveOwns(s, key);
    ResolvePlaces(s, key);
    ResolveData(s, key);
  }

  lemma ResolveOwns(s: Dns, key: string)
    requires OwnInv(s)
    ensures OwnInv(Step(s, Resolve(key)))
  {
    var s' := Step(s, Resolve(key));
    forall i: nat ensures HasTask(s', i) == HasTask(s, i) && (HasCall(s, i) ==> HasCall(s', i)) {
      if HasCall(s, i) { var d :| 0 <= d < |s.calls| && s.calls[d].stage == NeedSchedule(i); assert s'.calls[d].stage == NeedSchedule(i); }
    }
    forall t | 0 <= t < |s'.tasks| && Active(s'.tasks[t]) ensures Valid(s', t) { assert Valid(s, t); }
    forall d | 0 <= d < |s'.calls| && s'.calls[d].stage.NeedSchedule? ensures d < |s.calls| && s'.calls[d] == s.calls[d] {}
  }

  lemma ResolvePlaces(s: Dns, key: string)
    requires PlaceInv(s)
    ensures PlaceInv(Step(s, Resolve(key)))
  {
    var s' := Step(s, Resolve(key));
    forall d | 0 <= d < |s'.calls| ensures InPlace(s', d) { if d < |s.calls| { assert InPlace(s, d); } }
  }

  lemma ResolveData(s: Dns, key: string)
    requires DataInv(s)
    ensures DataInv(Step(s, Resolve(key)))
  {
    hide NodeOk, TaskOk, RingOk;
    var s' := Step(s, Resolve(key));
    forall d | 0 <= d < |s'.calls| ensures CallOk(s', s'.calls[d], d) { if d < |s.calls| { assert CallOk(s, s.calls[d], d); } }
    forall d | 0 <= d < |s'.delivered| ensures DeliveryOk(s', s'.delivered[d]) { assert DeliveryOk(s, s.delivered[d]); }
  }

  lemma TickKeeps(s: Dns, dt: nat)
    requires Inv(s)
    ensures Inv(Step(s, Tick(dt)))
  {
    hide IndexInv, OwnInv, PlaceInv, DataInv;
    var s' := Step(s, Tick(dt));
    SameOwners(s, s');
    IndexOnly(s, s');
    TickPlaces(s, dt);
    TickData(s, dt);
  }

  lemma TickData(s: Dns, dt: nat)
    requires DataInv(s)
    ensures DataInv(Step(s, Tick(dt)))
  {
    hide RingOk, ServeOk;
    var s' := Step(s, Tick(dt));
    forall t | 0 <= t < |s'.tasks| && Active(s'.tasks[t])
      ensures s'.tasks[t].node < |s'.nodes| && TaskOk(s'.opt, s'.clock, s'.nodes[s'.tasks[t].node], s'.tasks[t].pc)
    {
      assert TaskOk(s.opt, s.clock, s.nodes[s.tasks[t].node], s.tasks[t].pc);
    }
    forall d | 0 <= d < |s'.calls| ensures CallOk(s', s'.calls[d], d) { assert CallOk(s, s.calls[d], d); }
    forall d | 0 <= d < |s'.delivered| ensures DeliveryOk(s', s'.delivered[d]) { assert DeliveryOk(s, s.delivered[d]); }
  }

  lemma TickPlaces(s: Dns, dt: nat)
    requires PlaceInv(s)
    ensures PlaceInv(Step(s, Tick(dt)))
  {
    var s' := Step(s, Tick(dt));
    forall d | 0 <= d < |s'.calls| ensures InPlace(s', d) { assert InPlace(s, d); }
  }

  // ---------------------------------------------------------------------------------------------
  // Runs

  lemma StepKeeps(s: Dns, l: Label)
    requires Inv(s)
    ensures Inv(Step(s, l))
  {
    hide Inv, Step;
    match l
    case Tick(dt) => TickKeeps(s, dt);
    case Resolve(key) => ResolveKeeps(s, key);
    case Enter(c) => EnterKeeps(s, c);
    case ScheduleFirst(c) => ScheduleFirstKeeps(s, c);
    case Invoke(c) => InvokeKeeps(s, c);
    case Begin(t) => BeginKeeps(s, t);
    case Check(t) => CheckKeeps(s, t);
    case Answer(t, ring) => AnswerKeeps(s, t, ring);
    case StoreResult(t) => StoreResultKeeps(s, t);
    case DeliverOne(t) => DeliverKeeps(s, t);
    case Finish(t) => FinishKeeps(s, t);
    case Reschedule(t) => RescheduleKeeps(s, t);
  }

  predicate Sane(opt: Options, clock: int) { clock >= 0 && opt.period > 0 && opt.duration > 0 }

  lemma {:induction false} RunKeeps(opt: Options, clock: int, ls: seq<Label>)
    requires Sane(opt, clock)
    ensures Inv(Run(NewDns(opt, clock), ls)) && Run(NewDns(opt, clock), ls).opt == opt
    decreases |ls|
  {
    if ls != [] {
      RunKeeps(opt, clock, ls[..|ls| - 1]);
      StepKeeps(Run(NewDns(opt, clock), ls[..|ls| - 1]), ls[|ls| - 1]);
      StepOpt(Run(NewDns(opt, clock), ls[..|ls| - 1]), ls[|ls| - 1]);
    }
  }

  lemma StepOpt(s: Dns, l: Label)
    ensures Step(s, l).opt == s.opt
  {
  }
}
