/** The DNS resolver's cache as it is kept in memory.  Each lock-held section is a method, proved to
    carry out the corresponding step of the model. */
module DnsResolver {
  import opened Common
  import opened DnsModel
  import opened DnsProofs

  // ---------------------------------------------------------------------------------------------
  // Address lists

  class AddrInfo {
    const ip: string
    var next: AddrInfo?

    constructor (ip: string)
      ensures this.ip == ip && next == null
    {
      this.ip := ip;
      next := null;
    }
  }

  /** What getaddrinfo returns: a list that ends in null. */
  predicate IsList(nodes: seq<AddrInfo>)
    reads nodes
  {
    && |nodes| > 0 && NoDup(nodes)
    && (forall i :: 0 <= i < |nodes| - 1 ==> nodes[i].next == nodes[i + 1])
    && nodes[|nodes| - 1].next == null
  }

  predicate IsRing(nodes: seq<AddrInfo>)
    reads nodes
  {
    && |nodes| > 0 && NoDup(nodes)
    && (forall i :: 0 <= i < |nodes| ==> nodes[i].next == nodes[(i + 1) % |nodes|])
  }

  function Ips(nodes: seq<AddrInfo>): (ips: seq<string>)
    ensures |ips| == |nodes|
  {
    seq(|nodes|, i requires 0 <= i < |nodes| => nodes[i].ip)
  }

  /** Bends the end of a list back to its head (src/dns.cc:68-75). */
  method CloseRing(res: AddrInfo, ghost nodes: seq<AddrInfo>)
    requires IsList(nodes) && nodes[0] == res
    modifies nodes
    ensures IsRing(nodes)
  {
    var tail := res;
    ghost var k := 0;
    while true
      invariant 0 <= k < |nodes| && tail == nodes[k]
      invariant forall i :: 0 <= i < |nodes| ==> nodes[i].next == old(nodes[i].next)
      invariant tail.next == if k + 1 < |nodes| then nodes[k + 1] else null
      decreases |nodes| - k
    {
      if tail.next != null {
        tail := tail.next;
        k := k + 1;
        continue;
      }
      tail.next := res;
      forall i | 0 <= i < |nodes| ensures nodes[i].next == nodes[(i + 1) % |nodes|] {
        if i < |nodes| - 1 { assert nodes[i] != tail; }
      }
      return;
    }
  }

  /** `a` points where the cursor `c` says, on a ring of nodes.  Nothing changes a ring once it is
      closed; from here on a pointer into one is its cursor. */
  predicate Points(a: AddrInfo?, ring: seq<AddrInfo>, c: Cursor)
    reads ring
  {
    match c
    case Null => a == null
    case At(ips, pos) => IsRing(ring) && ips == Ips(ring) && pos < |ring| && a == ring[pos]
  }

  /** src/dns.cc:35-37, on pointers. */
  method Advanced(p: AddrInfo?, ghost ring: seq<AddrInfo>, ghost c: Cursor) returns (was: AddrInfo?, next: AddrInfo?)
    requires Points(p, ring, c)
    ensures was == p && Points(next, ring, Advance(c))
  {
    was := p;
    next := if p != null then p.next else null;
  }

  /** Comparing pointers into a ring is comparing cursors. */
  lemma SamePointer(a: AddrInfo, b: AddrInfo, ring: seq<AddrInfo>, c: Cursor, d: Cursor)
    requires Points(a, ring, c) && Points(b, ring, d)
    ensures a == b <==> c == d
  {
  }

  // ---------------------------------------------------------------------------------------------
  // Cache entries

  class CacheData {
    var callbacks: seq<nat>
    var addr: Cursor
    var usedAt: int
    var resolvedAt: int
    var succAt: int
    var useCount: nat

    /** The entry holds what the node `n` of the model says. */
    predicate Shows(n: Node)
      reads this
    {
      && callbacks == n.callbacks && addr == n.addr && usedAt == n.usedAt && resolvedAt == n.resolvedAt
      && succAt == n.succAt && useCount == n.useCount
    }

    constructor (cb: nat)
      ensures forall key :: Shows(NewNode(key, cb))
    {
      callbacks, addr, usedAt, resolvedAt, succAt, useCount := [cb], Null, 0, 0, 0, 0;
    }

    /** src/dns.cc:145-149. */
    method Use(now: int, ghost n: Node, ghost cb: nat)
      requires Shows(n)
      modifies this`useCount, this`addr, this`usedAt
      ensures Shows(DnsModel.Use(n, cb, now))
    {
      useCount := useCount + 1;
      addr := Advance(addr);
      usedAt := Max(usedAt, now);
    }

    /** The shortcut that brings a fresh ring's cursor to where `useCount` uses would have moved it
        (src/dns.cc:124-128): it ends there in less than two rounds, whatever the number of uses. */
    method Rotate(res: Cursor) returns (ghost rounds: nat)
      requires res.At? && res.ring != [] && res.pos == 0 && addr == res
      modifies this`addr, this`useCount
      ensures addr == At(res.ring, old(useCount) % |res.ring|) && useCount == 0
      ensures rounds <= 2 * |res.ring| - 1
    {
      ghost var n, uses := |res.ring|, useCount;
      StartTurning(uses, n);
      hide Rem, Turning, Advance;
      var i := 0;
      while useCount != 0
        invariant addr == At(res.ring, Rem(i, n)) && Turning(i, useCount, uses, n)
        decreases useCount
      {
        TurnOnce(i, useCount, uses, n);
        AdvanceAt(res.ring, i);
        useCount := useCount - 1;
        addr := Advance(addr);
        if addr == res { useCount := Rem(useCount, i + 1); }
        i := i + 1;
      }
      TurnsDone(i, uses, n);
      rounds := i;
    }

    /** Lines 120-129: the outcome of a lookup is stored; a failed one leaves the address as it was. */
    method Store(ring: seq<string>, now: int, ghost n: Node)
      requires Shows(n)
      modifies this
      ensures Shows(DnsModel.Store(n, ring, now))
    {
      resolvedAt := now;
      if ring != [] {
        var res := At(ring, 0);
        addr := res;
        succAt := now;
        var _ := Rotate(res);
      }
    }

    /** Lines 132-134: takes the waiting callbacks and reserves their slots. */
    method HandOver(now: int, ghost n: Node) returns (cbs: seq<nat>, from: Cursor)
      requires Shows(n)
      modifies this
      ensures cbs == n.callbacks && from == n.addr
      ensures Shows(UseAll(n.(callbacks := [], first := false), n.callbacks, now))
    {
      cbs := callbacks;
      callbacks := [];
      from := addr;
      ghost var n0 := n.(callbacks := [], first := false);
      var i := 0;
      while i != |cbs|
        invariant 0 <= i <= |cbs|
        invariant Shows(UseAll(n0, cbs[..i], now))
      {
        assert cbs[..i + 1][..i] == cbs[..i];
        Use(now, UseAll(n0, cbs[..i], now), cbs[i]);
        i := i + 1;
      }
      assert cbs[..|cbs|] == cbs;
    }

    /** Lines 131-141: hands the waiting callbacks over, or finds out when to run next. */
    method Tail(opt: Options, now: int, ghost n: Node) returns (o: Outcome)
      requires Shows(n)
      modifies this
      ensures Shows(AfterTail(n, now))
      ensures o == if n.callbacks != [] then Deliver(n.callbacks, n.addr) else Again(Next(opt, n))
    {
      if callbacks != [] {
        var cbs, from := HandOver(now, n);
        o := Deliver(cbs, from);
      } else {
        o := Again(NextRun(opt));
      }
    }

    /** Lines 139-140. */
    function NextRun(opt: Options): int
      reads this
    {
      Min(resolvedAt + opt.period, usedAt + opt.duration)
    }
  }

  /** The entry when its task has gone through lines 131-141. */
  function AfterTail(n: Node, now: int): Node {
    if n.callbacks != [] then UseAll(n.(callbacks := [], first := false), n.callbacks, now) else n.(first := false)
  }

  /** The source's % operator, on numbers that are not negative. */
  function Rem(i: nat, n: nat): (r: nat)
    requires n > 0
    ensures r < n
  {
    i % n
  }

  lemma AdvanceAt(ips: seq<string>, i: nat)
    requires ips != []
    ensures Advance(At(ips, Rem(i, |ips|))) == At(ips, Rem(i + 1, |ips|))
  {
    ModStep(i, |ips|);
  }

  /** After i iterations: in the first round nothing has been cut; at its end whole rounds are. */
  predicate Turning(i: nat, count: nat, uses: nat, n: nat)
    requires n > 0
  {
    if i < n then i + count == uses else uses >= n && count < n && i + count == n + uses % n
  }

  lemma StartTurning(uses: nat, n: nat)
    requires n > 0
    ensures Turning(0, uses, uses, n) && Rem(0, n) == 0
  {
  }

  lemma TurnOnce(i: nat, count: nat, uses: nat, n: nat)
    requires n > 0 && count > 0 && Turning(i, count, uses, n)
    ensures Rem(count - 1, i + 1) <= count - 1
    ensures Rem(i + 1, n) == 0 <==> i + 1 == n
    ensures Turning(i + 1, if i + 1 == n then Rem(count - 1, i + 1) else count - 1, uses, n)
  {
    if i + 1 == n {
      ModUnique(n, n, 1, 0);
      ModUnique(uses, n, (uses - n) / n + 1, (uses - n) % n);
    } else if i + 1 < n {
      ModUnique(i + 1, n, 0, i + 1);
    } else {
      ModUnique(i + 1, n, 1, i + 1 - n);
    }
  }

  lemma TurnsDone(i: nat, uses: nat, n: nat)
    requires n > 0 && Turning(i, 0, uses, n)
    ensures Rem(i, n) == uses % n && i <= 2 * n - 1
  {
    if i >= n { ModUnique(i, n, 1, uses % n); }
  }

  // ---------------------------------------------------------------------------------------------
  // The resolver

  /** What a task goes on to do when it gives the mutex up. */
  datatype Outcome =
    | Erased
    | LookUp
    | Deliver(cbs: seq<nat>, from: Cursor)
    | Again(next: int)

  predicate Does(o: Outcome, pc: Pc) {
    match o
    case Erased => pc == Ended
    case LookUp => pc == Resolving
    case Deliver(cbs, from) => pc.Delivering? && pc.cbs == cbs && pc.serve.addr == from
    case Again(next) => pc == Rescheduling(next)
  }

  class DnsResolver {
    const opt: Options
    var cache: map<string, CacheData>
    ghost var nodes: seq<CacheData>  // every entry ever inserted
    ghost var st: Dns

    predicate EntriesShow(nodes: seq<CacheData>, view: seq<Node>)
      reads nodes
    {
      && |nodes| == |view|
      && (forall i, j :: 0 <= i < j < |nodes| ==> nodes[i] != nodes[j])
      && (forall i :: 0 <= i < |nodes| ==> nodes[i].Shows(view[i]))
    }

    predicate IndexShows(cache: map<string, CacheData>, nodes: seq<CacheData>, index: map<string, nat>) {
      cache.Keys == index.Keys && forall k :: k in cache ==> index[k] < |nodes| && cache[k] == nodes[index[k]]
    }

    ghost predicate Valid()
      reads this, nodes
    {
      Inv(st) && st.opt == opt && EntriesShow(nodes, st.nodes) && IndexShows(cache, nodes, st.index)
    }

    constructor (opt: Options, clock: int)
      requires Sane(opt, clock)
      ensures Valid() && st == NewDns(opt, clock)
    {
      this.opt := opt;
      cache, nodes, st := map[], [], NewDns(opt, clock);
      new;
      RunKeeps(opt, clock, []);
    }

    /** Resolve, from the moment it has the mutex: lines 86-103.  `inserted` is the entry that the caller
        is to schedule; with `serve` it is to invoke the callback on `addr`. */
    method Enter(c: nat, key: string, now: int) returns (inserted: CacheData?, serve: bool, addr: Cursor)
      requires Valid() && c < |st.calls| && st.calls[c] == Call(key, now, Sampled)
      modifies this`cache, this`nodes, this`st, nodes
      ensures Valid() && st == Step(old(st), DnsModel.Enter(c))
      ensures nodes == if inserted != null then old(nodes) + [inserted] else old(nodes)
      ensures inserted != null ==> fresh(inserted)
      ensures match st.calls[c].stage
              case NeedSchedule(i) => i < |nodes| && inserted == nodes[i] && !serve
              case Serving(_, _, given) => inserted == null && serve && addr == given
              case _ => inserted == null && !serve
    {
      hide Inv, EntriesShow, IndexShows;
      inserted, serve, addr := null, false, Null;
      EnterSection(st, c);
      hide ResolveSection, Step;
      if !Known(key) {
        inserted := Insert(c, key);
      } else {
        var waits, d := Find(key);
        if waits {
          Wait(c, d);
        } else {
          serve := true;
          addr := Serve(c, d, now);
        }
      }
    }

    lemma EnterSection(s: Dns, c: nat)
      requires Inv(s) && c < |s.calls| && s.calls[c].stage.Sampled?
      ensures Step(s, DnsModel.Enter(c)) == ResolveSection(s, c)
      ensures Inv(ResolveSection(s, c)) && ResolveSection(s, c).opt == s.opt
    {
      StepKeeps(s, DnsModel.Enter(c));
    }

    predicate Known(key: string)
      reads this
    {
      key in cache
    }

    /** Lines 95-96. */
    method Find(key: string) returns (waits: bool, d: CacheData)
      requires EntriesShow(nodes, st.nodes) && IndexShows(cache, nodes, st.index) && Known(key)
      ensures d in nodes && Known(key) && d == cache[key] && waits == (d.callbacks != [])
    {
      d := cache[key];
      waits := d.callbacks != [];
    }

    /** Lines 88-92. */
    method Insert(c: nat, key: string) returns (d: CacheData)
      requires EntriesShow(nodes, st.nodes) && IndexShows(cache, nodes, st.index)
      requires c < |st.calls| && st.calls[c].key == key && !Known(key)
      modifies this`cache, this`nodes, this`st
      ensures EntriesShow(nodes, st.nodes) && IndexShows(cache, nodes, st.index) && st == ResolveSection(old(st), c)
      ensures fresh(d) && nodes == old(nodes) + [d]
      ensures c < |st.calls| && st.calls[c].stage == NeedSchedule(|nodes| - 1)
    {
      d := new CacheData(c);
      assert d.Shows(NewNode(key, c));
      cache := cache[key := d];
      nodes := nodes + [d];
      st := ResolveSection(st, c);
    }

    /** Lines 96-98. */
    lemma WaitIs(s: Dns, c: nat)
      requires c < |s.calls| && s.calls[c].key in s.index && s.index[s.calls[c].key] < |s.nodes|
      requires s.nodes[s.index[s.calls[c].key]].callbacks != []
      ensures var i := s.index[s.calls[c].key];
              ResolveSection(s, c) ==
              s.(nodes := s.nodes[i := s.nodes[i].(callbacks := s.nodes[i].callbacks + [c])],
                 calls := s.calls[c := s.calls[c].(stage := InEntry(i))])
    {
    }

    method Wait(c: nat, d: CacheData)
      requires EntriesShow(nodes, st.nodes) && IndexShows(cache, nodes, st.index)
      requires c < |st.calls| && Known(st.calls[c].key) && d == cache[st.calls[c].key] && d.callbacks != []
      modifies this`st, d`callbacks
      ensures EntriesShow(nodes, st.nodes) && IndexShows(cache, nodes, st.index) && st == ResolveSection(old(st), c)
      ensures c < |st.calls| && st.calls[c].stage.InEntry?
    {
      ghost var i := st.index[st.calls[c].key];
      assert d.Shows(st.nodes[i]);
      WaitIs(st, c);
      hide ResolveSection;
      d.callbacks := d.callbacks + [c];
      st := ResolveSection(st, c);
    }

    /** Lines 100-102. */
    method Serve(c: nat, d: CacheData, now: int) returns (addr: Cursor)
      requires EntriesShow(nodes, st.nodes) && IndexShows(cache, nodes, st.index)
      requires c < |st.calls| && Known(st.calls[c].key) && d == cache[st.calls[c].key] && d.callbacks == []
      requires st.calls[c].now == now && st.opt == opt
      modifies this`st, d`useCount, d`addr, d`usedAt
      ensures EntriesShow(nodes, st.nodes) && IndexShows(cache, nodes, st.index) && st == ResolveSection(old(st), c)
      ensures c < |st.calls| && st.calls[c].stage.Serving? && st.calls[c].stage.given == addr
    {
      ghost var i := st.index[st.calls[c].key];
      ghost var n := st.nodes[i];
      assert d.Shows(n);
      addr := if d.succAt + opt.ttl > now then d.addr else Null;
      d.Use(now, n, c);
      st := ResolveSection(st, c);
    }

    // -------------------------------------------------------------------------------------------
    // ProcessCacheEntry, run by task t on the entry `it`

    ghost predicate Runs(t: nat, it: CacheData)
      reads this
    {
      t < |st.tasks| && Active(st.tasks[t]) && st.tasks[t].node < |nodes| && it == nodes[st.tasks[t].node]
    }

    /** From the moment it first has the mutex: lines 111-116, and on to its end unless it looks up. */
    method Check(t: nat, it: CacheData, key: string, now: int) returns (o: Outcome)
      requires Valid() && Runs(t, it) && st.tasks[t].pc == Started(now)
      requires st.nodes[st.tasks[t].node].key == key
      modifies this`cache, this`st, it
      ensures Valid() && st == Step(old(st), DnsModel.Check(t))
      ensures t < |st.tasks| && Does(o, st.tasks[t].pc)
    {
      hide Inv, IndexShows, EntriesShow;
      CheckIsSection(st, t);
      hide Step, CheckSection;
      o := Examine(t, it, key, now);
    }

    lemma CheckIsSection(s: Dns, t: nat)
      requires Inv(s) && t < |s.tasks| && s.tasks[t].pc.Started?
      ensures s.tasks[t].node < |s.nodes| && Step(s, DnsModel.Check(t)) == CheckSection(s, t, s.tasks[t].pc.now)
      ensures Inv(CheckSection(s, t, s.tasks[t].pc.now)) && CheckSection(s, t, s.tasks[t].pc.now).opt == s.opt
      ensures s.nodes[s.tasks[t].node].key in s.index
    {
      StepKeeps(s, DnsModel.Check(t));
      assert Active(s.tasks[t]) && DnsModel.Valid(s, t);
    }

    method Examine(t: nat, it: CacheData, key: string, now: int) returns (o: Outcome)
      requires EntriesShow(nodes, st.nodes) && IndexShows(cache, nodes, st.index) && st.opt == opt
      requires Runs(t, it) && st.tasks[t].pc == Started(now)
      requires st.nodes[st.tasks[t].node].key == key
      modifies this`cache, this`st, it
      ensures EntriesShow(nodes, st.nodes) && IndexShows(cache, nodes, st.index)
      ensures st == CheckSection(old(st), t, now)
      ensures t < |st.tasks| && Does(o, st.tasks[t].pc)
    {
      hide UseAll, Next, IndexShows;
      ghost var n := st.nodes[st.tasks[t].node];
      assert it.Shows(n);
      if it.callbacks == [] && it.usedAt + opt.duration <= now {
        Erase(t, it, key, now);
        return Erased;
      }
      if it.resolvedAt + opt.period <= now {
        o := LookUp;
        st := CheckSection(st, t, now);
      } else {
        o := Idle(t, it, now);
      }
    }

    method Idle(t: nat, it: CacheData, now: int) returns (o: Outcome)
      requires EntriesShow(nodes, st.nodes) && IndexShows(cache, nodes, st.index) && st.opt == opt
      requires Runs(t, it) && st.tasks[t].pc == Started(now)
      requires !(it.callbacks == [] && it.usedAt + opt.duration <= now) && now < it.resolvedAt + opt.period
      modifies this`st, it
      ensures EntriesShow(nodes, st.nodes) && IndexShows(cache, nodes, st.index)
      ensures st == CheckSection(old(st), t, now)
      ensures t < |st.tasks| && Does(o, st.tasks[t].pc)
    {
      hide UseAll, Next, IndexShows;
      ghost var n := st.nodes[st.tasks[t].node];
      assert it.Shows(n);
      o := it.Tail(opt, now, n.(idleRuns := n.idleRuns + 1));
      st := CheckSection(st, t, now);
    }

    /** Lines 112-113. */
    method Erase(t: nat, it: CacheData, key: string, now: int)
      requires EntriesShow(nodes, st.nodes) && IndexShows(cache, nodes, st.index) && st.opt == opt
      requires Runs(t, it) && st.tasks[t].pc == Started(now) && st.nodes[st.tasks[t].node].key == key
      requires it.callbacks == [] && it.usedAt + opt.duration <= now
      modifies this`cache, this`st
      ensures EntriesShow(nodes, st.nodes) && IndexShows(cache, nodes, st.index)
      ensures st == CheckSection(old(st), t, now) && t < |st.tasks| && st.tasks[t].pc == Ended
    {
      assert it.Shows(st.nodes[st.tasks[t].node]);
      cache := cache - {key};
      st := CheckSection(st, t, now);
    }

    /** From the moment it has the mutex back after the lookup: lines 119-141. */
    method StoreResult(t: nat, it: CacheData, ring: seq<string>, now: int) returns (o: Outcome)
      requires Valid() && Runs(t, it) && st.tasks[t].pc == Resolved(ring, now)
      modifies this`st, it
      ensures Valid() && st == Step(old(st), DnsModel.StoreResult(t))
      ensures t < |st.tasks| && Does(o, st.tasks[t].pc)
    {
      hide Inv, IndexShows, EntriesShow;
      StoreIsSection(st, t);
      hide Step, StoreSection;
      o := StoreAndTail(t, it, ring, now);
    }

    lemma StoreIsSection(s: Dns, t: nat)
      requires Inv(s) && t < |s.tasks| && s.tasks[t].pc.Resolved?
      ensures s.tasks[t].node < |s.nodes|
      ensures var s' := StoreSection(s, t, s.tasks[t].pc.ring, s.tasks[t].pc.now);
              Step(s, DnsModel.StoreResult(t)) == s' && Inv(s') && s'.opt == s.opt
    {
      hide Inv, NodeOk, TaskOk, StoreSection;
      TaskFacts(s, t);
      StepKeeps(s, DnsModel.StoreResult(t));
      StoreSectionOpt(s, t);
    }

    lemma StoreSectionOpt(s: Dns, t: nat)
      requires t < |s.tasks| && s.tasks[t].pc.Resolved? && s.tasks[t].node < |s.nodes|
      ensures StoreSection(s, t, s.tasks[t].pc.ring, s.tasks[t].pc.now).opt == s.opt
    {
    }

    method StoreAndTail(t: nat, it: CacheData, ring: seq<string>, now: int) returns (o: Outcome)
      requires EntriesShow(nodes, st.nodes) && IndexShows(cache, nodes, st.index) && st.opt == opt
      requires Runs(t, it) && st.tasks[t].pc == Resolved(ring, now)
      modifies this`st, it
      ensures EntriesShow(nodes, st.nodes) && IndexShows(cache, nodes, st.index)
      ensures st == StoreSection(old(st), t, ring, now)
      ensures t < |st.tasks| && Does(o, st.tasks[t].pc)
    {
      hide UseAll, Next, IndexShows;
      ghost var n := st.nodes[st.tasks[t].node];
      assert it.Shows(n);
      it.Store(ring, now, n);
      o := it.Tail(opt, now, DnsModel.Store(n, ring, now));
      st := StoreSection(st, t, ring, now);
    }

    /** One iteration of line 136: callback `cb` is invoked on `given`. */
    method DeliverOne(t: nat, cb: nat, from: Cursor) returns (given: Cursor, rest: Cursor)
      requires Valid() && t < |st.tasks| && st.tasks[t].pc.Delivering? && st.tasks[t].pc.serve.addr == from
      requires st.tasks[t].pc.cbs != [] && st.tasks[t].pc.cbs[0] == cb
      modifies this`st
      ensures Valid() && st == Step(old(st), DnsModel.DeliverOne(t))
      ensures st.delivered != [] && st.delivered[|st.delivered| - 1].cb == cb
      ensures st.delivered[|st.delivered| - 1].given == given
      ensures t < |st.tasks| && st.tasks[t].pc.Delivering? && st.tasks[t].pc.serve.addr == rest
    {
      hide Inv, EntriesShow, IndexShows;
      DeliverFacts(st, t);
      hide Step;
      given, rest := from, Advance(from);
      st := Step(st, DnsModel.DeliverOne(t));
    }

    /** From the moment it has the mutex after the deliveries: lines 138-141. */
    method Finish(t: nat, it: CacheData) returns (next: int)
      requires Valid() && Runs(t, it) && st.tasks[t].pc == Relock
      modifies this`st
      ensures Valid() && st == Step(old(st), DnsModel.Finish(t))
      ensures t < |st.tasks| && st.tasks[t].pc == Rescheduling(next)
    {
      hide Inv, IndexShows;
      FinishFacts(st, t);
      hide Step;
      assert it.Shows(st.nodes[st.tasks[t].node]);
      next := it.NextRun(opt);
      st := Step(st, DnsModel.Finish(t));
    }

    lemma DeliverFacts(s: Dns, t: nat)
      requires Inv(s) && t < |s.tasks| && s.tasks[t].pc.Delivering? && s.tasks[t].pc.cbs != []
      ensures var s' := Step(s, DnsModel.DeliverOne(t));
              && Inv(s') && s'.opt == s.opt && s'.nodes == s.nodes && s'.index == s.index
              && |s'.tasks| == |s.tasks| && s'.tasks[t].pc.Delivering?
              && s'.tasks[t].pc.serve.addr == Advance(s.tasks[t].pc.serve.addr)
              && |s'.delivered| == |s.delivered| + 1 && s'.delivered[|s.delivered|].cb == s.tasks[t].pc.cbs[0]
              && s'.delivered[|s.delivered|].given == s.tasks[t].pc.serve.addr
    {
      hide Inv;
      StepKeeps(s, DnsModel.DeliverOne(t));
    }

    lemma FinishFacts(s: Dns, t: nat)
      requires Inv(s) && t < |s.tasks| && s.tasks[t].pc.Relock?
      ensures s.tasks[t].node < |s.nodes|
      ensures var s' := Step(s, DnsModel.Finish(t));
              && Inv(s') && s'.opt == s.opt && s'.nodes == s.nodes && s'.index == s.index
              && |s'.tasks| == |s.tasks| && s'.tasks[t].pc == Rescheduling(Next(s.opt, s.nodes[s.tasks[t].node]))
    {
      StepKeeps(s, DnsModel.Finish(t));
      assert Active(s.tasks[t]) && DnsModel.Valid(s, t);
    }
  }
}
