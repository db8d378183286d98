/** The pair of links in the loop that serves it.  Between the steps of the loop the two models agree;
    each step of the loop is a step of the pair or leaves it alone, whatever else the loop serves.  The
    lemmas speak of the link `me`, whose handler is a; ServesSwapped turns the pair round. */
module ForwarderInLoop {
  import opened Common
  import opened ForwarderClient
  import F = ForwarderModel
  import FP = ForwarderProofs
  import E = EventLoopModel
  import EP = EventLoopProofs

  const EPOLLERR := 0x8

  predicate HasBit(mask: int, bit: int)
    requires bit > 0
  {
    (mask / bit) % 2 == 1
  }

  /** What OnEvent reads from the events of an entry. */
  function Meaning(mask: int): F.Events {
    F.Events(HasBit(mask, EPOLLERR), HasBit(mask, EPOLLIN), HasBit(mask, EPOLLOUT))
  }

  /** Bit by bit: i is EPOLLIN, o is EPOLLOUT, e is EPOLLERR; the rest, x and k, says nothing. */
  lemma MeaningOfBits(i: nat, x: nat, o: nat, e: nat, k: int)
    requires i < 2 && x < 2 && o < 2 && e < 2
    ensures Meaning(i + 2 * x + 4 * o + 8 * e + 16 * k) == F.Events(e == 1, i == 1, o == 1)
  {
    LowBits(i, x + 2 * o + 4 * e + 8 * k);
    LowBits(o, e + 2 * k);
    LowBits(e, k);
    Shifted(i + 2 * x + 4 * o, i + 2 * x, o, e, k);
  }

  lemma LowBits(bit: nat, rest: int)
    requires bit < 2
    ensures (bit + 2 * rest) % 2 == bit
  {
  }

  lemma Shifted(low: nat, lower: nat, o: nat, e: nat, k: int)
    requires lower < 4 && low == lower + 4 * o && low < 8
    ensures (low + 8 * e + 16 * k) / 4 == o + 2 * (e + 2 * k) && (low + 8 * e + 16 * k) / 8 == e + 2 * k
  {
  }

  /** What a link asks for in the interest set is what it then reads from an event. */
  lemma MaskIsRead(in_: bool, out: bool)
    ensures Meaning(Mask(in_, out)) == F.Events(false, in_, out) && HasBit(Mask(in_, out), EPOLLET)
  {
    MeaningOfBits(if in_ then 1 else 0, 0, if out then 1 else 0, 0, 0x800_0000);
  }

  /** The kernel reports of a descriptor only what its interest set asks for, and errors. */
  predicate Truthful(interest: map<nat, int>, evs: seq<E.Event>, a: nat) {
    forall i :: 0 <= i < |evs| && evs[i].On? && evs[i].h == a && a in interest ==>
      (Meaning(evs[i].mask).in_ ==> Meaning(interest[a]).in_) && (Meaning(evs[i].mask).out ==> Meaning(interest[a]).out)
  }

  /** The entries of the batch for handler a are what the link has been told. */
  predicate Entries(batch: seq<E.Event>, a: nat, l: F.Link) {
    forall i :: 0 <= i < |batch| && batch[i].On? && batch[i].h == a ==> l.batch == Some(Meaning(batch[i].mask))
  }

  predicate Runs(pc: E.Pc, a: nat) { (pc.InEvent? || pc.InTimeout?) && pc.h == a }

  /** The loop serves the pair p as its handlers a and b, and runs neither of them at the moment. */
  ghost predicate Serves(s: E.Loop, a: nat, b: nat, p: F.Pair) {
    && EP.Inv(s) && FP.Inv(p) && Hosts(s, a, b, p, 0, 0) && !Runs(s.pc, a) && !Runs(s.pc, b)
    && Entries(s.batch, a, p.me) && Entries(s.batch, b, p.peer)
  }

  lemma ServesSwapped(s: E.Loop, a: nat, b: nat, p: F.Pair)
    requires Serves(s, a, b, p)
    ensures Serves(s, b, a, F.Swap(p))
  {
    hide EP.Inv, FP.SafeInv;
    HostsSwapped(s, a, b, p, 0, 0);
    InvSwapped(p);
  }

  lemma InvSwapped(p: F.Pair)
    requires FP.Inv(p)
    ensures FP.Inv(F.Swap(p))
  {
    hide FP.SafeInv, FP.EdgeInv;
    FP.SwapSafe(p);
    assert F.Swap(F.Swap(p)) == p;
  }

  /** The batch has an entry for handler a exactly when the link expects one. */
  lemma OneEntry(s: E.Loop, a: nat, b: nat, p: F.Pair)
    requires Serves(s, a, b, p)
    ensures EP.Count(s.batch, a) == FP.B(p.me.batch.Some?)
    ensures !p.me.freed || EP.Count(s.batch, a) == 0
  {
    EP.RefOf(s, a);
    hide EP.Inv, FP.Splits, FP.Carried, FP.SentPrefix, FP.FlowInv, FP.Coherent, FP.EdgeInv;
  }

  // ---------------------------------------------------------------------------------------------
  // Runs of the loop

  lemma {:induction false} RunBoth(s: E.Loop, ls: seq<E.Label>, more: seq<E.Label>)
    ensures E.Run(s, ls + more) == E.Run(E.Run(s, ls), more)
    decreases |more|
  {
    hide E.Step;
    if more == [] {
      assert ls + more == ls;
    } else {
      var k := |more| - 1;
      assert (ls + more)[..|ls + more| - 1] == ls + more[..k];
      RunBoth(s, ls, more[..k]);
    }
  }

  lemma RunOne(s: E.Loop, l: E.Label)
    ensures E.Run(s, [l]) == E.Step(s, l)
  {
    hide E.Step;
    assert [l][..0] == [];
    assert E.Run(s, []) == s;
  }

  function Calls(ops: seq<E.Op>): seq<E.Label> {
    if ops == [] then [] else [E.Client(ops[0])] + Calls(ops[1..])
  }

  /** What a handler does is a run of the loop. */
  lemma {:induction false} CallsRun(s: E.Loop, ops: seq<E.Op>)
    requires EP.Inv(s) && E.InClient(s.pc) && Polite(s, ops)
    ensures E.Run(s, Calls(ops)) == After(s, ops)
    decreases |ops|
  {
    if ops != [] {
      EP.DoKeeps(s, ops[0]);
      hide EP.Inv, E.Do, E.Allowed;
      RunOne(s, E.Client(ops[0]));
      CallsRun(E.Do(s, ops[0]), ops[1..]);
      RunBoth(s, [E.Client(ops[0])], Calls(ops[1..]));
    }
  }

  /** The loop calls a handler, the handler does `ops`, and returns. */
  function Handled(ops: seq<E.Op>): seq<E.Label> { [E.Continue] + Calls(ops) + [E.Returns] }

  lemma HandledRun(s: E.Loop, ops: seq<E.Op>)
    requires EP.Inv(s) && E.InClient(E.Step(s, E.Continue).pc) && Polite(E.Step(s, E.Continue), ops)
    ensures E.Run(s, Handled(ops)) == E.Return(After(E.Step(s, E.Continue), ops))
  {
    EP.StepKeeps(s, E.Continue);
    hide EP.Inv, E.Dispatch, E.Expire, E.Return;
    var s1 := E.Step(s, E.Continue);
    RunOne(s, E.Continue);
    CallsRun(s1, ops);
    RunBoth(s, [E.Continue], Calls(ops));
    RunBoth(s, [E.Continue] + Calls(ops), [E.Returns]);
    RunOne(After(s1, ops), E.Returns);
  }

  // ---------------------------------------------------------------------------------------------
  // An entry of the batch

  /** The loop has come to an entry for handler a. */
  predicate Next(s: E.Loop, a: nat) { s.pc.Dispatching? && s.batch != [] && s.batch[0].On? && s.batch[0].h == a }

  lemma EntryFacts(s: E.Loop, a: nat, b: nat, p: F.Pair)
    requires Serves(s, a, b, p) && Next(s, a)
    ensures p.me.batch == Some(Meaning(s.batch[0].mask)) && !p.me.freed && a < |s.hs|
    ensures EP.Count(s.batch[1..], a) == 0 && Entries(s.batch[1..], b, p.peer)
    ensures FP.SafeInv(p) && !p.failed
    ensures s.hs[a].registered == p.me.registered
    ensures E.Step(s, E.Continue) == if p.me.registered then s.(pc := E.InEvent(a)) else E.DecRef(s, a).(batch := s.batch[1..])
  {
    OneEntry(s, a, b, p);
    assert EP.Count(s.batch, a) == 1 + EP.Count(s.batch[1..], a);
    hide EP.Inv, FP.SafeInv, FP.EdgeInv, EP.Count;
    assert p.me.batch == Some(Meaning(s.batch[0].mask));
    EntriesTail(s.batch, b, p.peer);
    NotFailed(p);
  }

  lemma NotFailed(p: F.Pair)
    requires FP.SafeInv(p)
    ensures !p.failed
  {
  }

  lemma EntriesTail(batch: seq<E.Event>, a: nat, l: F.Link)
    requires Entries(batch, a, l) && batch != []
    ensures Entries(batch[1..], a, l)
  {
    forall i | 0 <= i < |batch[1..]| && batch[1..][i].On? && batch[1..][i].h == a
      ensures l.batch == Some(Meaning(batch[1..][i].mask))
    {
      assert batch[1..][i] == batch[i + 1];
    }
  }

  lemma {:induction false} NoEntries(batch: seq<E.Event>, a: nat, l: F.Link)
    requires EP.Count(batch, a) == 0
    ensures Entries(batch, a, l)
  {
    if batch != [] {
      NoEntries(batch[1..], a, l);
      forall i | 0 <= i < |batch| && batch[i].On? && batch[i].h == a ensures l.batch == Some(Meaning(batch[i].mask)) {
        assert batch[1..][i - 1] == batch[i];
      }
    }
  }

  /** The loop gives back the reference that the entry holds, and the link loses its batch entry. */
  lemma EntryDropped(s: E.Loop, a: nat, b: nat, q: F.Pair, batch: seq<E.Event>)
    requires Hosts(s, a, b, q, 0, 0) && !s.failed
    requires var s' := E.DecRef(s, a).(pc := E.Dispatching, batch := batch); EP.Inv(s')
    requires var q' := F.DecRef(q.(me := q.me.(batch := None))); FP.Inv(q')
    requires EP.Count(batch, a) == 0 && Entries(batch, b, q.peer)
    ensures Serves(E.DecRef(s, a).(pc := E.Dispatching, batch := batch), a, b, F.DecRef(q.(me := q.me.(batch := None))))
  {
    var s' := E.DecRef(s, a).(pc := E.Dispatching, batch := batch);
    assert !s'.failed;
    hide EP.Inv, FP.Inv, FP.SafeInv, EP.Count, E.DecRef, F.Unref, Hosted, Entries;
    DropHosts(s, a, b, q, q.me.(batch := None));
    NoEntries(batch, a, F.DecRef(q.(me := q.me.(batch := None))).me);
    HostsHere(E.DecRef(s, a), a, b, F.DecRef(q.(me := q.me.(batch := None))), E.Dispatching, batch);
  }

  /** A reference of the loop on handler a is given back, in both models. */
  lemma DropHosts(s: E.Loop, a: nat, b: nat, q: F.Pair, l: F.Link)
    requires Hosts(s, a, b, q, 0, 0) && !E.DecRef(s, a).failed && l == q.me.(temps := l.temps, batch := l.batch)
    ensures Hosts(E.DecRef(s, a), a, b, F.DecRef(q.(me := l)), 0, 0)
  {
    hide F.DestroyBuf;
  }

  lemma DeliverIs(p: F.Pair, o: F.Oracle)
    requires FP.Inv(p) && p.me.batch.Some?
    requires p.me.registered ==> F.OnEvent(p, p.me.batch.value, o).done
    ensures var q := if p.me.registered then F.OnEvent(p, p.me.batch.value, o).p else p;
            && F.Act(p, F.Deliver(o)) == F.DecRef(q.(me := q.me.(batch := None)))
            && FP.Inv(F.DecRef(q.(me := q.me.(batch := None)))) && q.peer.batch == p.peer.batch
  {
    FP.ActKeeps(p, F.Deliver(o));
    DeliverRel(p, o);
    hide FP.SafeInv, FP.EdgeInv, F.OnEvent, F.DecRef, FP.Splits, FP.Carried, FP.SentPrefix, FP.FlowInv, FP.Coherent;
    assert !p.failed && !p.me.freed;
  }

  lemma DeliverRel(p: F.Pair, o: F.Oracle)
    requires FP.Inv(p) && p.me.batch.Some?
    ensures !p.failed && !p.me.freed
    ensures p.me.registered ==> F.OnEvent(p, p.me.batch.value, o).p.peer.batch == p.peer.batch
  {
    hide FP.EdgeInv, FP.StrictEdge, F.OnEvent, FP.Splits, FP.Carried, FP.SentPrefix, FP.FlowInv, FP.Coherent;
    if p.me.registered {
      FP.OnEventSafe(p, p.me.batch.value, o);
      hide FP.SafeInv;
    }
  }

  /** The loop deals with an entry for a link: what the link does is allowed by the loop, and the pair
      and the loop agree when it is done. */
  lemma DeliverFollows(s: E.Loop, a: nat, b: nat, p: F.Pair, o: F.Oracle) returns (ops: seq<E.Op>)
    requires Serves(s, a, b, p) && Next(s, a)
    requires p.me.registered ==> F.OnEvent(p, Meaning(s.batch[0].mask), o).done
    ensures Polite(E.Step(s, E.Continue), ops)
    ensures var s' := E.Run(s, if p.me.registered then Handled(ops) else [E.Continue]);
            && Serves(s', a, b, F.Act(p, F.Deliver(o)))
            && s'.pc == E.Dispatching && s'.batch == s.batch[1..] && s'.clock == s.clock && |s'.hs| == |s.hs|
  {
    EntryFacts(s, a, b, p);
    DeliverIs(p, o);
    EP.StepKeeps(s, E.Continue);
    var s1 := E.Step(s, E.Continue);
    if p.me.registered {
      ops := EventFollows(s, a, b, p, o);
    } else {
      ops := [];
      RunOne(s, E.Continue);
      hide EP.Inv, FP.Inv, F.OnEvent, F.DecRef, F.Act, FP.SafeInv, EP.Count;
      EntryDropped(s, a, b, p, s.batch[1..]);
    }
  }

  lemma EventFollows(s: E.Loop, a: nat, b: nat, p: F.Pair, o: F.Oracle) returns (ops: seq<E.Op>)
    requires Serves(s, a, b, p) && Next(s, a) && p.me.registered
    requires F.OnEvent(p, Meaning(s.batch[0].mask), o).done
    ensures Polite(E.Step(s, E.Continue), ops)
    ensures var s' := E.Run(s, Handled(ops));
            && Serves(s', a, b, F.Act(p, F.Deliver(o)))
            && s'.pc == E.Dispatching && s'.batch == s.batch[1..] && s'.clock == s.clock && |s'.hs| == |s.hs|
  {
    EntryFacts(s, a, b, p);
    DeliverIs(p, o);
    EP.StepKeeps(s, E.Continue);
    var s1 := E.Step(s, E.Continue);
    var ev := Meaning(s.batch[0].mask);
    hide EP.Inv, FP.Inv, F.OnEvent, F.DecRef, F.Act, FP.SafeInv, EP.Count, E.Step, Polite, After, E.Run, Hosts, Follow, Entries, Handled, Meaning;
    assert Hosts(s1, a, b, p, 0, 0) by { HostsHere(s, a, b, p, s1.pc, s1.batch); }
    var q := F.OnEvent(p, ev, o).p;
    ops := OnEventFollows(s1, a, b, p, ev, o, 0);
    FollowFacts(s1, ops, a, b, q, 0, 0);
    FollowPlace(s1, ops, a, b, q, 0, 0);
    HandledRun(s, ops);
    ReturnsFromEvent(After(s1, ops), a, b, q);
  }

  lemma HostsHere(s: E.Loop, a: nat, b: nat, p: F.Pair, pc: E.Pc, batch: seq<E.Event>)
    requires Hosts(s, a, b, p, 0, 0)
    ensures Hosts(s.(pc := pc, batch := batch), a, b, p, 0, 0)
  {
  }

  lemma FollowPlace(s: E.Loop, ops: seq<E.Op>, a: nat, b: nat, q: F.Pair, xa: nat, xb: nat)
    requires Follow(s, ops, a, b, q, xa, xb)
    ensures SamePlace(s, After(s, ops))
  {
  }

  lemma ReturnsFromEvent(s: E.Loop, a: nat, b: nat, q: F.Pair)
    requires EP.Inv(s) && Hosts(s, a, b, q, 0, 0) && s.pc == E.InEvent(a) && s.batch != []
    requires FP.Inv(F.DecRef(q.(me := q.me.(batch := None))))
    requires EP.Count(s.batch[1..], a) == 0 && Entries(s.batch[1..], b, q.peer)
    ensures var s' := E.Return(s);
            && Serves(s', a, b, F.DecRef(q.(me := q.me.(batch := None))))
            && s'.pc == E.Dispatching && s'.batch == s.batch[1..] && s'.clock == s.clock && |s'.hs| == |s.hs|
  {
    EP.ReturnKeeps(s);
    assert !s.failed;
    hide EP.Inv, FP.Inv, F.DecRef, EP.Count, Hosts, Entries, Serves;
    EntryDropped(s, a, b, q, s.batch[1..]);
  }

  // ---------------------------------------------------------------------------------------------
  // Expiry

  /** The sweep finds handler a expired. */
  predicate Due(s: E.Loop, a: nat) {
    s.pc.Sweeping? && s.queue != [] && s.queue[0] == a && a < |s.hs| && s.hs[a].deadline <= s.clock
  }

  lemma DueFacts(s: E.Loop, a: nat, b: nat, p: F.Pair)
    requires Serves(s, a, b, p) && Due(s, a)
    ensures p.me.registered && p.me.deadline <= p.clock && !p.me.freed && FP.SafeInv(p) && !p.failed
    ensures !s.hs[a].freed && s.hs[a].registered && s.hs[a].refs >= 0
    ensures s.batch == [] && p.me.batch == None && p.peer.batch == None
  {
    assert s.queue[0] in s.queue;
    EP.RefOf(s, a);
    OneEntry(s, a, b, p);
    ServesSwapped(s, a, b, p);
    OneEntry(s, b, a, F.Swap(p));
    hide FP.EdgeInv, FP.Splits, FP.Carried, FP.SentPrefix, FP.FlowInv, FP.Coherent;
  }

  lemma ExpireIs(p: F.Pair)
    requires FP.Inv(p) && p.me.registered && p.me.deadline <= p.clock
    ensures F.Hold(p) == p.(me := p.me.(refs := p.me.refs + 1, temps := p.me.temps + 1)) && FP.SafeInv(F.Hold(p))
    ensures var q := F.OnTimeout(F.Hold(p));
            && F.Act(p, F.Expire) == F.DecRef(q.(me := q.me.(temps := 0))) && FP.Inv(F.DecRef(q.(me := q.me.(temps := 0))))
            && !q.me.registered && q.me.batch == p.me.batch && q.peer.batch == p.peer.batch
  {
    assert !p.me.freed;
    FP.ActKeeps(p, F.Expire);
    hide FP.EdgeInv, F.OnTimeout, F.DecRef, FP.Splits, FP.Carried, FP.SentPrefix, FP.FlowInv, FP.Coherent, F.Act;
    FP.HoldSafe(p);
    FP.OnTimeoutSafe(F.Hold(p));
    ExpireAct(p);
  }

  lemma ExpireAct(p: F.Pair)
    requires p.me.registered && p.me.deadline <= p.clock
    requires var q := F.OnTimeout(F.Hold(p)); !q.me.registered && !q.me.freed && !q.failed && q.me.temps == 1
    ensures var q := F.OnTimeout(F.Hold(p)); F.Act(p, F.Expire) == F.DecRef(q.(me := q.me.(temps := 0)))
  {
    hide F.OnTimeout, F.DecRef, F.Hold;
  }

  lemma ReturnsFromTimeout(s: E.Loop, a: nat, b: nat, q: F.Pair)
    requires EP.Inv(s) && Hosts(s, a, b, q, 0, 0) && s.pc.InTimeout? && s.pc.h == a && s.batch == [] && !q.me.registered
    requires FP.Inv(F.DecRef(q.(me := q.me.(temps := 0))))
    ensures var s' := E.Return(s);
            && Serves(s', a, b, F.DecRef(q.(me := q.me.(temps := 0))))
            && s'.pc == E.Sweeping(s.pc.sweep) && s'.clock == s.clock && |s'.hs| == |s.hs|
  {
    EP.ReturnKeeps(s);
    assert !s.failed && !E.Return(s).failed;
    assert E.Return(s) == E.DecRef(s, a).(pc := E.Sweeping(s.pc.sweep)) by { hide EP.Inv, FP.Inv; }
    hide EP.Inv, FP.Inv, FP.SafeInv, EP.Count, E.DecRef, F.Unref, Hosted, E.Return;
    DropHosts(s, a, b, q, q.me.(temps := 0));
    HostsHere(E.DecRef(s, a), a, b, F.DecRef(q.(me := q.me.(temps := 0))), E.Sweeping(s.pc.sweep), []);
  }

  lemma TimeoutStarts(s: E.Loop, a: nat, b: nat, p: F.Pair)
    requires Serves(s, a, b, p) && Due(s, a)
    ensures var s1 := E.Step(s, E.Continue);
            && s1.pc.InTimeout? && s1.pc.h == a && s1.batch == [] && s1.clock == s.clock && |s1.hs| == |s.hs|
            && Hosts(s1, a, b, p.(me := p.me.(refs := p.me.refs + 1, temps := p.me.temps + 1)), 0, 0)
  {
    DueFacts(s, a, b, p);
    hide EP.Inv, FP.Inv, FP.SafeInv, Entries;
  }

  /** The loop finds a link expired. */
  lemma ExpireFollows(s: E.Loop, a: nat, b: nat, p: F.Pair) returns (ops: seq<E.Op>)
    requires Serves(s, a, b, p) && Due(s, a)
    ensures Polite(E.Step(s, E.Continue), ops)
    ensures var s' := E.Run(s, Handled(ops));
            Serves(s', a, b, F.Act(p, F.Expire)) && s'.pc.Sweeping? && s'.clock == s.clock && |s'.hs| == |s.hs|
  {
    DueFacts(s, a, b, p);
    ExpireIs(p);
    TimeoutStarts(s, a, b, p);
    EP.StepKeeps(s, E.Continue);
    var s1 := E.Step(s, E.Continue);
    hide EP.Inv, FP.Inv, F.OnTimeout, F.DecRef, F.Act, F.Hold, FP.SafeInv, E.Step, Polite, After, E.Run, Hosts, Follow, Entries, Handled;
    var p1 := F.Hold(p);
    var q := F.OnTimeout(p1);
    ops := OnTimeoutFollows(s1, a, b, p1, 0);
    FollowFacts(s1, ops, a, b, q, 0, 0);
    FollowPlace(s1, ops, a, b, q, 0, 0);
    HandledRun(s, ops);
    ReturnsFromTimeout(After(s1, ops), a, b, q);
  }

  // ---------------------------------------------------------------------------------------------
  // epoll_wait

  /** The entry of a batch for a, if there is one. */
  function EntryFor(evs: seq<E.Event>, a: nat): (r: Option<F.Events>)
    ensures r.None? ==> EP.Count(evs, a) == 0
  {
    if evs == [] then None
    else if evs[0].On? && evs[0].h == a then Some(Meaning(evs[0].mask))
    else EntryFor(evs[1..], a)
  }

  lemma {:induction false} EntryForAll(evs: seq<E.Event>, a: nat, l: F.Link)
    requires EP.Count(evs, a) <= 1 && l.batch == EntryFor(evs, a)
    ensures Entries(evs, a, l) && (l.batch.Some? <==> EP.Count(evs, a) == 1)
  {
    if evs != [] {
      if evs[0].On? && evs[0].h == a { NoEntries(evs[1..], a, l); } else { EntryForAll(evs[1..], a, l); }
      forall i | 0 <= i < |evs| && evs[i].On? && evs[i].h == a ensures l.batch == Some(Meaning(evs[i].mask)) {
        if i > 0 { assert evs[1..][i - 1] == evs[i]; }
      }
    }
  }

  function Told(p: F.Pair, ev: Option<F.Events>): F.Pair {
    match ev
    case None => p
    case Some(e) => F.Act(p, F.Collect(e))
  }

  /** epoll_wait reports `evs` after a time dt. */
  function Collected(p: F.Pair, dt: nat, mine: Option<F.Events>, peers: Option<F.Events>): F.Pair {
    F.Swap(Told(F.Swap(Told(F.Act(p, F.Tick(dt)), mine)), peers))
  }

  lemma CollectedIs(p: F.Pair, dt: nat, mine: Option<F.Events>, peers: Option<F.Events>)
    requires FP.Inv(p) && p.me.batch == None && p.peer.batch == None
    requires (mine.Some? ==> p.me.registered) && (peers.Some? ==> p.peer.registered)
    ensures var q := Collected(p, dt, mine, peers);
            && FP.Inv(q)
            && q == p.(clock := p.clock + dt,
                       me := p.me.(refs := p.me.refs + FP.B(mine.Some?), batch := mine, sock := q.me.sock),
                       peer := p.peer.(refs := p.peer.refs + FP.B(peers.Some?), batch := peers, sock := q.peer.sock))
  {
    CollectedInv(p, dt, mine, peers);
    assert !p.failed && (p.me.registered ==> !p.me.freed) && (p.peer.registered ==> !p.peer.freed);
    assert p.me.refs >= 0 && p.peer.refs >= 0;
    hide FP.Inv, FP.SafeInv, FP.EdgeInv;
  }

  lemma CollectedInv(p: F.Pair, dt: nat, mine: Option<F.Events>, peers: Option<F.Events>)
    requires FP.Inv(p)
    ensures FP.Inv(Collected(p, dt, mine, peers))
  {
    hide FP.Inv, F.Act;
    FP.ActKeeps(p, F.Tick(dt));
    var p1 := F.Act(p, F.Tick(dt));
    if mine.Some? { FP.ActKeeps(p1, F.Collect(mine.value)); }
    var p2 := Told(p1, mine);
    InvSwapped(p2);
    if peers.Some? { FP.ActKeeps(F.Swap(p2), F.Collect(peers.value)); }
    InvSwapped(Told(F.Swap(p2), peers));
  }

  lemma WaitHandlers(s: E.Loop, dt: nat, evs: seq<E.Event>, h: nat)
    requires EP.Inv(s) && s.pc.Waiting? && E.Reportable(s, evs) && h < |s.hs|
    ensures var s' := E.Wait(s, dt, evs);
            && s' == s.(hs := s'.hs, clock := s.clock + dt, waitedAt := s.clock, batch := evs, pc := E.Dispatching) && |s'.hs| == |s.hs|
            && s'.hs[h] == s.hs[h].(refs := s.hs[h].refs + EP.Count(evs, h), newborn := s.hs[h].newborn && EP.Count(evs, h) == 0)
            && (EP.Count(evs, h) > 0 ==> s.hs[h].registered)
  {
    var s1 := s.(clock := s.clock + dt, waitedAt := s.clock);
    forall i | 0 <= i < |evs| && evs[i].On? ensures EP.Live(s, evs[i].h) && s.hs[evs[i].h].refs >= 0 {
      EP.RefOf(s, evs[i].h);
    }
    EP.IncRefsSpec(s1, evs);
    if !s.hs[h].registered { EP.NotReported(s, evs, h); }
  }

  /** epoll_wait returns a batch with at most one entry for each link. */
  lemma CollectFollows(s: E.Loop, a: nat, b: nat, p: F.Pair, dt: nat, evs: seq<E.Event>)
    requires Serves(s, a, b, p) && s.pc.Waiting? && E.Reportable(s, evs)
    requires EP.Count(evs, a) <= 1 && EP.Count(evs, b) <= 1
    ensures Serves(E.Step(s, E.EpollWait(dt, evs)), a, b, Collected(p, dt, EntryFor(evs, a), EntryFor(evs, b)))
  {
    hide EP.Inv, FP.Inv, Collected, EP.Count, E.Wait, E.Reportable, EntryFor, Entries, Hosts;
    EP.StepKeeps(s, E.EpollWait(dt, evs));
    WaitHosts(s, a, b, p, dt, evs);
    CollectedInv(p, dt, EntryFor(evs, a), EntryFor(evs, b));
  }

  lemma WaitHosts(s: E.Loop, a: nat, b: nat, p: F.Pair, dt: nat, evs: seq<E.Event>)
    requires Serves(s, a, b, p) && s.pc.Waiting? && E.Reportable(s, evs)
    requires EP.Count(evs, a) <= 1 && EP.Count(evs, b) <= 1
    ensures var s', q := E.Wait(s, dt, evs), Collected(p, dt, EntryFor(evs, a), EntryFor(evs, b));
            && Hosts(s', a, b, q, 0, 0) && Entries(evs, a, q.me) && Entries(evs, b, q.peer)
            && s'.pc == E.Dispatching && s'.batch == evs
  {
    hide EP.Inv, FP.Inv, Collected, EP.Count, E.Wait, E.Reportable, EntryFor, Entries, Hosted, F.Open;
    PairTold(s, a, b, p, dt, evs);
    LoopTold(s, a, b, p, dt, evs);
    var s', q := E.Wait(s, dt, evs), Collected(p, dt, EntryFor(evs, a), EntryFor(evs, b));
    HostedTold(s, s', a, p.me, q.me, p.peer, q.peer, EP.Count(evs, a));
    HostedTold(s, s', b, p.peer, q.peer, p.me, q.me, EP.Count(evs, b));
  }

  lemma {:induction false} EntryTruthful(interest: map<nat, int>, evs: seq<E.Event>, a: nat)
    requires a in interest && Truthful(interest, evs, a)
    ensures var e := EntryFor(evs, a);
            e.Some? ==> (e.value.in_ ==> Meaning(interest[a]).in_) && (e.value.out ==> Meaning(interest[a]).out)
  {
    if evs != [] {
      forall i | 0 <= i < |evs[1..]| && evs[1..][i].On? && evs[1..][i].h == a
        ensures (Meaning(evs[1..][i].mask).in_ ==> Meaning(interest[a]).in_)
                && (Meaning(evs[1..][i].mask).out ==> Meaning(interest[a]).out)
      {
        assert evs[1..][i] == evs[i + 1];
      }
      EntryTruthful(interest, evs[1..], a);
    }
  }

  /** A link is told of a direction only if its event mask asks for it: a half-closed link never hears of
      the direction that it has closed. */
  lemma ToldWhatItAsks(s: E.Loop, a: nat, b: nat, p: F.Pair, dt: nat, evs: seq<E.Event>)
    requires Serves(s, a, b, p) && s.pc.Waiting? && E.Reportable(s, evs)
    requires EP.Count(evs, a) <= 1 && EP.Count(evs, b) <= 1
    requires Truthful(s.interest, evs, a) && Truthful(s.interest, evs, b)
    ensures var q := Collected(p, dt, EntryFor(evs, a), EntryFor(evs, b));
            && (q.me.batch.Some? ==> (q.me.batch.value.in_ ==> q.me.readable) && (q.me.batch.value.out ==> q.me.writable))
            && (q.peer.batch.Some? ==> (q.peer.batch.value.in_ ==> q.peer.readable) && (q.peer.batch.value.out ==> q.peer.writable))
  {
    hide EP.Inv, FP.Inv, Collected, EP.Count, E.Reportable, EntryFor, Serves, Meaning, Mask, Hosted;
    WaitFacts(s, a, b, p, dt, evs);
    ServesInv(s, a, b, p);
    MaskFacts(s, a, p, p.me, p.peer, evs);
    MaskFacts(s, b, F.Swap(p), p.peer, p.me, evs) by { InvSwapped(p); }
    CollectedIs(p, dt, EntryFor(evs, a), EntryFor(evs, b));
  }

  lemma MaskFacts(s: E.Loop, h: nat, p: F.Pair, l: F.Link, o: F.Link, evs: seq<E.Event>)
    requires Hosted(s, h, l, o, 0) && FP.Inv(p) && p.me == l && Truthful(s.interest, evs, h)
    requires EntryFor(evs, h).Some? ==> l.registered
    ensures var e := EntryFor(evs, h); e.Some? ==> (e.value.in_ ==> l.readable) && (e.value.out ==> l.writable)
  {
    hide Meaning, Mask, EntryFor, Truthful, FP.FlowInv, FP.Coherent, FP.EdgeInv;
    if EntryFor(evs, h).Some? {
      EntryTruthful(s.interest, evs, h);
      MaskIsRead(l.maskIn, l.maskOut);
    }
  }

  /** `l'` is `l` with n more references. */
  predicate More(l: F.Link, l': F.Link, n: nat) { l' == l.(refs := l.refs + n, batch := l'.batch, sock := l'.sock) }

  lemma PairTold(s: E.Loop, a: nat, b: nat, p: F.Pair, dt: nat, evs: seq<E.Event>)
    requires Serves(s, a, b, p) && s.pc.Waiting? && E.Reportable(s, evs)
    requires EP.Count(evs, a) <= 1 && EP.Count(evs, b) <= 1
    ensures var q := Collected(p, dt, EntryFor(evs, a), EntryFor(evs, b));
            && Entries(evs, a, q.me) && Entries(evs, b, q.peer) && q.clock == p.clock + dt && q.timeout == p.timeout
            && More(p.me, q.me, EP.Count(evs, a)) && More(p.peer, q.peer, EP.Count(evs, b))
            && F.Open(q.me) == F.Open(p.me) && F.Open(q.peer) == F.Open(p.peer)
  {
    WaitFacts(s, a, b, p, dt, evs);
    hide Serves, Collected, EP.Count, E.Reportable, EntryFor, Entries;
    var q := Collected(p, dt, EntryFor(evs, a), EntryFor(evs, b));
    assert FP.Inv(p) by { ServesInv(s, a, b, p); }
    hide FP.Inv;
    CollectedIs(p, dt, EntryFor(evs, a), EntryFor(evs, b));
    EntryForAll(evs, a, q.me);
    EntryForAll(evs, b, q.peer);
  }

  lemma ServesInv(s: E.Loop, a: nat, b: nat, p: F.Pair)
    requires Serves(s, a, b, p)
    ensures FP.Inv(p) && EP.Inv(s) && a < |s.hs| && b < |s.hs| && a != b && s.clock == p.clock && s.timeout == p.timeout
    ensures Hosted(s, a, p.me, p.peer, 0) && Hosted(s, b, p.peer, p.me, 0)
  {
    hide EP.Inv, FP.Inv, Entries;
  }

  /** Handler h has n more references. */
  predicate Lent(s: E.Loop, s': E.Loop, h: nat, n: nat) {
    && h < |s.hs| && h < |s'.hs| && s'.interest == s.interest
    && s'.hs[h] == s.hs[h].(refs := s.hs[h].refs + n, newborn := s'.hs[h].newborn)
  }

  lemma LoopTold(s: E.Loop, a: nat, b: nat, p: F.Pair, dt: nat, evs: seq<E.Event>)
    requires Serves(s, a, b, p) && s.pc.Waiting? && E.Reportable(s, evs)
    ensures var s' := E.Wait(s, dt, evs);
            && Lent(s, s', a, EP.Count(evs, a)) && Lent(s, s', b, EP.Count(evs, b))
            && s'.clock == s.clock + dt && s'.timeout == s.timeout && s'.pc == E.Dispatching && s'.batch == evs
  {
    hide EP.Inv, FP.Inv, EP.Count, E.Wait, E.Reportable, Serves;
    ServesInv(s, a, b, p);
    WaitHandlers(s, dt, evs, a);
    WaitHandlers(s, dt, evs, b);
  }

  lemma HostedTold(s: E.Loop, s': E.Loop, h: nat, l: F.Link, l': F.Link, o: F.Link, o': F.Link, n: nat)
    requires Hosted(s, h, l, o, 0) && Lent(s, s', h, n) && More(l, l', n) && F.Open(o') == F.Open(o)
    ensures Hosted(s', h, l', o', 0)
  {
  }

  lemma WaitFacts(s: E.Loop, a: nat, b: nat, p: F.Pair, dt: nat, evs: seq<E.Event>)
    requires Serves(s, a, b, p) && s.pc.Waiting? && E.Reportable(s, evs)
    requires EP.Count(evs, a) <= 1 && EP.Count(evs, b) <= 1
    ensures p.me.batch == None && p.peer.batch == None
    ensures (EntryFor(evs, a).Some? ==> p.me.registered) && (EntryFor(evs, b).Some? ==> p.peer.registered)
  {
    OneEntry(s, a, b, p);
    ServesSwapped(s, a, b, p);
    OneEntry(s, b, a, F.Swap(p));
    WaitHandlers(s, dt, evs, a);
    WaitHandlers(s, dt, evs, b);
    EntryForAll(evs, a, p.me.(batch := EntryFor(evs, a)));
    EntryForAll(evs, b, p.peer.(batch := EntryFor(evs, b)));
    hide FP.Inv, E.Wait, E.Reportable, EntryFor, Entries;
  }

  // ---------------------------------------------------------------------------------------------
  // Everything else

  /** A step of the loop, or of another client, that has nothing to do with handler a. */
  predicate Unrelated(s: E.Loop, l: E.Label, a: nat) {
    match l
    case Tick(_) => true
    case Create => true
    case Client(op) => op.h != a
    case EpollWait(_, _) => false
    case Continue => !Next(s, a) && !Due(s, a)
    case Returns => true
  }

  predicate Untouched(s: E.Loop, s': E.Loop, a: nat) {
    && a < |s.hs| && a < |s'.hs| && s'.hs[a] == s.hs[a]
    && (s.hs[a].registered ==> a in s.interest && a in s'.interest && s'.interest[a] == s.interest[a])
    && !Runs(s'.pc, a)
  }

  lemma OthersLeave(s: E.Loop, a: nat, l: E.Label)
    requires EP.Inv(s) && a < |s.hs| && Unrelated(s, l, a) && !Runs(s.pc, a)
    ensures Untouched(s, E.Step(s, l), a) && !l.EpollWait?
  {
    EP.RefOf(s, a);
    assert s.queue != [] ==> s.queue[0] in s.queue;
    hide EP.Inv, E.Without;
    if l.Client? && E.InClient(s.pc) && E.Allowed(s, l.op) { ClientLeaves(s, a, l.op); }
    else if l.Returns? { ReturnLeaves(s, a); }
  }

  lemma ClientLeaves(s: E.Loop, a: nat, op: E.Op)
    requires EP.Inv(s) && E.Allowed(s, op) && a < |s.hs| && op.h != a && !Runs(s.pc, a)
    ensures Untouched(s, E.Do(s, op), a)
  {
    EP.RefOf(s, a);
    hide EP.Inv, E.Without;
  }

  lemma ReturnLeaves(s: E.Loop, a: nat)
    requires EP.Inv(s) && a < |s.hs| && !Runs(s.pc, a)
    ensures Untouched(s, E.Return(s), a)
  {
    EP.RefOf(s, a);
    hide EP.Inv, E.Without;
  }

  /** Time, the timeout and the batch after a step. */
  predicate GoesOn(s: E.Loop, s': E.Loop, dt: int) {
    && s'.clock == s.clock + dt && s'.timeout == s.timeout
    && (s'.batch == s.batch || (s.batch != [] && s'.batch == s.batch[1..]))
  }

  lemma LoopGoesOn(s: E.Loop, l: E.Label)
    requires !l.EpollWait?
    ensures GoesOn(s, E.Step(s, l), if l.Tick? then l.dt else 0)
  {
    hide E.Without, E.Allowed, E.Return, E.Do, E.IncRefs;
    if l.Client? && E.InClient(s.pc) && E.Allowed(s, l.op) { ClientGoesOn(s, l.op); }
    else if l.Returns? { ReturnGoesOn(s); }
  }

  lemma ClientGoesOn(s: E.Loop, op: E.Op)
    requires E.Allowed(s, op)
    ensures GoesOn(s, E.Do(s, op), 0)
  {
    hide E.Without;
  }

  lemma ReturnGoesOn(s: E.Loop)
    ensures GoesOn(s, E.Return(s), 0)
  {
    hide E.Without;
  }

  /** Time passes for the pair as for the loop; the rest does not concern it. */
  lemma OthersFollow(s: E.Loop, a: nat, b: nat, p: F.Pair, l: E.Label)
    requires Serves(s, a, b, p) && Unrelated(s, l, a) && Unrelated(s, l, b)
    ensures Serves(E.Step(s, l), a, b, if l.Tick? then F.Act(p, F.Tick(l.dt)) else p)
  {
    hide EP.Inv, FP.Inv, E.Step, Unrelated, Untouched, Entries;
    EP.StepKeeps(s, l);
    if l.Tick? { FP.ActKeeps(p, F.Tick(l.dt)); }
    OthersLeave(s, a, l);
    OthersLeave(s, b, l);
    LoopGoesOn(s, l);
    var s', q := E.Step(s, l), if l.Tick? then F.Act(p, F.Tick(l.dt)) else p;
    assert q == p.(clock := s'.clock);
    UntouchedHosts(s, s', a, b, p);
    if s.batch != [] {
      EntriesTail(s.batch, a, p.me);
      EntriesTail(s.batch, b, p.peer);
    }
  }

  lemma UntouchedHosts(s: E.Loop, s': E.Loop, a: nat, b: nat, p: F.Pair)
    requires Hosts(s, a, b, p, 0, 0) && Untouched(s, s', a) && Untouched(s, s', b) && s'.timeout == s.timeout
    ensures Hosts(s', a, b, p.(clock := s'.clock), 0, 0) && !Runs(s'.pc, a) && !Runs(s'.pc, b)
  {
  }

  /** The kernel's doings are none of the loop's. */
  lemma KernelFollows(s: E.Loop, a: nat, b: nat, p: F.Pair, e: F.Env)
    requires Serves(s, a, b, p)
    ensures Serves(s, a, b, F.Act(p, F.Kernel(e)))
  {
    FP.ActKeeps(p, F.Kernel(e));
    hide EP.Inv, FP.Inv, F.SockEnv;
  }

  // ---------------------------------------------------------------------------------------------
  // New

  /** What New asks of the loop: two handlers, a reference on each for the other, two registrations. */
  function Starts(a: nat, b: nat): seq<E.Op> {
    [E.Hold(a), E.Hold(b), E.DoAdd(a, Mask(true, true)), E.DoAdd(b, Mask(true, true))]
  }

  const NEWBORN := E.Handler(false, 0, 0, false, true, 0, 0)

  lemma TwoCreated(s: E.Loop)
    requires EP.Inv(s)
    ensures var s' := E.Run(s, [E.Create, E.Create]);
            EP.Inv(s') && s' == s.(hs := s.hs + [NEWBORN, NEWBORN])
  {
    EP.StepKeeps(s, E.Create);
    var s1 := E.Step(s, E.Create);
    EP.StepKeeps(s1, E.Create);
    hide EP.Inv;
    RunOne(s, E.Create);
    RunOne(s1, E.Create);
    RunBoth(s, [E.Create], [E.Create]);
    assert [E.Create] + [E.Create] == [E.Create, E.Create];
  }

  lemma HoldNewborn(s: E.Loop, h: nat)
    requires EP.Inv(s) && h < |s.hs| && s.hs[h] == NEWBORN
    ensures E.Allowed(s, E.Hold(h)) && EP.Inv(E.Do(s, E.Hold(h)))
    ensures E.Do(s, E.Hold(h)) == s.(hs := s.hs[h := NEWBORN.(refs := 1, newborn := false, owned := 1)])
  {
    EP.DoKeeps(s, E.Hold(h));
    hide EP.Inv;
  }

  lemma AddNewborn(s: E.Loop, h: nat, mask: int)
    requires EP.Inv(s) && h < |s.hs| && s.hs[h] == NEWBORN.(refs := 1, newborn := false, owned := 1)
    ensures E.Allowed(s, E.DoAdd(h, mask)) && EP.Inv(E.Do(s, E.DoAdd(h, mask)))
    ensures var y := E.Handler(true, s.clock + s.timeout, 2, false, false, 1, s.clock);
            E.Do(s, E.DoAdd(h, mask)) == s.(hs := s.hs[h := y], queue := s.queue + [h], interest := s.interest[h := mask])
  {
    EP.RefOf(s, h);
    EP.DoKeeps(s, E.DoAdd(h, mask));
    hide EP.Inv;
  }

  lemma StartsDo(s: E.Loop, a: nat, b: nat)
    requires EP.Inv(s) && a < |s.hs| && b < |s.hs| && a != b && s.hs[a] == NEWBORN && s.hs[b] == NEWBORN
    ensures Polite(s, Starts(a, b))
    ensures var s' := After(s, Starts(a, b));
            var y := E.Handler(true, s.clock + s.timeout, 2, false, false, 1, s.clock);
            && EP.Inv(s') && s' == s.(hs := s'.hs, queue := s'.queue, interest := s'.interest) && |s'.hs| == |s.hs|
            && s'.hs[a] == y && s'.hs[b] == y && a in s'.interest && b in s'.interest
            && s'.interest[a] == Mask(true, true) && s'.interest[b] == Mask(true, true)
  {
    hide EP.Inv, E.Allowed, E.Do;
    var m := Mask(true, true);
    HoldNewborn(s, a);
    var s1 := E.Do(s, E.Hold(a));
    HoldNewborn(s1, b);
    var s2 := E.Do(s1, E.Hold(b));
    AddNewborn(s2, a, m);
    var s3 := E.Do(s2, E.DoAdd(a, m));
    AddNewborn(s3, b, m);
    var s4 := E.Do(s3, E.DoAdd(b, m));
    assert Polite(s4, []) && After(s4, []) == s4;
    FourCalls(s, Starts(a, b), s1, s2, s3, s4);
  }

  lemma FourCalls(s: E.Loop, ops: seq<E.Op>, s1: E.Loop, s2: E.Loop, s3: E.Loop, s4: E.Loop)
    requires |ops| == 4
    requires E.Allowed(s, ops[0]) && s1 == E.Do(s, ops[0]) && E.Allowed(s1, ops[1]) && s2 == E.Do(s1, ops[1])
    requires E.Allowed(s2, ops[2]) && s3 == E.Do(s2, ops[2]) && E.Allowed(s3, ops[3]) && s4 == E.Do(s3, ops[3])
    ensures Polite(s, ops) && After(s, ops) == s4
  {
    hide E.Allowed, E.Do;
    assert ops[3..][1..] == [] && ops[2..][1..] == ops[3..] && ops[1..][1..] == ops[2..];
    assert Polite(s4, []) && After(s4, []) == s4;
    assert Polite(s3, ops[3..]) && After(s3, ops[3..]) == s4;
    assert Polite(s2, ops[2..]) && After(s2, ops[2..]) == s4;
    assert Polite(s1, ops[1..]) && After(s1, ops[1..]) == s4;
  }

  /** New, called by a client of the loop: afterwards the loop serves the new pair. */
  lemma StartFollows(s: E.Loop, client: F.Sock, server: F.Sock, clientCapacity: nat, serverCapacity: nat)
    requires EP.Inv(s) && E.InClient(s.pc) && F.FreshSock(client) && F.FreshSock(server)
    requires |F.RESPONSE| <= clientCapacity && 0 < serverCapacity
    ensures var a, b := |s.hs|, |s.hs| + 1;
            var s' := E.Run(s, [E.Create, E.Create] + Calls(Starts(a, b)));
            && Serves(s', a, b, F.NewSucceeds(F.Connected(client, server, s.clock, s.timeout), clientCapacity, serverCapacity))
            && s'.pc == s.pc && s'.batch == s.batch
  {
    var a, b := |s.hs|, |s.hs| + 1;
    var s1 := E.Run(s, [E.Create, E.Create]);
    TwoCreated(s);
    StartsDo(s1, a, b);
    RunsOlder(s);
    hide EP.Inv, FP.Inv, Polite, After, Starts, Calls, E.Run, F.FreshSock, F.NewSucceeds, F.Connected, Hosts;
    CallsRun(s1, Starts(a, b));
    RunBoth(s, [E.Create, E.Create], Calls(Starts(a, b)));
    FP.NewEstablishes(client, server, s.clock, s.timeout, clientCapacity, serverCapacity);
    NewHosts(After(s1, Starts(a, b)), a, b, client, server, clientCapacity, serverCapacity);
  }

  lemma NewHosts(s: E.Loop, a: nat, b: nat, client: F.Sock, server: F.Sock, clientCapacity: nat, serverCapacity: nat)
    requires a != b && a < |s.hs| && b < |s.hs| && s.timeout >= 0
    requires var y := E.Handler(true, s.clock + s.timeout, 2, false, false, 1, s.clock); s.hs[a] == y && s.hs[b] == y
    requires a in s.interest && b in s.interest && s.interest[a] == Mask(true, true) && s.interest[b] == Mask(true, true)
    ensures Hosts(s, a, b, F.NewSucceeds(F.Connected(client, server, s.clock, s.timeout), clientCapacity, serverCapacity), 0, 0)
  {
  }

  /** What the loop deals with is older than a new handler. */
  lemma RunsOlder(s: E.Loop)
    requires EP.Inv(s)
    ensures !Runs(s.pc, |s.hs|) && !Runs(s.pc, |s.hs| + 1)
    ensures forall i :: 0 <= i < |s.batch| && s.batch[i].On? ==> s.batch[i].h < |s.hs|
  {
    hide EP.RefInv, EP.TimeInv, EP.QueueInv;
  }
}
