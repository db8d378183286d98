/** What every run of the event loop guarantees. */
module EventLoopProofs {
  import opened Common
  import opened EventLoopModel

  // ---------------------------------------------------------------------------------------------
  // The invariant

  /** The references that the events of the batch hold on h. */
  function Count(batch: seq<Event>, h: nat): nat {
    if batch == [] then 0 else
    (if batch[0].On? && batch[0].h == h then 1 else 0) + Count(batch[1..], h)
  }

  function Held(batch: seq<Event>, pc: Pc, h: nat): nat {
    Count(batch, h) + if pc.InTimeout? && pc.h == h then 1 else 0
  }

  function One(b: bool): nat { if b then 1 else 0 }

  /** A handler is deleted when its last reference has gone. */
  predicate RefsOk(x: Handler) { (x.freed <==> x.refs == 0 && !x.newborn) && (x.newborn ==> x.refs == 0) }

  /** Every reference has an owner: the registration, a client, an event of the batch, or the sweep; and
      a handler is deleted when, and only when, the last of them has gone. */
  predicate RefInv(hs: seq<Handler>, batch: seq<Event>, pc: Pc) {
    forall h :: 0 <= h < |hs| ==>
      && hs[h].refs == One(hs[h].registered) + hs[h].owned + Held(batch, pc, h)
      && RefsOk(hs[h])
  }

  /** The queue, the registrations and epoll's interest set agree. */
  ghost predicate QueueInv(hs: seq<Handler>, queue: seq<nat>, interest: map<nat, int>) {
    && NoDup(queue)
    && (forall h :: h in queue <==> 0 <= h < |hs| && hs[h].registered)
    && (forall h :: h in interest <==> 0 <= h < |hs| && hs[h].registered)
  }

  predicate Bounded(hs: seq<Handler>, queue: seq<nat>) { forall i :: 0 <= i < |queue| ==> queue[i] < |hs| }

  predicate Sorted(hs: seq<Handler>, queue: seq<nat>)
    requires Bounded(hs, queue)
  {
    forall i, j :: 0 <= i < j < |queue| ==> hs[queue[i]].deadline <= hs[queue[j]].deadline
  }

  predicate TimeInv(hs: seq<Handler>, queue: seq<nat>, clock: int, timeout: int) {
    && Bounded(hs, queue) && Sorted(hs, queue)
    && (forall i :: 0 <= i < |queue| ==>
          var x := hs[queue[i]]; x.deadline == x.touched + timeout && x.touched <= clock)
  }

  predicate PcInv(hs: seq<Handler>, batch: seq<Event>, pc: Pc) {
    && (forall i :: 0 <= i < |batch| && batch[i].On? ==> batch[i].h < |hs|)
    && match pc
       case Waiting => batch == []
       case Dispatching => true
       case InFunc => batch != [] && batch[0] == Pipe
       case InEvent(h) => batch != [] && batch[0].On? && batch[0].h == h
       case Sweeping(_) => batch == []
       case InTimeout(h, _) => batch == [] && h < |hs|
  }

  ghost predicate Inv(s: Loop) {
    && !s.failed && s.timeout > 0
    && RefInv(s.hs, s.batch, s.pc) && QueueInv(s.hs, s.queue, s.interest)
    && TimeInv(s.hs, s.queue, s.clock, s.timeout) && PcInv(s.hs, s.batch, s.pc)
  }

  // ---------------------------------------------------------------------------------------------
  // Removing from the queue

  lemma {:induction false} WithoutAt(q: seq<nat>, h: nat, k: nat)
    requires NoDup(q) && k < |q| && q[k] == h
    ensures Without(q, h) == q[..k] + q[k + 1..]
  {
    if k == 0 {
    } else {
      assert q[0] != q[k];
      forall i, j | 0 <= i < j < |q[1..]| ensures q[1..][i] != q[1..][j] { assert q[i + 1] != q[j + 1]; }
      WithoutAt(q[1..], h, k - 1);
      assert q[..k] + q[k + 1..] == [q[0]] + (q[1..][..k - 1] + q[1..][k..]);
    }
  }

  lemma WithoutIndex(q: seq<nat>, h: nat, k: nat)
    requires NoDup(q) && k < |q| && q[k] == h
    ensures var r := Without(q, h); |r| == |q| - 1 && forall i :: 0 <= i < |r| ==> r[i] == q[Skip(k, i)]
  {
    WithoutAt(q, h, k);
  }

  lemma WithoutMembers(q: seq<nat>, h: nat, k: nat)
    requires NoDup(q) && k < |q| && q[k] == h
    ensures forall x :: x in Without(q, h) <==> x in q && x != h
  {
    var r := Without(q, h);
    WithoutIndex(q, h, k);
    hide Without;
    forall x | x in q && x != h ensures x in r {
      var i :| 0 <= i < |q| && q[i] == x;
      assert r[if i < k then i else i - 1] == x;
    }
    forall x | x in r ensures x in q && x != h {
      var i :| 0 <= i < |r| && r[i] == x;
      assert q[Skip(k, i)] == x;
    }
  }

  /** Removal keeps the order of the rest. */
  lemma WithoutKeeps(hs: seq<Handler>, q: seq<nat>, h: nat)
    requires NoDup(q) && h in q && Bounded(hs, q) && Sorted(hs, q)
    ensures var r := Without(q, h);
            NoDup(r) && Bounded(hs, r) && Sorted(hs, r) && |r| == |q| - 1 && (forall x :: x in r <==> x in q && x != h)
  {
    hide Without;
    var k :| 0 <= k < |q| && q[k] == h;
    var r := Without(q, h);
    WithoutIndex(q, h, k);
    WithoutMembers(q, h, k);
    forall i, j | 0 <= i < j < |r| ensures r[i] != r[j] && r[i] < |hs| && r[j] < |hs| && hs[r[i]].deadline <= hs[r[j]].deadline {
      var a, b := Skip(k, i), Skip(k, j);
      assert 0 <= a < b < |q| && q[a] != q[b] && hs[q[a]].deadline <= hs[q[b]].deadline;
    }
  }

  function Skip(k: nat, i: nat): nat { if i < k then i else i + 1 }

  /** `hs'` differs from `hs` in h only. */
  predicate Only(hs: seq<Handler>, hs': seq<Handler>, h: nat) {
    |hs'| == |hs| && h < |hs| && forall x :: 0 <= x < |hs| && x != h ==> hs'[x] == hs[x]
  }

  lemma AppendKeeps(hs: seq<Handler>, hs': seq<Handler>, q: seq<nat>, h: nat, clock: int, timeout: int)
    requires NoDup(q) && h !in q && TimeInv(hs, q, clock, timeout) && Only(hs, hs', h)
    requires hs'[h].deadline == clock + timeout && hs'[h].touched == clock
    ensures NoDup(q + [h]) && TimeInv(hs', q + [h], clock, timeout) && (forall x :: x in q + [h] <==> x in q || x == h)
  {
    var r := q + [h];
    forall i | 0 <= i < |q| ensures r[i] == q[i] && q[i] != h && q[i] < |hs| && hs'[q[i]] == hs[q[i]] { assert q[i] in q; }
    assert r[|q|] == h;
  }

  lemma RefChange(hs: seq<Handler>, hs': seq<Handler>, batch: seq<Event>, pc: Pc, h: nat)
    requires RefInv(hs, batch, pc) && Only(hs, hs', h)
    requires hs'[h].refs == One(hs'[h].registered) + hs'[h].owned + Held(batch, pc, h)
    requires RefsOk(hs'[h])
    ensures RefInv(hs', batch, pc)
  {
    hide Held;
  }

  lemma RefOf(s: Loop, h: nat)
    requires Inv(s) && h < |s.hs|
    ensures s.hs[h].refs == One(s.hs[h].registered) + s.hs[h].owned + Held(s.batch, s.pc, h)
    ensures RefsOk(s.hs[h])
    ensures s.hs[h].registered <==> h in s.queue
    ensures s.hs[h].registered <==> h in s.interest
  {
    hide Held, TimeInv, PcInv;
  }

  // ---------------------------------------------------------------------------------------------
  // The operations

  /** Deadlines move only to a full timeout from now, and nothing enters the queue with less. */
  predicate Later(s: Loop, s': Loop) {
    && s'.clock == s.clock && s'.timeout == s.timeout && s'.pc == s.pc && s'.batch == s.batch
    && s'.waitedAt == s.waitedAt && s'.fired == s.fired && |s'.hs| == |s.hs|
    && Bounded(s.hs, s.queue) && Bounded(s'.hs, s'.queue)
    && (forall h :: h in s'.queue ==>
          (h in s.queue && s'.hs[h].deadline == s.hs[h].deadline) || s'.hs[h].deadline == s.clock + s.timeout)
  }

  predicate Live(s: Loop, h: nat) { h < |s.hs| && !s.hs[h].freed }

  lemma AddKeeps(s: Loop, h: nat, mask: int)
    requires Inv(s) && Live(s, h) && !s.hs[h].registered
    ensures Inv(Add(s, h, mask)) && Later(s, Add(s, h, mask))
  {
    hide Held, RefInv, TimeInv;
    RefOf(s, h);
    var s' := Add(s, h, mask);
    assert s'.queue == s.queue + [h];
    RefChange(s.hs, s'.hs, s.batch, s.pc, h);
    AppendKeeps(s.hs, s'.hs, s.queue, h, s.clock, s.timeout);
    LaterByTime(s, s', h);
  }

  /** Later, for an operation on h alone. */
  lemma LaterByTime(s: Loop, s': Loop, h: nat)
    requires Only(s.hs, s'.hs, h) && TimeInv(s.hs, s.queue, s.clock, s.timeout) && TimeInv(s'.hs, s'.queue, s.clock, s.timeout)
    requires s' == s.(hs := s'.hs, queue := s'.queue, interest := s'.interest)
    requires forall x :: x in s'.queue ==> (x in s.queue && x != h) || (x == h && s'.hs[x].deadline == s.clock + s.timeout)
    ensures Later(s, s')
  {
  }

  lemma RemoveKeeps(s: Loop, h: nat)
    requires Inv(s) && Live(s, h) && s.hs[h].registered
    ensures Inv(Remove(s, h)) && Later(s, Remove(s, h))
  {
    hide Held, RefInv, Without;
    RefOf(s, h);
    var s' := Remove(s, h);
    WithoutKeeps(s.hs, s.queue, h);
    RefChange(s.hs, s'.hs, s.batch, s.pc, h);
    assert s'.queue == Without(s.queue, h);
    OthersKeepTime(s.hs, s'.hs, s'.queue, s.queue, h, s.clock, s.timeout);
    hide Sorted;
    assert QueueInv(s'.hs, s'.queue, s'.interest) by { hide TimeInv, Later; }
    LaterByTime(s, s', h);
  }

  /** The queue `r` holds handlers of `q` other than h; only h has changed. */
  lemma OthersKeepTime(hs: seq<Handler>, hs': seq<Handler>, r: seq<nat>, q: seq<nat>, h: nat, clock: int, timeout: int)
    requires TimeInv(hs, q, clock, timeout) && (hs == hs' || Only(hs, hs', h))
    requires Bounded(hs, r) && Sorted(hs, r) && forall x :: x in r ==> x in q && x != h
    ensures TimeInv(hs', r, clock, timeout)
  {
    forall i | 0 <= i < |r| ensures hs'[r[i]] == hs[r[i]] && r[i] in q { assert r[i] in r; }
  }

  lemma ModifyKeeps(s: Loop, h: nat, mask: int)
    requires Inv(s) && Live(s, h) && s.hs[h].registered
    ensures Inv(Modify(s, h, mask)) && Later(s, Modify(s, h, mask))
  {
  }

  lemma RefreshKeeps(s: Loop, h: nat)
    requires Inv(s) && Live(s, h) && s.hs[h].registered
    ensures Inv(Refresh(s, h)) && Later(s, Refresh(s, h))
    ensures Refresh(s, h).hs[h] == s.hs[h].(deadline := s.clock + s.timeout, touched := s.clock)
  {
    hide Held, RefInv, Without, TimeInv, PcInv, NoDup;
    RefOf(s, h);
    TailInTime(s);
    var s' := Refresh(s, h);
    Requeued(s.hs, s'.hs, s.queue, h, s.clock, s.timeout);
    RefChange(s.hs, s'.hs, s.batch, s.pc, h);
    assert PcInv(s'.hs, s'.batch, s'.pc) by { PcGrows(s.hs, s'.hs, s.batch, s.pc); }
    LaterByTime(s, s', h);
  }

  lemma PcGrows(hs: seq<Handler>, hs': seq<Handler>, batch: seq<Event>, pc: Pc)
    requires PcInv(hs, batch, pc) && |hs| <= |hs'|
    ensures PcInv(hs', batch, pc)
  {
  }

  /** Handler h moves to the end of the queue, with a full timeout left. */
  lemma Requeued(hs: seq<Handler>, hs': seq<Handler>, q: seq<nat>, h: nat, clock: int, timeout: int)
    requires NoDup(q) && h in q && TimeInv(hs, q, clock, timeout) && Only(hs, hs', h)
    requires hs'[h].deadline == clock + timeout && hs'[h].touched == clock
    ensures var r := Without(q, h) + [h];
            NoDup(r) && TimeInv(hs', r, clock, timeout) && forall x :: x in r <==> x in q
  {
    hide Without, Sorted, NoDup;
    WithoutKeeps(hs, q, h);
    OthersKeepTime(hs, hs, Without(q, h), q, h, clock, timeout);
    hide TimeInv;
    AppendKeeps(hs, hs', Without(q, h), h, clock, timeout);
  }

  /** The CHECK in Refresh: the tail's deadline is at most a timeout from now. */
  lemma TailInTime(s: Loop)
    requires Inv(s) && s.queue != []
    ensures var tail := s.queue[|s.queue| - 1]; tail < |s.hs| && s.hs[tail].deadline <= s.clock + s.timeout
  {
    hide Held, RefInv, PcInv, QueueInv;
  }

  lemma HoldKeeps(s: Loop, h: nat)
    requires Inv(s) && Live(s, h)
    ensures Inv(Do(s, Hold(h))) && Later(s, Do(s, Hold(h)))
  {
    hide Held, RefInv;
    RefOf(s, h);
    RefChange(s.hs, Do(s, Hold(h)).hs, s.batch, s.pc, h);
  }

  lemma ReleaseKeeps(s: Loop, h: nat)
    requires Inv(s) && Live(s, h) && s.hs[h].owned > 0
    ensures Inv(Do(s, Release(h))) && Later(s, Do(s, Release(h)))
  {
    hide Held, RefInv, NoDup, PcInv;
    RefOf(s, h);
    PcGrows(s.hs, Do(s, Release(h)).hs, s.batch, s.pc);
    RefChange(s.hs, Do(s, Release(h)).hs, s.batch, s.pc, h);
  }

  lemma DoKeeps(s: Loop, op: Op)
    requires Inv(s) && Allowed(s, op)
    ensures Inv(Do(s, op)) && Later(s, Do(s, op))
  {
    hide Inv, Later;
    match op
    case DoAdd(h, mask) => AddKeeps(s, h, mask);
    case DoRemove(h) => RemoveKeeps(s, h);
    case DoModify(h, mask) => ModifyKeeps(s, h, mask);
    case DoRefresh(h) => RefreshKeeps(s, h);
    case Hold(h) => HoldKeeps(s, h);
    case Release(h) => ReleaseKeeps(s, h);
  }

  // ---------------------------------------------------------------------------------------------
  // The loop

  lemma {:induction false} CountSnoc(batch: seq<Event>, e: Event, h: nat)
    ensures Count(batch + [e], h) == Count(batch, h) + if e.On? && e.h == h then 1 else 0
  {
    if batch == [] {
      assert batch + [e] == [e] && [e][1..] == [];
    } else {
      assert (batch + [e])[1..] == batch[1..] + [e];
      CountSnoc(batch[1..], e, h);
    }
  }

  lemma {:induction false} IncRefsSpec(s: Loop, evs: seq<Event>)
    requires forall i :: 0 <= i < |evs| && evs[i].On? ==> Live(s, evs[i].h) && s.hs[evs[i].h].refs >= 0
    ensures var s' := IncRefs(s, evs);
            && s' == s.(hs := s'.hs) && |s'.hs| == |s.hs|
            && forall h :: 0 <= h < |s.hs| ==>
                 s'.hs[h] == s.hs[h].(refs := s.hs[h].refs + Count(evs, h), newborn := s.hs[h].newborn && Count(evs, h) == 0)
    decreases |evs|
  {
    if evs != [] {
      var k := |evs| - 1;
      assert evs == evs[..k] + [evs[k]];
      IncRefsSpec(s, evs[..k]);
      forall h | 0 <= h < |s.hs| ensures Count(evs, h) == Count(evs[..k], h) + if evs[k].On? && evs[k].h == h then 1 else 0 {
        CountSnoc(evs[..k], evs[k], h);
      }
    }
  }

  lemma EmptyCount(h: nat)
    ensures Count([], h) == 0
  {
  }

  lemma WaitKeeps(s: Loop, dt: nat, evs: seq<Event>)
    requires Inv(s) && s.pc.Waiting? && Reportable(s, evs)
    ensures Inv(Wait(s, dt, evs))
  {
    var s1 := s.(clock := s.clock + dt, waitedAt := s.clock);
    forall i | 0 <= i < |evs| && evs[i].On? ensures Live(s, evs[i].h) && s.hs[evs[i].h].refs >= 0 {
      RefOf(s, evs[i].h);
    }
    IncRefsSpec(s1, evs);
    hide IncRefs, Count;
    var s' := Wait(s, dt, evs);
    forall h | 0 <= h < |s'.hs|
      ensures s'.hs[h].refs == One(s'.hs[h].registered) + s'.hs[h].owned + Held(evs, Dispatching, h)
      ensures RefsOk(s'.hs[h])
    {
      RefOf(s, h);
      EmptyCount(h);
      if s.hs[h].freed || s.hs[h].newborn { NotReported(s, evs, h); }
    }
    SameTime(s.hs, s'.hs, s.queue, s.clock, s'.clock, s.timeout);
    hide TimeInv, NoDup;
  }

  /** An event of the batch is for a registered handler. */
  lemma {:induction false} NotReported(s: Loop, evs: seq<Event>, h: nat)
    requires Inv(s) && h < |s.hs| && !s.hs[h].registered && Reportable(s, evs)
    ensures Count(evs, h) == 0
    decreases |evs|
  {
    if evs != [] {
      RefOf(s, h);
      hide Inv;
      assert evs[0] in evs;
      forall i | 0 <= i < |evs[1..]| && evs[1..][i].On? ensures evs[1..][i].h in s.interest { assert evs[1..][i] == evs[i + 1]; }
      NotReported(s, evs[1..], h);
    }
  }

  /** Deadlines are as they were, and time has not gone back. */
  lemma SameTime(hs: seq<Handler>, hs': seq<Handler>, q: seq<nat>, clock: int, clock': int, timeout: int)
    requires TimeInv(hs, q, clock, timeout) && |hs| <= |hs'| && clock <= clock'
    requires forall h :: 0 <= h < |hs| ==> hs'[h].deadline == hs[h].deadline && hs'[h].touched == hs[h].touched
    ensures TimeInv(hs', q, clock', timeout)
  {
  }

  /** A reference of the loop on h is given back. */
  lemma DropHeld(s: Loop, h: nat, batch: seq<Event>, pc: Pc)
    requires Inv(s) && h < |s.hs| && PcInv(s.hs, batch, pc)
    requires Held(s.batch, s.pc, h) == Held(batch, pc, h) + 1
    requires forall x: nat :: x != h ==> Held(s.batch, s.pc, x) == Held(batch, pc, x)
    ensures Inv(DecRef(s, h).(batch := batch, pc := pc))
    ensures Live(s, h) && (DecRef(s, h).hs[h].freed <==> !s.hs[h].registered && s.hs[h].owned == 0 && Held(batch, pc, h) == 0)
  {
    RefOf(s, h);
    var s' := DecRef(s, h).(batch := batch, pc := pc);
    hide Held;
    assert Only(s.hs, s'.hs, h);
    forall x | 0 <= x < |s'.hs|
      ensures s'.hs[x].refs == One(s'.hs[x].registered) + s'.hs[x].owned + Held(batch, pc, x)
      ensures RefsOk(s'.hs[x])
    {
      RefOf(s, x);
    }
    SameTime(s.hs, s'.hs, s.queue, s.clock, s.clock, s.timeout);
    hide TimeInv, NoDup, RefInv;
    PcGrows(s.hs, s'.hs, batch, pc);
  }

  /** Going from one point of the loop to another takes no reference along. */
  lemma MoveOn(s: Loop, batch: seq<Event>, pc: Pc)
    requires Inv(s) && PcInv(s.hs, batch, pc)
    requires forall x: nat :: Held(s.batch, s.pc, x) == Held(batch, pc, x)
    ensures Inv(s.(batch := batch, pc := pc))
  {
    hide Held, TimeInv, QueueInv;
  }

  lemma TailOfBatch(hs: seq<Handler>, batch: seq<Event>, pc: Pc)
    requires PcInv(hs, batch, pc) && batch != []
    ensures PcInv(hs, batch[1..], Dispatching)
  {
    forall i | 0 <= i < |batch[1..]| && batch[1..][i].On? ensures batch[1..][i].h < |hs| { assert batch[1..][i] == batch[i + 1]; }
  }

  lemma DispatchKeeps(s: Loop)
    requires Inv(s) && s.pc.Dispatching?
    ensures Inv(Dispatch(s))
  {
    if s.batch == [] {
      MoveOn(s, s.batch, Sweeping(Sweep(s.clock, s.queue, [])));
    } else if s.batch[0].Pipe? {
      MoveOn(s, s.batch, InFunc);
    } else {
      var h := s.batch[0].h;
      RefOf(s, h);
      assert Count(s.batch, h) >= 1;
      if s.hs[h].registered {
        MoveOn(s, s.batch, InEvent(h));
      } else {
        TailOfBatch(s.hs, s.batch, s.pc);
        DropHeld(s, h, s.batch[1..], Dispatching);
      }
    }
  }

  lemma ExpireKeeps(s: Loop)
    requires Inv(s) && s.pc.Sweeping?
    ensures Inv(Expire(s, s.pc.sweep))
  {
    if s.queue == [] {
      MoveOn(s, s.batch, Waiting);
    } else {
      var h := s.queue[0];
      HeadIsLive(s);
      if s.hs[h].deadline > s.clock {
        MoveOn(s, s.batch, Waiting);
      } else {
        FireKeeps(s, h);
      }
    }
  }

  lemma HeadIsLive(s: Loop)
    requires Inv(s) && s.queue != []
    ensures Live(s, s.queue[0]) && s.hs[s.queue[0]].registered && s.hs[s.queue[0]].refs > 0
  {
    assert s.queue[0] in s.queue;
    RefOf(s, s.queue[0]);
  }

  lemma FireKeeps(s: Loop, h: nat)
    requires Inv(s) && s.pc.Sweeping? && s.queue != [] && s.queue[0] == h
    requires Live(s, h) && s.hs[h].registered && s.hs[h].refs > 0 && s.hs[h].deadline <= s.clock
    ensures Inv(Expire(s, s.pc.sweep))
  {
    var s' := Expire(s, s.pc.sweep);
    forall x | 0 <= x < |s'.hs|
      ensures s'.hs[x].refs == One(s'.hs[x].registered) + s'.hs[x].owned + Held(s'.batch, s'.pc, x)
      ensures RefsOk(s'.hs[x])
    {
      RefOf(s, x);
      EmptyCount(x);
    }
    SameTime(s.hs, s'.hs, s.queue, s.clock, s.clock, s.timeout);
    hide TimeInv, RefInv, NoDup;
  }

  lemma ReturnKeeps(s: Loop)
    requires Inv(s)
    ensures Inv(Return(s))
  {
    hide Inv, Refresh, DecRef, Held;
    PcOf(s);
    match s.pc
    case InFunc =>
      TailOfBatch(s.hs, s.batch, s.pc);
      HeldNext(s.batch, s.pc);
      MoveOn(s, s.batch[1..], Dispatching);
    case InEvent(h) =>
      TailOfBatch(s.hs, s.batch, s.pc);
      HeldNext(s.batch, s.pc);
      DropHeld(s, h, s.batch[1..], Dispatching);
    case InTimeout(h, sweep) =>
      HeldInTimeout(h, sweep);
      HeldIsLive(s, h);
      if s.hs[h].registered { RefreshKeeps(s, h); }
      var s1 := if s.hs[h].registered then Refresh(s, h) else s;
      PcOf(s1);
      DecRefStays(s1, h);
      DropHeld(s1, h, [], Sweeping(sweep));
    case _ =>
  }

  lemma DecRefStays(s: Loop, h: nat)
    ensures DecRef(s, h).batch == s.batch
  {
  }

  lemma PcOf(s: Loop)
    requires Inv(s)
    ensures PcInv(s.hs, s.batch, s.pc)
  {
  }

  /** What the loop holds when it goes on to the next event. */
  lemma HeldNext(batch: seq<Event>, pc: Pc)
    requires batch != [] && !pc.InTimeout?
    ensures forall x: nat :: Held(batch, pc, x) == Held(batch[1..], Dispatching, x) + if batch[0].On? && batch[0].h == x then 1 else 0
  {
  }

  lemma HeldInTimeout(h: nat, sweep: Sweep)
    ensures forall x: nat :: Held([], InTimeout(h, sweep), x) == Held([], Sweeping(sweep), x) + if x == h then 1 else 0
    ensures Held([], InTimeout(h, sweep), h) > 0
  {
  }

  lemma HeldIsLive(s: Loop, h: nat)
    requires Inv(s) && h < |s.hs| && Held(s.batch, s.pc, h) > 0
    ensures Live(s, h)
  {
    RefOf(s, h);
  }

  lemma CreateKeeps(s: Loop)
    requires Inv(s)
    ensures Inv(Step(s, Create))
  {
    var s' := Step(s, Create);
    var h := |s.hs|;
    assert h !in s.queue;
    NewlyMade(s);
    SameTime(s.hs, s'.hs, s.queue, s.clock, s.clock, s.timeout);
    PcGrows(s.hs, s'.hs, s.batch, s.pc);
    forall x | 0 <= x < |s'.hs|
      ensures s'.hs[x].refs == One(s'.hs[x].registered) + s'.hs[x].owned + Held(s'.batch, s'.pc, x)
      ensures RefsOk(s'.hs[x])
    {
      if x < h { RefOf(s, x); }
    }
    hide TimeInv, RefInv, PcInv;
  }

  lemma NewlyMade(s: Loop)
    requires Inv(s)
    ensures Held(s.batch, s.pc, |s.hs|) == 0
  {
    Uncounted(s.batch, |s.hs|);
  }

  lemma {:induction false} Uncounted(batch: seq<Event>, h: nat)
    requires forall i :: 0 <= i < |batch| && batch[i].On? ==> batch[i].h < h
    ensures Count(batch, h) == 0
  {
    if batch != [] {
      forall i | 0 <= i < |batch[1..]| && batch[1..][i].On? ensures batch[1..][i].h < h { assert batch[1..][i] == batch[i + 1]; }
      Uncounted(batch[1..], h);
    }
  }

  lemma TickKeeps(s: Loop, dt: nat)
    requires Inv(s)
    ensures Inv(Step(s, Tick(dt)))
  {
    SameTime(s.hs, s.hs, s.queue, s.clock, s.clock + dt, s.timeout);
  }

  lemma StepKeeps(s: Loop, l: Label)
    requires Inv(s)
    ensures Inv(Step(s, l))
  {
    hide Inv;
    match l
    case Tick(dt) => TickKeeps(s, dt);
    case Create => CreateKeeps(s);
    case Client(op) => if InClient(s.pc) && Allowed(s, op) { DoKeeps(s, op); }
    case EpollWait(dt, evs) => if s.pc.Waiting? && Reportable(s, evs) { WaitKeeps(s, dt, evs); }
    case Continue => if s.pc.Dispatching? { DispatchKeeps(s); } else if s.pc.Sweeping? { ExpireKeeps(s); }
    case Returns => ReturnKeeps(s);
  }

  lemma {:induction false} RunKeeps(timeout: int, clock: int, ls: seq<Label>)
    requires timeout > 0
    ensures Inv(Run(NewLoop(timeout, clock), ls))
    decreases |ls|
  {
    if ls != [] {
      RunKeeps(timeout, clock, ls[..|ls| - 1]);
      StepKeeps(Run(NewLoop(timeout, clock), ls[..|ls| - 1]), ls[|ls| - 1]);
    }
  }
}
