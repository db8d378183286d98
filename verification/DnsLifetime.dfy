/** How long the DNS cache keeps an entry. */
module DnsLifetime {
  import opened Common
  import opened DnsModel
  import opened DnsProofs
  import opened DnsTheorems

  predicate InCache(s: Dns, i: nat) { i < |s.nodes| && s.nodes[i].alive }

  // ---------------------------------------------------------------------------------------------
  // What only grows

  /** Of an entry: its uses, their time, and its being erased. */
  predicate Grown(n: Node, n': Node) {
    n.usedAt <= n'.usedAt && n.log <= n'.log && (n'.alive ==> n.alive)
  }

  lemma {:induction false} UseAllGrown(n: Node, cbs: seq<nat>, now: int)
    ensures Grown(n, UseAll(n, cbs, now)) && |UseAll(n, cbs, now).log| == |n.log| + |cbs|
    decreases |cbs|
  {
    if cbs != [] { UseAllGrown(n, cbs[..|cbs| - 1], now); }
  }

  lemma TailGrown(s: Dns, t: nat, now: int, ran: Option<int>, i: nat)
    requires t < |s.tasks| && s.tasks[t].node < |s.nodes| && i < |s.nodes|
    ensures var s' := Tail(s, t, now, ran); |s'.nodes| == |s.nodes| && Grown(s.nodes[i], s'.nodes[i]) && s'.clock == s.clock
  {
    var n := s.nodes[s.tasks[t].node];
    UseAllGrown(n.(callbacks := [], first := false), n.callbacks, now);
    hide UseAll;
  }

  lemma StepGrown(s: Dns, l: Label, i: nat)
    requires i < |s.nodes|
    ensures var s' := Step(s, l); i < |s'.nodes| && Grown(s.nodes[i], s'.nodes[i]) && s.clock <= s'.clock
  {
    hide CheckSection, StoreSection, ResolveSection, DeliverStep;
    match l
    case Check(t) => if t < |s.tasks| && s.tasks[t].pc.Started? && Valid(s, t) { CheckGrown(s, t, i); }
    case StoreResult(t) => if t < |s.tasks| && s.tasks[t].pc.Resolved? && Valid(s, t) { StoreGrown(s, t, i); }
    case Enter(c) => if c < |s.calls| { EnterGrown(s, c, i); }
    case DeliverOne(t) => if t < |s.tasks| && s.tasks[t].pc.Delivering? { DeliverGrown(s, t); }
    case _ =>
  }

  lemma CheckGrown(s: Dns, t: nat, i: nat)
    requires t < |s.tasks| && s.tasks[t].pc.Started? && Valid(s, t) && i < |s.nodes|
    ensures var s' := CheckSection(s, t, s.tasks[t].pc.now);
            i < |s'.nodes| && Grown(s.nodes[i], s'.nodes[i]) && s.clock <= s'.clock
  {
    hide Tail;
    var j := s.tasks[t].node;
    TailGrown(s.(nodes := s.nodes[j := s.nodes[j].(idleRuns := s.nodes[j].idleRuns + 1)]), t, s.tasks[t].pc.now, None, i);
  }

  lemma StoreGrown(s: Dns, t: nat, i: nat)
    requires t < |s.tasks| && s.tasks[t].pc.Resolved? && Valid(s, t) && i < |s.nodes|
    ensures var s' := StoreSection(s, t, s.tasks[t].pc.ring, s.tasks[t].pc.now);
            i < |s'.nodes| && Grown(s.nodes[i], s'.nodes[i]) && s.clock <= s'.clock
  {
    hide Tail;
    var j := s.tasks[t].node;
    var Resolved(ring, now) := s.tasks[t].pc;
    TailGrown(s.(nodes := s.nodes[j := Store(s.nodes[j], ring, now)]), t, now, Some(now), i);
  }

  lemma EnterGrown(s: Dns, c: nat, i: nat)
    requires c < |s.calls| && i < |s.nodes|
    ensures var s' := ResolveSection(s, c);
            i < |s'.nodes| && Grown(s.nodes[i], s'.nodes[i]) && s.clock <= s'.clock
  {
    hide Advance;
  }

  lemma DeliverGrown(s: Dns, t: nat)
    requires t < |s.tasks| && s.tasks[t].pc.Delivering?
    ensures DeliverStep(s, t).nodes == s.nodes && DeliverStep(s, t).clock == s.clock
  {
  }

  lemma {:induction false} RunGrown(s: Dns, more: seq<Label>, i: nat)
    requires i < |s.nodes|
    ensures var s' := Run(s, more); i < |s'.nodes| && Grown(s.nodes[i], s'.nodes[i]) && s.clock <= s'.clock
    decreases |more|
  {
    hide Step;
    if more != [] {
      RunGrown(s, more[..|more| - 1], i);
      StepGrown(Run(s, more[..|more| - 1]), more[|more| - 1], i);
    }
  }

  lemma {:induction false} RunFrom(s: Dns, more: seq<Label>)
    requires Inv(s)
    ensures Inv(Run(s, more)) && Run(s, more).opt == s.opt
    decreases |more|
  {
    hide Step, Inv;
    if more != [] {
      RunFrom(s, more[..|more| - 1]);
      StepKeeps(Run(s, more[..|more| - 1]), more[|more| - 1]);
      StepOpt(Run(s, more[..|more| - 1]), more[|more| - 1]);
    }
  }

  // ---------------------------------------------------------------------------------------------
  // Erasing as early as possible

  /** `more` erases entry i, at the earliest time that the refresh duration allows. */
  predicate Erases(s: Dns, more: seq<Label>, i: nat) {
    && i < |s.nodes|
    && var s' := Run(s, more);
       i < |s'.nodes| && !s'.nodes[i].alive && s'.clock == Max(s.clock, s.nodes[i].usedAt + s.opt.duration)
  }

  /** One step that leaves the clock and the entry's last use alone, and then the rest. */
  lemma ThenErases(s: Dns, l: Label, more: seq<Label>, i: nat)
    requires i < |s.nodes| && Erases(Step(s, l), more, i)
    requires var s' := Step(s, l);
             s'.clock == s.clock && s'.opt == s.opt && i < |s'.nodes| && s'.nodes[i].usedAt == s.nodes[i].usedAt
    ensures Erases(s, [l] + more, i)
  {
    RunCons(s, l, more);
    hide Step, Run;
  }

  /** Task t owns entry i, which has handed its first callbacks over. */
  predicate Runs(s: Dns, t: nat, i: nat) {
    t < |s.tasks| && Active(s.tasks[t]) && s.tasks[t].node == i && i < |s.nodes| && !s.nodes[i].first && s.nodes[i].alive
  }

  lemma RunsFacts(s: Dns, t: nat, i: nat)
    requires Inv(s) && Runs(s, t, i)
    ensures Valid(s, t) && s.nodes[i].callbacks == []
    ensures NodeOk(s.opt, s.clock, s.nodes[i]) && TaskOk(s.opt, s.clock, s.nodes[i], s.tasks[t].pc)
  {
    hide IndexInv, OwnInv, PlaceInv, DataInv;
    TaskFacts(s, t);
  }

  lemma EraseScheduled(s: Dns, t: nat, i: nat) returns (more: seq<Label>)
    requires Inv(s) && Runs(s, t, i) && s.tasks[t].pc.Scheduled?
    ensures Erases(s, more, i)
  {
    RunsFacts(s, t, i);
    hide IndexInv, OwnInv, PlaceInv, DataInv;
    var wait := Max(0, s.nodes[i].usedAt + s.opt.duration - s.clock);
    assert s.tasks[t].pc.at <= s.clock + wait;
    var s1 := Step(s, Tick(wait));
    var s2 := Step(s1, Begin(t));
    hide NodeOk, TaskOk;
    assert s2 == s1.(tasks := s1.tasks[t := Task(i, Started(s1.clock))]);
    EraseNow(s2, t, i);
    hide Step;
    RunCons(s2, Check(t), []);
    RunCons(s1, Begin(t), [Check(t)] + []);
    RunCons(s, Tick(wait), [Begin(t)] + ([Check(t)] + []));
    more := [Tick(wait)] + ([Begin(t)] + ([Check(t)] + []));
  }

  lemma EraseNow(s: Dns, t: nat, i: nat)
    requires Runs(s, t, i) && s.nodes[i].callbacks == []
    requires s.tasks[t].pc.Started? && s.tasks[t].pc.now >= s.nodes[i].usedAt + s.opt.duration
    ensures var s' := Step(s, Check(t)); s'.clock == s.clock && i < |s'.nodes| && !s'.nodes[i].alive
  {
  }

  lemma EraseRescheduling(s: Dns, t: nat, i: nat) returns (more: seq<Label>)
    requires Inv(s) && Runs(s, t, i) && s.tasks[t].pc.Rescheduling?
    ensures Erases(s, more, i)
  {
    var s' := Step(s, Reschedule(t));
    StepKeeps(s, Reschedule(t));
    hide Inv;
    assert Runs(s', |s.tasks|, i);
    more := EraseScheduled(s', |s.tasks|, i);
    hide Step, Erases;
    ThenErases(s, Reschedule(t), more, i);
    more := [Reschedule(t)] + more;
  }

  lemma EraseRelock(s: Dns, t: nat, i: nat) returns (more: seq<Label>)
    requires Inv(s) && Runs(s, t, i) && s.tasks[t].pc.Relock?
    ensures Erases(s, more, i)
  {
    hide Inv;
    var s' := Step(s, Finish(t));
    StepKeeps(s, Finish(t));
    assert Runs(s', t, i);
    more := EraseRescheduling(s', t, i);
    hide Step, Erases;
    ThenErases(s, Finish(t), more, i);
    more := [Finish(t)] + more;
  }

  lemma {:induction false} EraseDelivering(s: Dns, t: nat, i: nat) returns (more: seq<Label>)
    requires Inv(s) && Runs(s, t, i) && s.tasks[t].pc.Delivering?
    ensures Erases(s, more, i)
    decreases |s.tasks[t].pc.cbs|
  {
    var s' := Step(s, DeliverOne(t));
    StepKeeps(s, DeliverOne(t));
    DeliverRuns(s, t, i);
    hide Inv, Step, Erases;
    if s'.tasks[t].pc.Relock? { more := EraseRelock(s', t, i); } else { more := EraseDelivering(s', t, i); }
    ThenErases(s, DeliverOne(t), more, i);
    more := [DeliverOne(t)] + more;
  }

  lemma DeliverRuns(s: Dns, t: nat, i: nat)
    requires Runs(s, t, i) && s.tasks[t].pc.Delivering?
    ensures var s' := Step(s, DeliverOne(t));
            && Runs(s', t, i) && s'.clock == s.clock && s'.opt == s.opt && s'.nodes == s.nodes
            && (s'.tasks[t].pc.Relock?
                || (s'.tasks[t].pc.Delivering? && |s'.tasks[t].pc.cbs| < |s.tasks[t].pc.cbs|))
  {
  }

  lemma EraseResolved(s: Dns, t: nat, i: nat) returns (more: seq<Label>)
    requires Inv(s) && Runs(s, t, i) && s.tasks[t].pc.Resolved?
    ensures Erases(s, more, i)
  {
    hide Inv, NodeOk, TaskOk, Step, Runs, Erases;
    RunsFacts(s, t, i);
    StoredRuns(s, t, i);
    StepKeeps(s, StoreResult(t));
    more := EraseRescheduling(Step(s, StoreResult(t)), t, i);
    ThenErases(s, StoreResult(t), more, i);
    more := [StoreResult(t)] + more;
  }

  /** A run without callbacks to hand over stores its result and reschedules itself. */
  lemma StoredRuns(s: Dns, t: nat, i: nat)
    requires Runs(s, t, i) && s.tasks[t].pc.Resolved? && s.nodes[i].callbacks == []
    ensures var s' := Step(s, StoreResult(t));
            && Runs(s', t, i) && s'.tasks[t].pc.Rescheduling? && s'.clock == s.clock && s'.opt == s.opt
            && s'.nodes[i].usedAt == s.nodes[i].usedAt && i < |s.nodes|
  {
  }

  lemma EraseResolving(s: Dns, t: nat, i: nat) returns (more: seq<Label>)
    requires Inv(s) && Runs(s, t, i) && s.tasks[t].pc.Resolving?
    ensures Erases(s, more, i)
  {
    hide Inv;
    var s' := Step(s, Answer(t, []));
    StepKeeps(s, Answer(t, []));
    assert Runs(s', t, i);
    more := EraseResolved(s', t, i);
    hide Step, Erases;
    ThenErases(s, Answer(t, []), more, i);
    more := [Answer(t, [])] + more;
  }

  lemma EraseStarted(s: Dns, t: nat, i: nat) returns (more: seq<Label>)
    requires Inv(s) && Runs(s, t, i) && s.tasks[t].pc.Started?
    ensures Erases(s, more, i)
  {
    hide IndexInv, OwnInv, PlaceInv, DataInv;
    RunsFacts(s, t, i);
    StartedTime(s.opt, s.clock, s.nodes[i], s.tasks[t].pc.now);
    hide Inv, NodeOk, TaskOk;
    var s' := Step(s, Check(t));
    StepKeeps(s, Check(t));
    if s.tasks[t].pc.now >= s.nodes[i].usedAt + s.opt.duration {
      EraseNow(s, t, i);
      hide Step;
      RunCons(s, Check(t), []);
      more := [Check(t)] + [];
    } else {
      NotYet(s, t, i);
      hide Step, Erases;
      if s'.tasks[t].pc.Resolving? { more := EraseResolving(s', t, i); } else { more := EraseRescheduling(s', t, i); }
      ThenErases(s, Check(t), more, i);
      more := [Check(t)] + more;
    }
  }

  lemma NotYet(s: Dns, t: nat, i: nat)
    requires Runs(s, t, i) && s.nodes[i].callbacks == []
    requires s.tasks[t].pc.Started? && s.tasks[t].pc.now < s.nodes[i].usedAt + s.opt.duration
    ensures var s' := Step(s, Check(t));
            && Runs(s', t, i) && s'.nodes[i].usedAt == s.nodes[i].usedAt && s'.clock == s.clock && s'.opt == s.opt
            && (s'.tasks[t].pc.Resolving? || s'.tasks[t].pc.Rescheduling?)
  {
  }

  lemma EraseSoon(s: Dns, i: nat) returns (more: seq<Label>)
    requires Inv(s) && InCache(s, i) && !s.nodes[i].first
    ensures Erases(s, more, i)
  {
    Owned(s, i);
    var t: nat :| t < |s.tasks| && Active(s.tasks[t]) && s.tasks[t].node == i;
    hide Inv, Erases;
    match s.tasks[t].pc
    case Scheduled(_) => more := EraseScheduled(s, t, i);
    case Started(_) => more := EraseStarted(s, t, i);
    case Resolving => more := EraseResolving(s, t, i);
    case Resolved(_, _) => more := EraseResolved(s, t, i);
    case Delivering(_, _, _) => more := EraseDelivering(s, t, i);
    case Relock => more := EraseRelock(s, t, i);
    case Rescheduling(_) => more := EraseRescheduling(s, t, i);
  }

  lemma Owned(s: Dns, i: nat)
    requires Inv(s) && InCache(s, i) && !s.nodes[i].first
    ensures HasTask(s, i)
  {
    hide IndexInv, PlaceInv, DataInv;
    if HasCall(s, i) {
      var c :| 0 <= c < |s.calls| && s.calls[c].stage == NeedSchedule(i);
      NewIsFirst(s, c);
    }
  }

  lemma NewIsFirst(s: Dns, c: nat)
    requires DataInv(s) && c < |s.calls| && s.calls[c].stage.NeedSchedule?
    ensures s.calls[c].stage.node < |s.nodes| && s.nodes[s.calls[c].stage.node].first
  {
    assert CallOk(s, s.calls[c], c);
  }

  // ---------------------------------------------------------------------------------------------
  // The promise of the refresh duration

  /** Whatever happens from s on, entry i stays in the cache until a refresh duration after `time`. */
  ghost predicate KeptFor(s: Dns, i: nat, time: int) {
    forall more :: InCache(Run(s, more), i) || Run(s, more).clock >= time + s.opt.duration
  }

  /** An entry that has served its first callbacks is kept for a refresh duration after `time` exactly
      when its last use is not earlier than that, or the duration is already over. */
  lemma KeptExactly(opt: Options, clock: int, ls: seq<Label>, i: nat, time: int)
    requires Sane(opt, clock)
    requires var s := Reached(opt, clock, ls); InCache(s, i) && !s.nodes[i].first
    ensures var s := Reached(opt, clock, ls);
            KeptFor(s, i, time) <==> time <= s.nodes[i].usedAt || s.clock >= time + opt.duration
  {
    var s := Reached(opt, clock, ls);
    RunKeeps(opt, clock, ls);
    hide Reached;
    if time <= s.nodes[i].usedAt || s.clock >= time + s.opt.duration {
      forall more ensures InCache(Run(s, more), i) || Run(s, more).clock >= time + s.opt.duration { StaysFor(s, more, i, time); }
    } else {
      var more := EraseSoon(s, i);
      hide Inv;
      assert !InCache(Run(s, more), i) && Run(s, more).clock < time + s.opt.duration;
    }
  }

  lemma StaysFor(s: Dns, more: seq<Label>, i: nat, time: int)
    requires Inv(s) && i < |s.nodes| && (time <= s.nodes[i].usedAt || s.clock >= time + s.opt.duration)
    ensures InCache(Run(s, more), i) || Run(s, more).clock >= time + s.opt.duration
  {
    RunFrom(s, more);
    RunGrown(s, more, i);
    hide IndexInv, OwnInv, PlaceInv, DataInv, Run;
    NodeFacts(Run(s, more), i);
  }

  /** Every use keeps its entry in the cache for a refresh duration: that is, from the time that Resolve
      has read, if it has answered the call itself, and from the end of the lookup, if the callback was
      waiting for one. */
  lemma KeptWhileUsed(opt: Options, clock: int, ls: seq<Label>, d: nat)
    requires Sane(opt, clock) && d < |Reached(opt, clock, ls).delivered|
    ensures var s := Reached(opt, clock, ls);
            var e := s.delivered[d];
            && (InCache(s, e.node) || s.clock >= e.serve.at + opt.duration)
            && (!e.byTask ==> e.cb < |s.calls| && e.serve.at == s.calls[e.cb].now)
            && (e.byTask && e.ran.Some? ==> e.serve.at == e.ran.value)
  {
    RunKeeps(opt, clock, ls);
    var s := Reached(opt, clock, ls);
    hide IndexInv, OwnInv, PlaceInv, DataInv, Run;
    DeliveryHolds(s, d);
    NodeFacts(s, s.delivered[d].node);
  }

  lemma DeliveryHolds(s: Dns, d: nat)
    requires DataInv(s) && d < |s.delivered|
    ensures DeliveryOk(s, s.delivered[d])
  {
  }

  /** The callbacks that wait for an entry's first lookup.  When their task hands them over, such a
      callback's entry is certain to be kept for a refresh duration after its Resolve if and only if
      that Resolve read the clock no later than the lookup ended, or the duration is already over. */
  lemma KeptForTheWaiting(opt: Options, clock: int, ls: seq<Label>, t: nat, c: nat)
    requires Sane(opt, clock)
    requires var s := Reached(opt, clock, ls);
             && t < |s.tasks| && s.tasks[t].pc.Resolved? && s.tasks[t].node < |s.nodes| && s.nodes[s.tasks[t].node].first
             && c < |s.calls| && c in s.nodes[s.tasks[t].node].callbacks
    ensures var s := Reached(opt, clock, ls);
            KeptFor(Step(s, StoreResult(t)), s.tasks[t].node, s.calls[c].now)
            <==> s.calls[c].now <= s.tasks[t].pc.now || s.clock >= s.calls[c].now + opt.duration
  {
    var s := Reached(opt, clock, ls);
    RunKeeps(opt, clock, ls);
    StoreUses(s, t);
    hide Step, Inv;
    assert (ls + [StoreResult(t)])[..|ls|] == ls;
    assert Reached(opt, clock, ls + [StoreResult(t)]) == Step(s, StoreResult(t));
    KeptExactly(opt, clock, ls + [StoreResult(t)], s.tasks[t].node, s.calls[c].now);
  }

  lemma StoreUses(s: Dns, t: nat)
    requires Inv(s) && t < |s.tasks| && s.tasks[t].pc.Resolved? && s.tasks[t].node < |s.nodes| && s.nodes[s.tasks[t].node].first
    ensures var i := s.tasks[t].node;
            var s' := Step(s, StoreResult(t));
            InCache(s', i) && !s'.nodes[i].first && s'.nodes[i].usedAt == s.tasks[t].pc.now && s'.clock == s.clock
  {
    hide IndexInv, OwnInv, PlaceInv, DataInv;
    TaskFacts(s, t);
    var i := s.tasks[t].node;
    var Resolved(ring, now) := s.tasks[t].pc;
    var n := Store(s.nodes[i], ring, now).(callbacks := [], first := false);
    StoreKeeps(s.opt, s.clock, s.nodes[i].(callbacks := [], first := false), ring, now);
    assert n == Store(s.nodes[i].(callbacks := [], first := false), ring, now);
    UseAllKeeps(s.opt, s.clock, n, s.nodes[i].callbacks, now);
    hide UseAll, NodeOk;
  }

  const HASTY := Options(100, 10, 5)

  /** Callback 1 has been invoked in the same batch as callback 0. */
  predicate BothServed(s: Dns) {
    && |s.calls| == 2 && s.calls[1].now == 13 && s.calls[1].stage == Delivered(1)
    && |s.delivered| == 2 && s.delivered[1].cb == 1 && s.delivered[1].node == 0
    && InCache(s, 0) && !s.nodes[0].first && s.nodes[0].usedAt == 10 && s.clock == 13 && s.opt == HASTY
  }

  /** So not every run keeps an entry for the refresh duration after each Resolve.  With a duration of 5:
      call 0 starts a lookup, which ends at 10; call 1 reads 13 and joins the waiting; their task hands both
      over, with the time 10; and at 15, not 18, the entry is erased. */
  lemma ErasedEarly()
    ensures exists ls, more ::
              var s, s' := Reached(HASTY, 10, ls), Run(Reached(HASTY, 10, ls), more);
              BothServed(s) && !InCache(s', 0) && s'.clock == 15 < s.calls[1].now + s.opt.duration
  {
    var ls := TwoWait();
    ls := TwoReached(ls);
    var s := Reached(HASTY, 10, ls);
    hide BothServed, Run;
    RunKeeps(HASTY, 10, ls);
    ThenErased(s);
    assert s.calls[1].now + s.opt.duration == 18 by { WhenServed(s); }
  }

  lemma WhenServed(s: Dns)
    requires BothServed(s)
    ensures |s.calls| == 2 && s.calls[1].now == 13 && s.opt == HASTY
  {
  }

  lemma TwoReached(ls: seq<Label>) returns (more: seq<Label>)
    requires Reached(HASTY, 10, ls) == Waiting()
    ensures BothServed(Reached(HASTY, 10, more))
  {
    var s1 := Reached(HASTY, 10, ls);
    TwoServed(s1);
    var rest := [StoreResult(0)] + ([DeliverOne(0)] + ([DeliverOne(0)] + []));
    hide Step, BothServed;
    RunCons(Step(Step(s1, StoreResult(0)), DeliverOne(0)), DeliverOne(0), []);
    RunCons(Step(s1, StoreResult(0)), DeliverOne(0), [DeliverOne(0)] + []);
    RunCons(s1, StoreResult(0), [DeliverOne(0)] + ([DeliverOne(0)] + []));
    RunAppend(NewDns(HASTY, 10), ls, rest);
    more := ls + rest;
  }

  lemma ThenErased(s: Dns)
    requires Inv(s) && BothServed(s)
    ensures exists more :: !InCache(Run(s, more), 0) && Run(s, more).clock == 15
  {
    var more := EraseSoon(s, 0);
    hide Inv, Run;
    assert !InCache(Run(s, more), 0) && Run(s, more).clock == 15;
  }

  lemma {:induction false} RunAppend(s: Dns, ls: seq<Label>, more: seq<Label>)
    ensures Run(s, ls + more) == Run(Run(s, ls), more)
    decreases |more|
  {
    hide Step;
    if more == [] {
      assert ls + more == ls;
    } else {
      assert (ls + more)[..|ls + more| - 1] == ls + more[..|more| - 1];
      RunAppend(s, ls, more[..|more| - 1]);
    }
  }

  /** The lookup has ended at 10, and two callbacks wait for its task to get the mutex. */
  function Waiting(): Dns {
    Dns(HASTY, 13, map["a:1" := 0], [NewNode("a:1", 0).(callbacks := [0, 1], lookups := 1)],
        [Call("a:1", 10, InEntry(0)), Call("a:1", 13, InEntry(0))], [Task(0, Resolved(["x"], 10))], [],
        {Lookup("a:1", ["x"], 10)}, false)
  }

  lemma TwoWait() returns (ls: seq<Label>)
    ensures Reached(HASTY, 10, ls) == Waiting()
  {
    var s0 := NewDns(HASTY, 10);
    var s2 := OneCall(HASTY, 10, NeedSchedule(0), []);
    var s4 := OneCall(HASTY, 10, InEntry(0), [Task(0, Started(10))]);
    FirstCall(HASTY, 10);
    FirstTask(HASTY, 10);
    LookupEnds();
    SecondWaits();
    hide Step;
    ls := [Resolve("a:1"), Enter(0), ScheduleFirst(0), Begin(0)] + ([Check(0), Answer(0, ["x"])] + [Tick(3), Resolve("a:1"), Enter(1)]);
    RunAppend(s0, [Resolve("a:1"), Enter(0), ScheduleFirst(0), Begin(0)], [Check(0), Answer(0, ["x"])] + [Tick(3), Resolve("a:1"), Enter(1)]);
    RunAppend(s4, [Check(0), Answer(0, ["x"])], [Tick(3), Resolve("a:1"), Enter(1)]);
    RunTwo(s0, Resolve("a:1"), Enter(0));
    RunTwo(s2, ScheduleFirst(0), Begin(0));
    RunAppend(s0, [Resolve("a:1"), Enter(0)], [ScheduleFirst(0), Begin(0)]);
    assert [Resolve("a:1"), Enter(0)] + [ScheduleFirst(0), Begin(0)] == [Resolve("a:1"), Enter(0), ScheduleFirst(0), Begin(0)];
    RunTwo(s4, Check(0), Answer(0, ["x"]));
    var s6 := Step(Step(s4, Check(0)), Answer(0, ["x"]));
    RunTwo(s6, Tick(3), Resolve("a:1"));
    RunAppend(s6, [Tick(3), Resolve("a:1")], [Enter(1)]);
    assert [Tick(3), Resolve("a:1")] + [Enter(1)] == [Tick(3), Resolve("a:1"), Enter(1)];
    RunCons(Step(Step(s6, Tick(3)), Resolve("a:1")), Enter(1), []);
    assert [Enter(1)] + [] == [Enter(1)];
  }

  lemma RunTwo(s: Dns, l: Label, m: Label)
    ensures Run(s, [l, m]) == Step(Step(s, l), m)
  {
    hide Step;
    RunCons(Step(s, l), m, []);
    RunCons(s, l, [m] + []);
    assert [l] + ([m] + []) == [l, m];
  }

  lemma LookupEnds()
    ensures var s4 := OneCall(HASTY, 10, InEntry(0), [Task(0, Started(10))]);
            Step(Step(s4, Check(0)), Answer(0, ["x"])) ==
            s4.(nodes := [NewNode("a:1", 0).(lookups := 1)], tasks := [Task(0, Resolved(["x"], 10))],
                answers := {Lookup("a:1", ["x"], 10)})
  {
    var s4 := OneCall(HASTY, 10, InEntry(0), [Task(0, Started(10))]);
    var s5 := Step(s4, Check(0));
    assert s5 == s4.(nodes := [NewNode("a:1", 0).(lookups := 1)], tasks := [Task(0, Resolving)]);
  }

  lemma SecondWaits()
    ensures var s6 := OneCall(HASTY, 10, InEntry(0), [Task(0, Resolved(["x"], 10))])
                      .(nodes := [NewNode("a:1", 0).(lookups := 1)], answers := {Lookup("a:1", ["x"], 10)});
            Step(Step(Step(s6, Tick(3)), Resolve("a:1")), Enter(1)) == Waiting()
  {
    var s6 := OneCall(HASTY, 10, InEntry(0), [Task(0, Resolved(["x"], 10))])
              .(nodes := [NewNode("a:1", 0).(lookups := 1)], answers := {Lookup("a:1", ["x"], 10)});
    var s8 := Step(Step(s6, Tick(3)), Resolve("a:1"));
    assert s8.calls == [Call("a:1", 10, InEntry(0)), Call("a:1", 13, Sampled)];
    assert s8.nodes[0].callbacks + [1] == [0, 1];
  }

  lemma TwoServed(s: Dns)
    requires s == Waiting()
    ensures BothServed(Step(Step(Step(s, StoreResult(0)), DeliverOne(0)), DeliverOne(0)))
  {
    hide Step, BothServed;
    TwoHandedOver(s);
    TwoInvoked(Step(s, StoreResult(0)));
  }

  /** A batch of the two callbacks. */
  predicate TwoInBatch(s: Dns) {
    && |s.calls| == 2 && s.calls[0].stage == InBatch(0) && s.calls[1].stage == InBatch(0) && s.calls[1].now == 13
    && |s.tasks| == 1 && s.tasks[0].node == 0 && s.tasks[0].pc.Delivering? && s.tasks[0].pc.cbs == [0, 1] && s.delivered == []
    && InCache(s, 0) && !s.nodes[0].first && s.nodes[0].usedAt == 10 && s.clock == 13 && s.opt == HASTY
  }

  lemma TwoInvoked(s: Dns)
    requires TwoInBatch(s)
    ensures BothServed(Step(Step(s, DeliverOne(0)), DeliverOne(0)))
  {
    var s' := Step(s, DeliverOne(0));
    assert s'.tasks[0].pc.cbs == [1] && s'.nodes == s.nodes;
  }

  lemma TwoHandedOver(s: Dns)
    requires s == Waiting()
    ensures TwoInBatch(Step(s, StoreResult(0)))
  {
    var n := Store(s.nodes[0], ["x"], 10).(callbacks := [], first := false);
    assert UseAll(n, [0, 1], 10) == Use(Use(n, 0, 10), 1, 10) by { UseBoth(n); }
    var s1 := Step(s, StoreResult(0));
    assert s1.tasks[0].pc.cbs == [0, 1] && s1.calls[0].stage == InBatch(0) && s1.calls[1].stage == InBatch(0);
    assert s1.nodes[0].usedAt == 10;
  }

  lemma UseBoth(n: Node)
    ensures UseAll(n, [0, 1], 10) == Use(Use(n, 0, 10), 1, 10)
  {
    assert [0, 1][..1] == [0] && [0][..0] == [];
    assert UseAll(n, [], 10) == n;
    assert UseAll(n, [0], 10) == Use(n, 0, 10);
  }

  // ---------------------------------------------------------------------------------------------
  // An entry that is no longer used is erased

  /** A run of entry i's task gets the mutex for the first time. */
  predicate RunsEntry(s: Dns, l: Label, i: nat) {
    l.Check? && l.t < |s.tasks| && s.tasks[l.t].pc.Started? && s.tasks[l.t].node == i
  }

  /** How many runs of entry i begin in `more`. */
  function RunCount(s: Dns, more: seq<Label>, i: nat): nat
    decreases |more|
  {
    if more == [] then 0 else
    var k := |more| - 1;
    RunCount(s, more[..k], i) + if RunsEntry(Run(s, more[..k]), more[k], i) then 1 else 0
  }

  /** If the step does not use the entry, it adds to the count of runs exactly if it begins one. */
  predicate Counted(s: Dns, s': Dns, i: nat, runs: bool)
    requires i < |s.nodes| && i < |s'.nodes|
  {
    var n, n' := s.nodes[i], s'.nodes[i];
    n'.alive && n'.log == n.log ==> n'.lookups + n'.idleRuns == n.lookups + n.idleRuns + if runs then 1 else 0
  }

  lemma CheckCounts(s: Dns, t: nat, i: nat)
    requires Inv(s) && t < |s.tasks| && s.tasks[t].pc.Started? && i < |s.nodes|
    ensures var s' := Step(s, Check(t)); i < |s'.nodes| && Counted(s, s', i, s.tasks[t].node == i)
  {
    hide IndexInv, OwnInv, PlaceInv, DataInv, NodeOk, TaskOk, UseAll;
    TaskFacts(s, t);
    var n := s.nodes[s.tasks[t].node];
    UseAllGrown(n.(idleRuns := n.idleRuns + 1, callbacks := [], first := false), n.callbacks, s.tasks[t].pc.now);
  }

  lemma StoreCounts(s: Dns, t: nat, i: nat)
    requires Inv(s) && t < |s.tasks| && s.tasks[t].pc.Resolved? && i < |s.nodes|
    ensures var s' := Step(s, StoreResult(t)); i < |s'.nodes| && Counted(s, s', i, false)
  {
    hide IndexInv, OwnInv, PlaceInv, DataInv, NodeOk, TaskOk, UseAll;
    TaskFacts(s, t);
    var n := Store(s.nodes[s.tasks[t].node], s.tasks[t].pc.ring, s.tasks[t].pc.now);
    UseAllGrown(n.(callbacks := [], first := false), n.callbacks, s.tasks[t].pc.now);
  }

  lemma StepCounts(s: Dns, l: Label, i: nat)
    requires Inv(s) && i < |s.nodes|
    ensures var s' := Step(s, l); i < |s'.nodes| && Counted(s, s', i, RunsEntry(s, l, i))
  {
    if l.Check? && l.t < |s.tasks| && s.tasks[l.t].pc.Started? {
      CheckCounts(s, l.t, i);
    } else if l.StoreResult? && l.t < |s.tasks| && s.tasks[l.t].pc.Resolved? {
      StoreCounts(s, l.t, i);
    } else if l.Enter? {
      EnterCounts(s, l.c, i);
    } else {
      hide Counted;
      OthersKeepNodes(s, l);
      SameCount(s, Step(s, l), i);
    }
  }

  lemma EnterCounts(s: Dns, c: nat, i: nat)
    requires i < |s.nodes|
    ensures var s' := Step(s, Enter(c)); i < |s'.nodes| && Counted(s, s', i, false)
  {
    hide Advance;
  }

  lemma SameCount(s: Dns, s': Dns, i: nat)
    requires i < |s.nodes| && s'.nodes == s.nodes
    ensures Counted(s, s', i, false)
  {
  }

  lemma OthersKeepNodes(s: Dns, l: Label)
    requires !l.Enter?
    requires l.Check? ==> !(l.t < |s.tasks| && s.tasks[l.t].pc.Started?)
    requires l.StoreResult? ==> !(l.t < |s.tasks| && s.tasks[l.t].pc.Resolved?)
    ensures Step(s, l).nodes == s.nodes
  {
  }

  lemma {:induction false} RunsAreCounted(s: Dns, more: seq<Label>, i: nat)
    requires Inv(s) && i < |s.nodes| && InCache(Run(s, more), i) && Run(s, more).nodes[i].log == s.nodes[i].log
    ensures var n, n' := s.nodes[i], Run(s, more).nodes[i];
            n'.lookups + n'.idleRuns == n.lookups + n.idleRuns + RunCount(s, more, i)
    decreases |more|
  {
    if more != [] {
      var k := |more| - 1;
      var s1 := Run(s, more[..k]);
      RunFrom(s, more[..k]);
      RunGrown(s, more[..k], i);
      StepGrown(s1, more[k], i);
      hide Inv, Step;
      RunsAreCounted(s, more[..k], i);
      StepCounts(s1, more[k], i);
      hide Run;
    }
  }

  function CeilDiv(a: int, b: int): int
    requires b > 0
  {
    (a + b - 1) / b
  }

  lemma AtMostCeil(k: int, a: int, b: int)
    requires b > 0 && k * b < a + b
    ensures k <= CeilDiv(a, b)
  {
    if k > CeilDiv(a, b) { MulMonotone(k, CeilDiv(a, b) + 1, b); }
  }

  lemma MulMonotone(k: int, m: int, b: int)
    requires k >= m && b > 0
    ensures k * b >= m * b
  {
  }

  /** An entry that is not used any more is erased, whatever else happens, by the time that
      ceil(duration / period) + 2 of its runs have begun. */
  lemma ErasedInTime(opt: Options, clock: int, ls: seq<Label>, more: seq<Label>, i: nat)
    requires Sane(opt, clock) && i < |Reached(opt, clock, ls).nodes|
    requires RunCount(Reached(opt, clock, ls), more, i) >= CeilDiv(opt.duration, opt.period) + 2
    requires var s' := Run(Reached(opt, clock, ls), more);
             i < |s'.nodes| && s'.nodes[i].log == Reached(opt, clock, ls).nodes[i].log
    ensures !InCache(Run(Reached(opt, clock, ls), more), i)
  {
    var s := Reached(opt, clock, ls);
    RunKeeps(opt, clock, ls);
    hide Reached;
    RunFrom(s, more);
    var s' := Run(s, more);
    if InCache(s', i) {
      RunsAreCounted(s, more, i);
      hide IndexInv, OwnInv, PlaceInv, DataInv, NodeOk, Run, RunCount, CeilDiv;
      NodeFacts(s', i);
      LookupsBounded(opt, s'.clock, s'.nodes[i]);
      AtMostCeil(s'.nodes[i].lookups, opt.duration, opt.period);
    }
  }
}
