/** The guarantees of the DNS cache, over every run. */
module DnsTheorems {
  import opened Common
  import opened DnsModel
  import opened DnsProofs

  function Reached(opt: Options, clock: int, ls: seq<Label>): Dns { Run(NewDns(opt, clock), ls) }

  // ---------------------------------------------------------------------------------------------
  // Callbacks are neither lost nor duplicated

  /** The places where a callback can be. */
  datatype Spot = WithCaller(c: nat) | InNode(i: nat, k: nat) | InTask(t: nat, k: nat) | Out(d: nat)

  predicate Holds(s: Dns, p: Spot, c: nat) {
    match p
    case WithCaller(d) => d == c && c < |s.calls| && (s.calls[c].stage.Sampled? || s.calls[c].stage.Serving?)
    case InNode(i, k) => i < |s.nodes| && k < |s.nodes[i].callbacks| && s.nodes[i].callbacks[k] == c
    case InTask(t, k) =>
      t < |s.tasks| && s.tasks[t].pc.Delivering? && k < |s.tasks[t].pc.cbs| && s.tasks[t].pc.cbs[k] == c
    case Out(d) => d < |s.delivered| && s.delivered[d].cb == c
  }

  /** At every moment every issued callback is in exactly one place: still with its caller, waiting in
      one entry, in the hands of one delivering task, or invoked, once. */
  lemma ExactlyOnePlace(opt: Options, clock: int, ls: seq<Label>, c: nat)
    requires Sane(opt, clock) && c < |Reached(opt, clock, ls).calls|
    ensures var s := Reached(opt, clock, ls);
            && (exists p :: Holds(s, p, c))
            && (forall p, q :: Holds(s, p, c) && Holds(s, q, c) ==> p == q)
  {
    var s := Reached(opt, clock, ls);
    RunKeeps(opt, clock, ls);
    HasSpot(s, c);
    forall p, q | Holds(s, p, c) && Holds(s, q, c) ensures p == q { OneSpot(s, p, q, c); }
  }

  lemma HasSpot(s: Dns, c: nat)
    requires PlaceInv(s) && c < |s.calls|
    ensures exists p :: Holds(s, p, c)
  {
    assert InPlace(s, c);
    match s.calls[c].stage
    case NeedSchedule(i) => var k :| 0 <= k < |s.nodes[i].callbacks| && s.nodes[i].callbacks[k] == c; assert Holds(s, InNode(i, k), c);
    case InEntry(i) => var k :| 0 <= k < |s.nodes[i].callbacks| && s.nodes[i].callbacks[k] == c; assert Holds(s, InNode(i, k), c);
    case InBatch(t) => var k :| 0 <= k < |s.tasks[t].pc.cbs| && s.tasks[t].pc.cbs[k] == c; assert Holds(s, InTask(t, k), c);
    case Delivered(d) => assert Holds(s, Out(d), c);
    case Sampled => assert Holds(s, WithCaller(c), c);
    case Serving(_, _, _) => assert Holds(s, WithCaller(c), c);
  }

  lemma OneSpot(s: Dns, p: Spot, q: Spot, c: nat)
    requires PlaceInv(s) && Holds(s, p, c) && Holds(s, q, c)
    ensures p == q
  {
    SpotTells(s, p, c);
    SpotTells(s, q, c);
    if p.InNode? { assert NoDup(s.nodes[p.i].callbacks); }
    if p.InTask? { assert NoDup(s.tasks[p.t].pc.cbs); }
  }

  lemma SpotTells(s: Dns, p: Spot, c: nat)
    requires PlaceInv(s) && Holds(s, p, c)
    ensures c < |s.calls|
    ensures match p
            case WithCaller(_) => s.calls[c].stage.Sampled? || s.calls[c].stage.Serving?
            case InNode(i, _) => s.calls[c].stage == InEntry(i) || s.calls[c].stage == NeedSchedule(i)
            case InTask(t, _) => s.calls[c].stage == InBatch(t)
            case Out(d) => s.calls[c].stage == Delivered(d)
  {
  }

  /** Callbacks wait in an entry exactly until its first run hands them over. */
  lemma WaitOnlyForTheFirstRun(opt: Options, clock: int, ls: seq<Label>, i: nat)
    requires Sane(opt, clock) && i < |Reached(opt, clock, ls).nodes|
    ensures var n := Reached(opt, clock, ls).nodes[i]; n.callbacks != [] <==> n.first
  {
    RunKeeps(opt, clock, ls);
    hide NodeOk;
    NodeFacts(Reached(opt, clock, ls), i);
  }

  // ---------------------------------------------------------------------------------------------
  // Every callback can still be invoked

  /** Callback c has been invoked: by Resolve itself, or by task t on the entry that it runs. */
  predicate DeliveredBy(s: Dns, c: nat, t: nat) {
    && c < |s.calls| && s.calls[c].stage.Delivered? && s.calls[c].stage.d < |s.delivered|
    && var e := s.delivered[s.calls[c].stage.d];
       e.cb == c && (e.byTask ==> t < |s.tasks| && s.tasks[t].node == e.node)
  }

  /** A step of call c itself, of call d when it schedules the entry it has inserted, of task t, or of
      the clock. */
  predicate Helps(l: Label, c: nat, d: nat, t: nat) {
    match l
    case Tick(_) => true
    case Enter(x) => x == c
    case Invoke(x) => x == c
    case ScheduleFirst(x) => x == d
    case Begin(u) => u == t
    case Check(u) => u == t
    case Answer(u, _) => u == t
    case StoreResult(u) => u == t
    case DeliverOne(u) => u == t
    case _ => false
  }

  /** `ls` brings callback c to be invoked, in at most `bound` such steps. */
  predicate Brings(s: Dns, ls: seq<Label>, c: nat, d: nat, t: nat, bound: nat) {
    |ls| <= bound && (forall l :: l in ls ==> Helps(l, c, d, t)) && DeliveredBy(Run(s, ls), c, t)
  }

  /** A call that is about to schedule an entry is d, if it is not c. */
  predicate MayHelp(s: Dns, c: nat, d: nat) { d == c || (d < |s.calls| && s.calls[d].stage.NeedSchedule?) }

  ghost predicate Near(s: Dns, c: nat, bound: nat) {
    exists more, d: nat, t: nat :: Brings(s, more, c, d, t, bound) && MayHelp(s, c, d)
  }

  lemma ThenBrings(s: Dns, l: Label, ls: seq<Label>, c: nat, d: nat, t: nat, bound: nat)
    requires Brings(Step(s, l), ls, c, d, t, bound) && Helps(l, c, d, t)
    ensures Brings(s, [l] + ls, c, d, t, bound + 1)
  {
    hide Step, DeliveredBy;
    RunCons(s, l, ls);
  }

  lemma {:induction false} RunCons(s: Dns, l: Label, ls: seq<Label>)
    ensures Run(s, [l] + ls) == Run(Step(s, l), ls)
    decreases |ls|
  {
    var all := [l] + ls;
    if ls == [] {
      assert all[..|all| - 1] == [];
    } else {
      assert all[..|all| - 1] == [l] + ls[..|ls| - 1];
      RunCons(s, l, ls[..|ls| - 1]);
    }
  }

  lemma BatchStep(s: Dns, t: nat)
    requires t < |s.tasks| && s.tasks[t].pc.Delivering? && s.tasks[t].pc.cbs != [] && s.tasks[t].pc.cbs[0] < |s.calls|
    ensures var s' := Step(s, DeliverOne(t));
            && |s'.tasks| == |s.tasks| && s'.tasks[t].pc.Delivering? && s'.tasks[t].pc.cbs == s.tasks[t].pc.cbs[1..]
            && DeliveredBy(s', s.tasks[t].pc.cbs[0], t)
  {
  }

  lemma {:induction false} FromBatch(s: Dns, t: nat, k: nat, d: nat) returns (ls: seq<Label>)
    requires Inv(s) && t < |s.tasks| && s.tasks[t].pc.Delivering? && k < |s.tasks[t].pc.cbs|
    ensures Brings(s, ls, s.tasks[t].pc.cbs[k], d, t, k + 1)
    decreases k
  {
    var l := DeliverOne(t);
    hide IndexInv, OwnInv, PlaceInv, DataInv, DeliveredBy;
    FirstInBatch(s, t);
    BatchStep(s, t);
    hide Inv, Step;
    StepKeeps(s, l);
    if k == 0 {
      ls := [];
    } else {
      assert s.tasks[t].pc.cbs[1..][k - 1] == s.tasks[t].pc.cbs[k];
      ls := FromBatch(Step(s, l), t, k - 1, d);
    }
    ThenBrings(s, l, ls, s.tasks[t].pc.cbs[k], d, t, k);
    ls := [l] + ls;
  }

  /** Task t owns the entry that holds callback c. */
  predicate Owns(s: Dns, t: nat, c: nat) {
    && t < |s.tasks| && Active(s.tasks[t]) && c < |s.calls| && s.calls[c].stage == InEntry(s.tasks[t].node)
  }

  lemma InCbs(s: Dns, t: nat, c: nat) returns (k: nat)
    requires Inv(s) && Owns(s, t, c)
    ensures Valid(s, t)
    ensures k < |s.nodes[s.tasks[t].node].callbacks| <= |s.calls| && s.nodes[s.tasks[t].node].callbacks[k] == c
  {
    TaskFacts(s, t);
    assert InPlace(s, c);
    k :| 0 <= k < |s.nodes[s.tasks[t].node].callbacks| && s.nodes[s.tasks[t].node].callbacks[k] == c;
    CallbacksFit(s, s.tasks[t].node);
  }

  /** No more callbacks wait than have been issued. */
  lemma CallbacksFit(s: Dns, i: nat)
    requires PlaceInv(s) && i < |s.nodes|
    ensures |s.nodes[i].callbacks| <= |s.calls|
  {
    var all := seq(|s.calls|, c => c);
    forall c | c in s.nodes[i].callbacks ensures c in all {
      var k :| 0 <= k < |s.nodes[i].callbacks| && s.nodes[i].callbacks[k] == c;
      assert all[c] == c;
    }
    Pigeonhole(s.nodes[i].callbacks, all);
  }

  lemma StoreHandsOver(s: Dns, t: nat)
    requires t < |s.tasks| && s.tasks[t].pc.Resolved? && Valid(s, t) && s.nodes[s.tasks[t].node].callbacks != []
    ensures var s' := Step(s, StoreResult(t));
            t < |s'.tasks| && s'.tasks[t].pc.Delivering? && s'.tasks[t].pc.cbs == s.nodes[s.tasks[t].node].callbacks
  {
    hide UseAll;
  }

  lemma FromResolved(s: Dns, t: nat, c: nat, d: nat) returns (ls: seq<Label>)
    requires Inv(s) && Owns(s, t, c) && s.tasks[t].pc.Resolved?
    ensures Brings(s, ls, c, d, t, |s.calls| + 1)
  {
    hide Inv;
    var l := StoreResult(t);
    var k := InCbs(s, t, c);
    StoreHandsOver(s, t);
    StepKeeps(s, l);
    hide Step, Brings;
    ls := FromBatch(Step(s, l), t, k, d);
    ThenBrings(s, l, ls, c, d, t, k + 1);
    Longer(s, [l] + ls, c, d, t, k + 2, |s.calls| + 1);
    ls := [l] + ls;
  }

  lemma Longer(s: Dns, ls: seq<Label>, c: nat, d: nat, t: nat, bound: nat, more: nat)
    requires Brings(s, ls, c, d, t, bound) && bound <= more
    ensures Brings(s, ls, c, d, t, more)
  {
  }

  lemma FromResolving(s: Dns, t: nat, c: nat, d: nat) returns (ls: seq<Label>)
    requires Inv(s) && Owns(s, t, c) && s.tasks[t].pc.Resolving?
    ensures Brings(s, ls, c, d, t, |s.calls| + 2)
  {
    hide Inv;
    var l := Answer(t, []);
    var _ := InCbs(s, t, c);
    StepKeeps(s, l);
    assert Owns(Step(s, l), t, c) && Step(s, l).tasks[t].pc.Resolved? && |Step(s, l).calls| == |s.calls|;
    hide Step, Brings;
    ls := FromResolved(Step(s, l), t, c, d);
    ThenBrings(s, l, ls, c, d, t, |s.calls| + 1);
    ls := [l] + ls;
  }

  lemma CheckGoesOn(s: Dns, t: nat, c: nat)
    requires Owns(s, t, c) && s.tasks[t].pc.Started? && Valid(s, t) && s.nodes[s.tasks[t].node].callbacks != []
    ensures var s' := Step(s, Check(t));
            && |s'.calls| == |s.calls| && t < |s'.tasks|
            && (s'.tasks[t].pc.Resolving? ==> Owns(s', t, c))
            && (!s'.tasks[t].pc.Resolving? ==> s'.tasks[t].pc.Delivering? && s'.tasks[t].pc.cbs == s.nodes[s.tasks[t].node].callbacks)
  {
    hide UseAll;
  }

  lemma FromStarted(s: Dns, t: nat, c: nat, d: nat) returns (ls: seq<Label>)
    requires Inv(s) && Owns(s, t, c) && s.tasks[t].pc.Started?
    ensures Brings(s, ls, c, d, t, |s.calls| + 3)
  {
    hide Inv;
    var l := Check(t);
    var k := InCbs(s, t, c);
    CheckGoesOn(s, t, c);
    StepKeeps(s, l);
    hide Step, Brings;
    if Step(s, l).tasks[t].pc.Resolving? {
      ls := FromResolving(Step(s, l), t, c, d);
    } else {
      ls := FromBatch(Step(s, l), t, k, d);
      Longer(Step(s, l), ls, c, d, t, k + 1, |s.calls| + 2);
    }
    ThenBrings(s, l, ls, c, d, t, |s.calls| + 2);
    ls := [l] + ls;
  }

  lemma ScheduledSteps(s: Dns, t: nat, c: nat)
    requires Owns(s, t, c) && s.tasks[t].pc.Scheduled?
    ensures var s2 := Step(Step(s, Tick(Max(0, s.tasks[t].pc.at - s.clock))), Begin(t));
            Owns(s2, t, c) && s2.tasks[t].pc.Started? && |s2.calls| == |s.calls|
  {
  }

  lemma FromScheduled(s: Dns, t: nat, c: nat, d: nat) returns (ls: seq<Label>)
    requires Inv(s) && Owns(s, t, c) && s.tasks[t].pc.Scheduled?
    ensures Brings(s, ls, c, d, t, |s.calls| + 5)
  {
    hide Inv, Step, Brings;
    var l := Tick(Max(0, s.tasks[t].pc.at - s.clock));
    ScheduledSteps(s, t, c);
    hide Owns;
    var s1 := Step(s, l);
    StepKeeps(s, l);
    StepKeeps(s1, Begin(t));
    ls := FromStarted(Step(s1, Begin(t)), t, c, d);
    ThenBrings(s1, Begin(t), ls, c, d, t, |s.calls| + 3);
    ThenBrings(s, l, [Begin(t)] + ls, c, d, t, |s.calls| + 4);
    ls := [l] + ([Begin(t)] + ls);
  }

  lemma FromEntry(s: Dns, c: nat, d: nat) returns (ls: seq<Label>, t: nat)
    requires Inv(s) && c < |s.calls| && s.calls[c].stage.InEntry? && HasTask(s, s.calls[c].stage.node)
    ensures Brings(s, ls, c, d, t, |s.calls| + 5)
  {
    var i := s.calls[c].stage.node;
    t :| 0 <= t < |s.tasks| && Active(s.tasks[t]) && s.tasks[t].node == i;
    Waited(s, c, i);
    TaskFacts(s, t);
    hide Inv, IndexInv, OwnInv, PlaceInv, DataInv;
    match s.tasks[t].pc
    case Scheduled(_) => ls := FromScheduled(s, t, c, d);
    case Started(_) => ls := FromStarted(s, t, c, d);
    case Resolving => ls := FromResolving(s, t, c, d);
    case Resolved(_, _) => ls := FromResolved(s, t, c, d);
    case _ => assert false;
  }

  lemma Waited(s: Dns, c: nat, i: nat)
    requires Inv(s) && c < |s.calls| && (s.calls[c].stage == InEntry(i) || s.calls[c].stage == NeedSchedule(i))
    ensures i < |s.nodes| && s.nodes[i].first && s.nodes[i].alive && (HasTask(s, i) || HasCall(s, i))
  {
    assert InPlace(s, c);
    NodeFacts(s, i);
  }

  lemma SchedulesTask(s: Dns, d: nat)
    requires d < |s.calls| && s.calls[d].stage.NeedSchedule?
    ensures var s1 := Step(s, ScheduleFirst(d)); HasTask(s1, s.calls[d].stage.node) && |s1.calls| == |s.calls|
    ensures var s1 := Step(s, ScheduleFirst(d));
            forall c :: 0 <= c < |s.calls| ==>
              s1.calls[c].stage == if c == d then InEntry(s.calls[d].stage.node) else s.calls[c].stage
  {
    var s1 := Step(s, ScheduleFirst(d));
    assert Active(s1.tasks[|s.tasks|]) && s1.tasks[|s.tasks|].node == s.calls[d].stage.node;
  }

  lemma FromSchedule(s: Dns, c: nat, d: nat) returns (ls: seq<Label>, t: nat)
    requires Inv(s) && c < |s.calls| && d < |s.calls| && s.calls[d].stage.NeedSchedule?
    requires s.calls[c].stage == InEntry(s.calls[d].stage.node) || c == d
    ensures Brings(s, ls, c, d, t, |s.calls| + 6)
  {
    hide Inv, Brings, HasTask;
    var l := ScheduleFirst(d);
    SchedulesTask(s, d);
    StepKeeps(s, l);
    hide Step;
    ls, t := FromEntry(Step(s, l), c, d);
    ThenBrings(s, l, ls, c, d, t, |s.calls| + 5);
    ls := [l] + ls;
  }

  lemma FromHeld(s: Dns, c: nat) returns (ls: seq<Label>, d: nat, t: nat)
    requires Inv(s) && c < |s.calls| && (s.calls[c].stage.InEntry? || s.calls[c].stage.NeedSchedule?)
    ensures Brings(s, ls, c, d, t, |s.calls| + 6)
    ensures d == c || (d < |s.calls| && s.calls[d].stage.NeedSchedule? && s.calls[d].stage.node == s.calls[c].stage.node)
  {
    var i := s.calls[c].stage.node;
    Waited(s, c, i);
    hide Inv, Brings;
    d := c;
    if s.calls[c].stage.NeedSchedule? {
      ls, t := FromSchedule(s, c, c);
    } else if HasTask(s, i) {
      ls, t := FromEntry(s, c, c);
      Longer(s, ls, c, d, t, |s.calls| + 5, |s.calls| + 6);
    } else {
      d :| 0 <= d < |s.calls| && s.calls[d].stage == NeedSchedule(i);
      ls, t := FromSchedule(s, c, d);
    }
  }

  lemma FromServing(s: Dns, c: nat, d: nat, t: nat) returns (ls: seq<Label>)
    requires c < |s.calls| && s.calls[c].stage.Serving?
    ensures Brings(s, ls, c, d, t, 1)
  {
    assert DeliveredBy(Step(s, Invoke(c)), c, t);
    hide Step;
    ThenBrings(s, Invoke(c), [], c, d, t, 0);
    ls := [Invoke(c)] + [];
  }

  lemma EnterGoesOn(s: Dns, c: nat)
    requires Inv(s) && c < |s.calls| && s.calls[c].stage.Sampled?
    ensures var s1 := Step(s, Enter(c));
            && |s1.calls| == |s.calls| && (forall x :: 0 <= x < |s.calls| && x != c ==> s1.calls[x] == s.calls[x])
            && (s1.calls[c].stage.Serving? || s1.calls[c].stage.InEntry? || s1.calls[c].stage.NeedSchedule?)
  {
    hide OwnInv, PlaceInv, DataInv;
  }

  lemma FromCaller(s: Dns, c: nat) returns (ls: seq<Label>, d: nat, t: nat)
    requires Inv(s) && c < |s.calls| && s.calls[c].stage.Sampled?
    ensures Brings(s, ls, c, d, t, |s.calls| + 7)
    ensures d == c || (d < |s.calls| && s.calls[d].stage.NeedSchedule?)
  {
    hide Inv, Brings;
    var l := Enter(c);
    var s1 := Step(s, l);
    EnterGoesOn(s, c);
    StepKeeps(s, l);
    hide Step;
    d, t := c, 0;
    if s1.calls[c].stage.Serving? {
      ls := FromServing(s1, c, d, t);
      Longer(s1, ls, c, d, t, 1, |s.calls| + 6);
    } else {
      ls, d, t := FromHeld(s1, c);
    }
    ThenBrings(s, l, ls, c, d, t, |s.calls| + 6);
    ls := [l] + ls;
  }

  /** From wherever a run has led, every issued callback is only a bounded number of steps away from being
      invoked: steps of its own call, of one task, which then is the one that runs its entry, of the
      clock, and the step of a call that is about to schedule an entry.  Nobody else has to do anything,
      so no callback is ever stuck. */
  lemma NeverLost(opt: Options, clock: int, ls: seq<Label>, c: nat)
    requires Sane(opt, clock) && c < |Reached(opt, clock, ls).calls|
    ensures var s := Reached(opt, clock, ls);
            if s.calls[c].stage.Delivered? then s.calls[c].stage.d < |s.delivered| && s.delivered[s.calls[c].stage.d].cb == c
            else Near(s, c, |s.calls| + 7)
  {
    hide Inv, Near, Run;
    var s := Reached(opt, clock, ls);
    RunKeeps(opt, clock, ls);
    if s.calls[c].stage.Delivered? { DeliveredOnce(s, c); } else { IsNear(s, c); }
  }

  lemma DeliveredOnce(s: Dns, c: nat)
    requires Inv(s) && c < |s.calls| && s.calls[c].stage.Delivered?
    ensures s.calls[c].stage.d < |s.delivered| && s.delivered[s.calls[c].stage.d].cb == c
  {
    hide IndexInv, OwnInv, DataInv;
    assert InPlace(s, c);
  }

  lemma IsNear(s: Dns, c: nat)
    requires Inv(s) && c < |s.calls| && !s.calls[c].stage.Delivered?
    ensures Near(s, c, |s.calls| + 7)
  {
    hide Inv, Brings;
    var more: seq<Label>, d: nat, t: nat := [], c, 0;
    var stage := s.calls[c].stage;
    if stage.Sampled? {
      more, d, t := FromCaller(s, c);
    } else if stage.Serving? {
      more := FromServing(s, c, d, t);
      Longer(s, more, c, d, t, 1, |s.calls| + 7);
    } else if stage.InBatch? {
      t := stage.task;
      more := FromDelivering(s, c, d, t);
    } else {
      more, d, t := FromHeld(s, c);
      Longer(s, more, c, d, t, |s.calls| + 6, |s.calls| + 7);
    }
    assert MayHelp(s, c, d);
  }

  lemma FromDelivering(s: Dns, c: nat, d: nat, t: nat) returns (ls: seq<Label>)
    requires Inv(s) && c < |s.calls| && s.calls[c].stage == InBatch(t)
    ensures Brings(s, ls, c, d, t, |s.calls| + 7)
  {
    hide IndexInv, OwnInv, DataInv, Brings;
    assert InPlace(s, c);
    var k: nat :| k < |s.tasks[t].pc.cbs| && s.tasks[t].pc.cbs[k] == c;
    BatchFits(s, t);
    hide Inv, PlaceInv;
    ls := FromBatch(s, t, k, d);
    Longer(s, ls, c, d, t, k + 1, |s.calls| + 7);
  }

  lemma BatchFits(s: Dns, t: nat)
    requires PlaceInv(s) && t < |s.tasks| && s.tasks[t].pc.Delivering?
    ensures |s.tasks[t].pc.cbs| <= |s.calls|
  {
    var cbs, all := s.tasks[t].pc.cbs, seq(|s.calls|, c => c);
    forall c | c in cbs ensures c in all {
      var k :| 0 <= k < |cbs| && cbs[k] == c;
      assert all[c] == c;
    }
    Pigeonhole(cbs, all);
  }

  // ---------------------------------------------------------------------------------------------
  // Entries and their tasks

  /** No task ever uses the iterator of an erased entry.  An entry in the cache has one task, or a
      call that is about to schedule its first; so getaddrinfo is never under way twice for a key. */
  lemma OneOwner(opt: Options, clock: int, ls: seq<Label>)
    requires Sane(opt, clock)
    ensures var s := Reached(opt, clock, ls);
            && !s.failed
            && (forall t :: 0 <= t < |s.tasks| && Active(s.tasks[t]) ==> Valid(s, t))
            && (forall k :: k in s.index ==> s.index[k] < |s.nodes| && (HasTask(s, s.index[k]) || HasCall(s, s.index[k])))
            && (forall t, u | 0 <= t < |s.tasks| && 0 <= u < |s.tasks| && Active(s.tasks[t]) && Active(s.tasks[u]) ::
                  s.nodes[s.tasks[t].node].key == s.nodes[s.tasks[u].node].key ==> t == u)
  {
    var s := Reached(opt, clock, ls);
    RunKeeps(opt, clock, ls);
    forall t, u | 0 <= t < |s.tasks| && 0 <= u < |s.tasks| && Active(s.tasks[t]) && Active(s.tasks[u])
      ensures s.nodes[s.tasks[t].node].key == s.nodes[s.tasks[u].node].key ==> t == u
    {
      assert Valid(s, t) && Valid(s, u);
    }
  }

  // ---------------------------------------------------------------------------------------------
  // Refreshing ends

  /** The lookups started since an entry's last use number at most ceil(duration / period), and at
      most one run since then has neither looked up nor erased the entry. */
  lemma RefreshIsBounded(opt: Options, clock: int, ls: seq<Label>, i: nat)
    requires Sane(opt, clock) && i < |Reached(opt, clock, ls).nodes|
    ensures var n := Reached(opt, clock, ls).nodes[i];
            n.lookups * opt.period < opt.duration + opt.period && n.idleRuns <= 1
  {
    RunKeeps(opt, clock, ls);
    hide OwnInv, PlaceInv, IndexInv, DataInv, NodeOk, Run;
    NodeFacts(Reached(opt, clock, ls), i);
    LookupsBounded(opt, Reached(opt, clock, ls).clock, Reached(opt, clock, ls).nodes[i]);
  }

  lemma LookupsBounded(opt: Options, clock: int, n: Node)
    requires NodeOk(opt, clock, n) && opt.period > 0 && opt.duration > 0
    ensures n.lookups * opt.period < opt.duration + opt.period && n.idleRuns <= 1
  {
    assert n.lookups * opt.period == (n.lookups - 1) * opt.period + opt.period;
  }

  /** A run of an entry with nobody waiting erases it, or is counted among its lookups and idle runs,
      which are bounded; DnsLifetime.ErasedInTime is what follows. */
  lemma EveryRunCounts(opt: Options, clock: int, ls: seq<Label>, t: nat)
    requires Sane(opt, clock)
    requires var s := Reached(opt, clock, ls); t < |s.tasks| && s.tasks[t].pc.Started?
    requires var s := Reached(opt, clock, ls); s.tasks[t].node < |s.nodes| && s.nodes[s.tasks[t].node].callbacks == []
    ensures var s := Reached(opt, clock, ls);
            var i := s.tasks[t].node;
            var s' := Step(s, Check(t));
            i < |s'.nodes| &&
            var n, n' := s.nodes[i], s'.nodes[i];
            if s.tasks[t].pc.now >= n.usedAt + opt.duration
            then n.key !in s'.index && !n'.alive && !HasTask(s', i)
            else n'.alive && n.key in s'.index && n'.lookups + n'.idleRuns == n.lookups + n.idleRuns + 1
  {
    RunKeeps(opt, clock, ls);
    hide Inv, Run, Step, HasTask;
    RunCounts(Reached(opt, clock, ls), t);
  }

  lemma RunCounts(s: Dns, t: nat)
    requires Inv(s) && t < |s.tasks| && s.tasks[t].pc.Started? && s.tasks[t].node < |s.nodes|
    requires s.nodes[s.tasks[t].node].callbacks == []
    ensures var i := s.tasks[t].node;
            var s' := Step(s, Check(t));
            i < |s'.nodes| &&
            var n, n' := s.nodes[i], s'.nodes[i];
            if s.tasks[t].pc.now >= n.usedAt + s.opt.duration
            then n.key !in s'.index && !n'.alive && !HasTask(s', i)
            else n'.alive && n.key in s'.index && n'.lookups + n'.idleRuns == n.lookups + n.idleRuns + 1
  {
    hide OwnInv, PlaceInv, DataInv, IndexInv, NodeOk, TaskOk;
    TaskFacts(s, t);
    IndexOfInv(s);
    CheckOutcome(s, t);
    StepKeeps(s, Check(t));
    hide Inv, Step;
    if !Step(s, Check(t)).nodes[s.tasks[t].node].alive { Ownerless(Step(s, Check(t)), s.tasks[t].node); }
  }

  lemma IndexOfInv(s: Dns)
    requires Inv(s)
    ensures IndexInv(s)
  {
    hide OwnInv, PlaceInv, DataInv;
  }

  lemma Ownerless(s: Dns, i: nat)
    requires Inv(s) && i < |s.nodes| && !s.nodes[i].alive
    ensures !HasTask(s, i)
  {
    hide PlaceInv, DataInv, IndexInv;
    assert forall u :: 0 <= u < |s.tasks| && Active(s.tasks[u]) ==> Valid(s, u);
  }

  lemma CheckOutcome(s: Dns, t: nat)
    requires IndexInv(s) && t < |s.tasks| && s.tasks[t].pc.Started? && Valid(s, t)
    requires s.nodes[s.tasks[t].node].callbacks == []
    ensures var i := s.tasks[t].node;
            var s' := Step(s, Check(t));
            |s'.nodes| == |s.nodes| &&
            var n, n' := s.nodes[i], s'.nodes[i];
            if s.tasks[t].pc.now >= n.usedAt + s.opt.duration
            then n.key !in s'.index && !n'.alive
            else n'.alive && n.key in s'.index && n'.lookups + n'.idleRuns == n.lookups + n.idleRuns + 1
  {
  }

  /** As long as an entry is in the cache, its next run comes at most a refresh period after its last
      lookup, and not later than when it may be erased. */
  lemma RefreshIsTimely(opt: Options, clock: int, ls: seq<Label>, t: nat)
    requires Sane(opt, clock)
    requires var s := Reached(opt, clock, ls);
             && t < |s.tasks| && s.tasks[t].pc.Scheduled? && s.tasks[t].node < |s.nodes|
             && !s.nodes[s.tasks[t].node].first
    ensures var s := Reached(opt, clock, ls);
            var n := s.nodes[s.tasks[t].node];
            s.tasks[t].pc.at <= n.resolvedAt + opt.period && s.tasks[t].pc.at <= n.usedAt + opt.duration
  {
    RunKeeps(opt, clock, ls);
    hide IndexInv, OwnInv, PlaceInv, DataInv, NodeOk, Run;
    TaskFacts(Reached(opt, clock, ls), t);
  }

  /** Nobody waits for a first lookup longer than it takes to get a thread: until the first run of an entry
      begins, its time has come. */
  lemma FirstRunIsDue(opt: Options, clock: int, ls: seq<Label>, t: nat)
    requires Sane(opt, clock)
    requires var s := Reached(opt, clock, ls);
             && t < |s.tasks| && s.tasks[t].pc.Scheduled? && s.tasks[t].node < |s.nodes|
             && s.nodes[s.tasks[t].node].callbacks != []
    ensures var s := Reached(opt, clock, ls); s.tasks[t].pc.at <= s.clock
  {
    RunKeeps(opt, clock, ls);
    hide IndexInv, OwnInv, PlaceInv, DataInv, Run;
    TaskFacts(Reached(opt, clock, ls), t);
  }

  // ---------------------------------------------------------------------------------------------
  // The first answer

  /** Every callback that a task has invoked was answered after that run's lookup. */
  predicate LookedUp(s: Dns) {
    forall d :: 0 <= d < |s.delivered| && s.delivered[d].byTask ==> s.delivered[d].ran.Some?
  }

  predicate ReadyInv(s: Dns) {
    && s.clock >= s.opt.period && LookedUp(s)
    && (forall t :: 0 <= t < |s.tasks| && s.tasks[t].pc.Started? ==> s.tasks[t].pc.now >= s.opt.period)
    && (forall t :: 0 <= t < |s.tasks| && s.tasks[t].pc.Delivering? ==> s.tasks[t].pc.ran.Some?)
  }

  lemma StepReady(s: Dns, l: Label)
    requires Inv(s) && ReadyInv(s)
    ensures ReadyInv(Step(s, l))
  {
    hide Inv, ReadyInv, Step;
    if l.Check? { CheckReady(s, l.t); } else if l.StoreResult? { StoreReady(s, l.t); } else { OthersReady(s, l); }
  }

  lemma OthersReady(s: Dns, l: Label)
    requires ReadyInv(s) && !l.Check? && !l.StoreResult?
    ensures ReadyInv(Step(s, l))
  {
    hide UseAll;
  }

  /** A first run finds that the entry, which has never been resolved, needs a lookup. */
  lemma CheckReady(s: Dns, t: nat)
    requires Inv(s) && ReadyInv(s)
    ensures ReadyInv(Step(s, Check(t)))
  {
    hide OwnInv, PlaceInv, DataInv, IndexInv, UseAll;
    if t < |s.tasks| && s.tasks[t].pc.Started? { TaskFacts(s, t); }
  }

  lemma StoreReady(s: Dns, t: nat)
    requires Inv(s) && ReadyInv(s)
    ensures ReadyInv(Step(s, StoreResult(t)))
  {
    hide OwnInv, PlaceInv, DataInv, IndexInv, UseAll, NodeOk;
    if t < |s.tasks| && s.tasks[t].pc.Resolved? { TaskFacts(s, t); }
  }

  lemma {:induction false} RunReady(opt: Options, clock: int, ls: seq<Label>)
    requires Sane(opt, clock) && clock >= opt.period
    ensures ReadyInv(Reached(opt, clock, ls))
    decreases |ls|
  {
    if ls != [] {
      RunReady(opt, clock, ls[..|ls| - 1]);
      RunKeeps(opt, clock, ls[..|ls| - 1]);
      StepReady(Reached(opt, clock, ls[..|ls| - 1]), ls[|ls| - 1]);
    }
  }

  /** The default time of the last lookup is the clock's epoch.  So the first run of an entry looks its
      key up, as it is meant to, in every run if and only if the clock starts a refresh period or more
      after its epoch; otherwise the first callback may be given null without any lookup. */
  lemma FirstAnswerLooksUp(opt: Options, clock: int)
    requires Sane(opt, clock)
    ensures (forall ls :: LookedUp(Reached(opt, clock, ls))) <==> clock >= opt.period
  {
    hide Reached, Sane;
    if clock >= opt.period {
      forall ls ensures LookedUp(Reached(opt, clock, ls)) { RunReady(opt, clock, ls); }
    } else {
      NullWithoutLookup(opt, clock);
      var ls :| NullUnasked(Reached(opt, clock, ls));
      assert !LookedUp(Reached(opt, clock, ls));
    }
  }

  /** A task has given a callback null in a run that looked nothing up. */
  predicate NullUnasked(s: Dns) {
    exists d :: 0 <= d < |s.delivered| && s.delivered[d].byTask && s.delivered[d].ran.None? && s.delivered[d].given == Null
  }

  lemma NullWithoutLookup(opt: Options, clock: int)
    requires Sane(opt, clock) && clock < opt.period
    ensures exists ls :: NullUnasked(Reached(opt, clock, ls))
  {
    var s0 := NewDns(opt, clock);
    var s2 := Step(Step(s0, Resolve("a:1")), Enter(0));
    var s4 := Step(Step(s2, ScheduleFirst(0)), Begin(0));
    var ls := [Check(0)] + ([DeliverOne(0)] + []);
    FirstCall(opt, clock);
    FirstTask(opt, clock);
    FirstRun(s4);
    hide Step, NullUnasked;
    RunCons(Step(s4, Check(0)), DeliverOne(0), []);
    RunCons(s4, Check(0), [DeliverOne(0)] + []);
    RunCons(Step(s2, ScheduleFirst(0)), Begin(0), ls);
    RunCons(s2, ScheduleFirst(0), [Begin(0)] + ls);
    RunCons(Step(s0, Resolve("a:1")), Enter(0), [ScheduleFirst(0)] + ([Begin(0)] + ls));
    RunCons(s0, Resolve("a:1"), [Enter(0)] + ([ScheduleFirst(0)] + ([Begin(0)] + ls)));
    assert NullUnasked(Reached(opt, clock, [Resolve("a:1")] + ([Enter(0)] + ([ScheduleFirst(0)] + ([Begin(0)] + ls)))));
  }

  function OneCall(opt: Options, clock: int, stage: Stage, tasks: seq<Task>): Dns {
    Dns(opt, clock, map["a:1" := 0], [NewNode("a:1", 0)], [Call("a:1", clock, stage)], tasks, [], {}, false)
  }

  lemma FirstCall(opt: Options, clock: int)
    ensures Step(Step(NewDns(opt, clock), Resolve("a:1")), Enter(0)) == OneCall(opt, clock, NeedSchedule(0), [])
  {
    var s1 := Step(NewDns(opt, clock), Resolve("a:1"));
    assert s1.calls == [Call("a:1", clock, Sampled)];
    var s2 := Step(s1, Enter(0));
    assert s2.calls == [Call("a:1", clock, NeedSchedule(0))];
  }

  lemma FirstTask(opt: Options, clock: int)
    ensures var s2 := OneCall(opt, clock, NeedSchedule(0), []);
            Step(Step(s2, ScheduleFirst(0)), Begin(0)) == OneCall(opt, clock, InEntry(0), [Task(0, Started(clock))])
  {
    var s2 := OneCall(opt, clock, NeedSchedule(0), []);
    var s3 := Step(s2, ScheduleFirst(0));
    assert s3 == OneCall(opt, clock, InEntry(0), [Task(0, Scheduled(clock))]);
  }

  lemma FirstRun(s: Dns)
    requires s.clock < s.opt.period && s == OneCall(s.opt, s.clock, InEntry(0), [Task(0, Started(s.clock))])
    ensures NullUnasked(Step(Step(s, Check(0)), DeliverOne(0)))
  {
    var s5 := Step(s, Check(0));
    assert s5.tasks[0].pc.Delivering? && s5.tasks[0].pc.cbs == [0] && s5.tasks[0].pc.ran == None;
    var s6 := Step(s5, DeliverOne(0));
    assert s6.delivered[0].byTask && s6.delivered[0].ran == None && s6.delivered[0].given == Null;
  }
}
