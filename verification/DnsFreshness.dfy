/** What lookups leave in the DNS cache: an entry keeps the addresses of its latest successful lookup. */
module DnsFreshness {
  import opened Common
  import opened DnsModel
  import opened DnsProofs
  import opened DnsTheorems
  import opened DnsAnswers

  /** What a lookup has returned, and when. */
  datatype Reply = Reply(ring: seq<string>, at: int)

  /** What ResolveSync has last returned to task t. */
  function LastReply(s0: Dns, ls: seq<Label>, t: nat): Option<Reply>
    decreases |ls|
  {
    if ls == [] then None else
    var k := |ls| - 1;
    var q := Run(s0, ls[..k]);
    if ls[k].Answer? && ls[k].t == t && t < |q.tasks| && q.tasks[t].pc.Resolving? then Some(Reply(ls[k].ring, q.clock))
    else LastReply(s0, ls[..k], t)
  }

  /** A task of entry i gets the mutex back after its lookup. */
  predicate Stores(s: Dns, l: Label, i: nat) {
    l.StoreResult? && l.t < |s.tasks| && s.tasks[l.t].pc.Resolved? && s.tasks[l.t].node == i
  }

  /** The latest successful lookup whose task has got the mutex back since. */
  function LatestFound(s0: Dns, ls: seq<Label>, i: nat): Option<Reply>
    decreases |ls|
  {
    if ls == [] then None else
    var k := |ls| - 1;
    var before := LatestFound(s0, ls[..k], i);
    if !Stores(Run(s0, ls[..k]), ls[k], i) then before else
    var r := LastReply(s0, ls[..k], ls[k].t);
    if r.Some? && r.value.ring != [] then r else before
  }

  /** The entry stands on that lookup's ring, obtained at that time, or has no address. */
  predicate Holds(n: Node, found: Option<Reply>) {
    match found
    case None => n.addr == Null
    case Some(r) => n.addr.At? && n.addr.ring == r.ring && n.succAt == r.at
  }

  predicate SameAddr(n: Node, n': Node) {
    n'.key == n.key && n'.resolvedAt == n.resolvedAt && n'.addr.At? == n.addr.At? && (n.addr.At? ==> n'.addr.ring == n.addr.ring && n'.succAt == n.succAt)
  }

  // ---------------------------------------------------------------------------------------------
  // What a step does to the addresses

  lemma TailAddrs(s: Dns, t: nat, now: int, ran: Option<int>)
    requires t < |s.tasks| && s.tasks[t].node < |s.nodes|
    ensures var s' := Tail(s, t, now, ran);
            |s'.nodes| == |s.nodes| && forall i :: 0 <= i < |s.nodes| ==> SameAddr(s.nodes[i], s'.nodes[i])
  {
    var n := s.nodes[s.tasks[t].node];
    UseAllSame(n.(callbacks := [], first := false), n.callbacks, now);
    hide UseAll;
  }

  /** A lookup that fails leaves an address, and its age, as they were. */
  lemma StoreAddrs(s: Dns, t: nat)
    requires Valid(s, t) && s.tasks[t].pc.Resolved?
    ensures var s' := Step(s, StoreResult(t));
            var Resolved(ring, now) := s.tasks[t].pc;
            var i := s.tasks[t].node;
            && |s'.nodes| == |s.nodes| && (forall j :: 0 <= j < |s.nodes| && j != i ==> SameAddr(s.nodes[j], s'.nodes[j]))
            && s'.nodes[i].key == s.nodes[i].key && s'.nodes[i].resolvedAt == now
            && (if ring == [] then SameAddr(s.nodes[i].(resolvedAt := now), s'.nodes[i])
                else s'.nodes[i].addr.At? && s'.nodes[i].addr.ring == ring && s'.nodes[i].succAt == now)
  {
    hide Tail;
    var Resolved(ring, now) := s.tasks[t].pc;
    TailAddrs(s.(nodes := s.nodes[s.tasks[t].node := Store(s.nodes[s.tasks[t].node], ring, now)]), t, now, Some(now));
  }

  lemma CheckAddrs(s: Dns, t: nat)
    requires Valid(s, t) && s.tasks[t].pc.Started?
    ensures var s' := Step(s, Check(t));
            |s'.nodes| == |s.nodes| && forall i :: 0 <= i < |s.nodes| ==> SameAddr(s.nodes[i], s'.nodes[i])
  {
    hide Tail;
    var n := s.nodes[s.tasks[t].node];
    TailAddrs(s.(nodes := s.nodes[s.tasks[t].node := n.(idleRuns := n.idleRuns + 1)]), t, s.tasks[t].pc.now, None);
  }

  lemma OthersAddrs(s: Dns, l: Label)
    requires !l.StoreResult? && !l.Check?
    ensures var s' := Step(s, l);
            && |s.nodes| <= |s'.nodes| && (forall i :: 0 <= i < |s.nodes| ==> SameAddr(s.nodes[i], s'.nodes[i]))
            && (forall i :: |s.nodes| <= i < |s'.nodes| ==> s'.nodes[i].addr == Null && s'.nodes[i].resolvedAt == 0)
  {
  }

  lemma StepAddrs(s: Dns, l: Label)
    requires Inv(s)
    ensures var s' := Step(s, l);
            && |s.nodes| <= |s'.nodes|
            && (forall i: nat :: i < |s.nodes| && !Stores(s, l, i) ==> SameAddr(s.nodes[i], s'.nodes[i]))
            && (forall i :: |s.nodes| <= i < |s'.nodes| ==> s'.nodes[i].addr == Null && s'.nodes[i].resolvedAt == 0)
  {
    hide Inv, NodeOk, TaskOk, CheckSection, StoreSection, DeliverStep, ResolveSection, SameAddr;
    if l.StoreResult? {
      if l.t < |s.tasks| && s.tasks[l.t].pc.Resolved? { TaskFacts(s, l.t); StoreAddrs(s, l.t); } else { SelfAddrs(s); }
    } else if l.Check? {
      if l.t < |s.tasks| && s.tasks[l.t].pc.Started? { TaskFacts(s, l.t); CheckAddrs(s, l.t); } else { SelfAddrs(s); }
    } else {
      OthersAddrs(s, l);
    }
  }

  lemma SelfAddrs(s: Dns)
    ensures forall i :: 0 <= i < |s.nodes| ==> SameAddr(s.nodes[i], s.nodes[i])
  {
  }

  /** A task has a result only from the lookup that has just returned to it. */
  lemma StepResolved(s: Dns, l: Label, t: nat)
    ensures var s' := Step(s, l);
            t < |s'.tasks| && s'.tasks[t].pc.Resolved? ==>
              || (t < |s.tasks| && s.tasks[t].pc == s'.tasks[t].pc && !(l.Answer? && l.t == t && s.tasks[t].pc.Resolving?))
              || (t < |s.tasks| && s.tasks[t].pc.Resolving? && l.Answer? && l.t == t && s'.tasks[t].pc == Resolved(l.ring, s.clock))
  {
    hide UseAll, Next, Store;
  }

  // ---------------------------------------------------------------------------------------------
  // Over every run

  lemma {:induction false} RepliesKept(opt: Options, clock: int, ls: seq<Label>, t: nat)
    requires Sane(opt, clock)
    ensures var s := Reached(opt, clock, ls);
            t < |s.tasks| && s.tasks[t].pc.Resolved? ==>
              LastReply(NewDns(opt, clock), ls, t) == Some(Reply(s.tasks[t].pc.ring, s.tasks[t].pc.now))
    decreases |ls|
  {
    if ls != [] {
      var k := |ls| - 1;
      RepliesKept(opt, clock, ls[..k], t);
      StepResolved(Reached(opt, clock, ls[..k]), ls[k], t);
      hide Step;
    }
  }

  /** An entry has the addresses of the latest successful lookup that a task of its has completed, and
      that lookup's time: failures in between take neither away. */
  lemma {:induction false} KeepsLatest(opt: Options, clock: int, ls: seq<Label>, i: nat)
    requires Sane(opt, clock)
    ensures var s := Reached(opt, clock, ls);
            var found := LatestFound(NewDns(opt, clock), ls, i);
            if i < |s.nodes| then Holds(s.nodes[i], found) else found == None
    decreases |ls|
  {
    if ls != [] {
      var k := |ls| - 1;
      var s := Reached(opt, clock, ls[..k]);
      RunKeeps(opt, clock, ls[..k]);
      KeepsLatest(opt, clock, ls[..k], i);
      hide Inv, Step, LastReply;
      StepAddrs(s, ls[k]);
      if Stores(s, ls[k], i) {
        var t := ls[k].t;
        RepliesKept(opt, clock, ls[..k], t);
        ValidTask(s, t);
        StoreAddrs(s, t);
      }
    }
  }

  lemma ValidTask(s: Dns, t: nat)
    requires Inv(s) && t < |s.tasks| && Active(s.tasks[t])
    ensures Valid(s, t)
  {
    hide NodeOk, TaskOk;
    TaskFacts(s, t);
  }

  /** So a Resolve that answers itself gives an address if and only if the latest successful lookup of the
      entry is younger than the TTL, and then an address of that lookup; that the lookups since have
      failed does not matter. */
  lemma GivenUntilTtl(opt: Options, clock: int, ls: seq<Label>, c: nat)
    requires Sane(opt, clock)
    requires var s := Reached(opt, clock, ls);
             && c < |s.calls| && s.calls[c].stage.Sampled? && s.calls[c].key in s.index
             && s.index[s.calls[c].key] < |s.nodes| && s.nodes[s.index[s.calls[c].key]].callbacks == []
    ensures var s := Reached(opt, clock, ls);
            var s' := Step(s, Enter(c));
            var i := s.index[s.calls[c].key];
            var found := LatestFound(NewDns(opt, clock), ls, i);
            && c < |s'.calls| && s'.calls[c].stage.Serving? && s'.calls[c].stage.node == i && s.nodes[i].key == s.calls[c].key
            && (s'.calls[c].stage.given.At? <==> found.Some? && s.calls[c].now < found.value.at + opt.ttl)
            && (s'.calls[c].stage.given.At? ==> s'.calls[c].stage.given.ring == found.value.ring)
  {
    var s := Reached(opt, clock, ls);
    RunKeeps(opt, clock, ls);
    KeepsLatest(opt, clock, ls, s.index[s.calls[c].key]);
    IndexedKey(s, s.calls[c].key);
    hide Inv, LatestFound, Run;
  }

  lemma IndexedKey(s: Dns, key: string)
    requires Inv(s) && key in s.index
    ensures s.index[key] < |s.nodes| && s.nodes[s.index[key]].key == key
  {
    hide OwnInv, PlaceInv, DataInv;
  }

  // ---------------------------------------------------------------------------------------------
  // Entries are looked up again

  /** The latest lookup, successful or not, whose task has got the mutex back since. */
  function LatestLookup(s0: Dns, ls: seq<Label>, i: nat): Option<Reply>
    decreases |ls|
  {
    if ls == [] then None else
    var k := |ls| - 1;
    if !Stores(Run(s0, ls[..k]), ls[k], i) then LatestLookup(s0, ls[..k], i)
    else LastReply(s0, ls[..k], ls[k].t)
  }

  lemma {:induction false} KnowsLatest(opt: Options, clock: int, ls: seq<Label>, i: nat)
    requires Sane(opt, clock)
    ensures var s := Reached(opt, clock, ls);
            var latest := LatestLookup(NewDns(opt, clock), ls, i);
            if i < |s.nodes| then s.nodes[i].resolvedAt == (if latest.Some? then latest.value.at else 0) else latest == None
    decreases |ls|
  {
    if ls != [] {
      var k := |ls| - 1;
      var s := Reached(opt, clock, ls[..k]);
      RunKeeps(opt, clock, ls[..k]);
      KnowsLatest(opt, clock, ls[..k], i);
      hide Inv, Step, LastReply;
      StepAddrs(s, ls[k]);
      if Stores(s, ls[k], i) {
        var t := ls[k].t;
        RepliesKept(opt, clock, ls[..k], t);
        ValidTask(s, t);
        StoreAddrs(s, t);
      }
    }
  }

  /** An entry is kept fresh: a run either erases it, or looks it up, or comes less than a refresh period
      after the entry's latest lookup, be that one of the clock's epoch. */
  lemma KeepsLooking(opt: Options, clock: int, ls: seq<Label>, t: nat)
    requires Sane(opt, clock)
    requires var s := Reached(opt, clock, ls); t < |s.tasks| && s.tasks[t].pc.Started?
    ensures var s := Reached(opt, clock, ls);
            var s' := Step(s, Check(t));
            var i := s.tasks[t].node;
            var latest := LatestLookup(NewDns(opt, clock), ls, i);
            && i < |s'.nodes| && t < |s'.tasks|
            && (!s'.nodes[i].alive || s'.tasks[t].pc.Resolving?
                || s.tasks[t].pc.now < (if latest.Some? then latest.value.at else 0) + opt.period)
  {
    var s := Reached(opt, clock, ls);
    RunKeeps(opt, clock, ls);
    KnowsLatest(opt, clock, ls, s.tasks[t].node);
    hide Inv, LatestLookup, Run, Step;
    ValidTask(s, t);
    CheckLooks(s, t);
  }

  lemma CheckLooks(s: Dns, t: nat)
    requires Valid(s, t) && s.tasks[t].pc.Started?
    ensures var s' := Step(s, Check(t));
            var i := s.tasks[t].node;
            && i < |s'.nodes| && t < |s'.tasks|
            && (!s'.nodes[i].alive || s'.tasks[t].pc.Resolving? || s.tasks[t].pc.now < s.nodes[i].resolvedAt + s.opt.period)
  {
    hide UseAll;
  }

  // ---------------------------------------------------------------------------------------------
  // Who has come first is served first

  /** In this step call c joins the callbacks that wait in entry i. */
  predicate Joins(s: Dns, l: Label, i: nat) {
    && l.Enter? && l.c < |s.calls| && s.calls[l.c].stage.Sampled?
    && var s' := Step(s, l);
       l.c < |s'.calls| && (s'.calls[l.c].stage == NeedSchedule(i) || s'.calls[l.c].stage == InEntry(i))
  }

  /** The calls that have joined those waiting in entry i, in the order in which they got the mutex. */
  function Joined(s0: Dns, ls: seq<Label>, i: nat): seq<nat>
    decreases |ls|
  {
    if ls == [] then [] else
    var k := |ls| - 1;
    Joined(s0, ls[..k], i) + if Joins(Run(s0, ls[..k]), ls[k], i) then [ls[k].c] else []
  }

  /** The callbacks that wait in an entry are in the order of their arrival; with FirstBatch, that is the
      order in which its task serves them. */
  lemma {:induction false} WaitInOrder(opt: Options, clock: int, ls: seq<Label>, i: nat)
    requires Sane(opt, clock)
    ensures var s := Reached(opt, clock, ls);
            if i < |s.nodes| then s.nodes[i].callbacks != [] ==> s.nodes[i].callbacks == Joined(NewDns(opt, clock), ls, i)
            else Joined(NewDns(opt, clock), ls, i) == []
    decreases |ls|
  {
    if ls != [] {
      var k := |ls| - 1;
      var s := Reached(opt, clock, ls[..k]);
      RunKeeps(opt, clock, ls[..k]);
      WaitInOrder(opt, clock, ls[..k], i);
      hide Inv, Step, Joins;
      StepWaiting(s, ls[k], i);
    }
  }

  /** What a step does to the callbacks that wait in entry i. */
  predicate Waits(s: Dns, l: Label, i: nat) {
    var s' := Step(s, l);
    && |s.nodes| <= |s'.nodes|
    && (if i < |s.nodes| then
          s'.nodes[i].callbacks == [] || s'.nodes[i].callbacks == s.nodes[i].callbacks + if Joins(s, l, i) then [l.c] else []
        else if i < |s'.nodes| then Joins(s, l, i) && s'.nodes[i].callbacks == [l.c]
        else !Joins(s, l, i))
    && (i < |s.nodes| && s.nodes[i].callbacks == [] ==> s'.nodes[i].callbacks == [])
  }

  lemma StepWaiting(s: Dns, l: Label, i: nat)
    requires Inv(s)
    ensures Waits(s, l, i)
  {
    hide Inv, NodeOk, TaskOk, Waits;
    match l
    case Enter(c) => EnterWaits(s, c, i);
    case StoreResult(t) => if t < |s.tasks| && s.tasks[t].pc.Resolved? { TaskFacts(s, t); } TaskWaits(s, l, i);
    case Check(t) => if t < |s.tasks| && s.tasks[t].pc.Started? { TaskFacts(s, t); } TaskWaits(s, l, i);
    case _ => OthersWait(s, l, i);
  }

  lemma EnterWaits(s: Dns, c: nat, i: nat)
    requires Inv(s)
    ensures Waits(s, Enter(c), i)
  {
    hide Inv, Waits;
    if c < |s.calls| && s.calls[c].key in s.index { IndexedKey(s, s.calls[c].key); }
    SectionWaits(s, c, i);
  }

  lemma SectionWaits(s: Dns, c: nat, i: nat)
    requires c < |s.calls| && s.calls[c].key in s.index ==> s.index[s.calls[c].key] < |s.nodes|
    ensures Waits(s, Enter(c), i)
  {
  }

  lemma {:induction false} UseAllWaits(n: Node, cbs: seq<nat>, now: int)
    ensures UseAll(n, cbs, now).callbacks == n.callbacks
    decreases |cbs|
  {
    if cbs != [] { UseAllWaits(n, cbs[..|cbs| - 1], now); }
  }

  lemma TaskWaits(s: Dns, l: Label, i: nat)
    requires l.StoreResult? || l.Check?
    requires (l.StoreResult? && l.t < |s.tasks| && s.tasks[l.t].pc.Resolved?) || (l.Check? && l.t < |s.tasks| && s.tasks[l.t].pc.Started?) ==> Valid(s, l.t)
    ensures Waits(s, l, i)
  {
    forall n: Node, cbs, now ensures UseAll(n, cbs, now).callbacks == n.callbacks { UseAllWaits(n, cbs, now); }
    hide UseAll, Next;
  }

  lemma OthersWait(s: Dns, l: Label, i: nat)
    requires !l.StoreResult? && !l.Check? && !l.Enter?
    ensures Waits(s, l, i)
  {
  }
}
