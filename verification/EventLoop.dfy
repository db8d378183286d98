/** The event loop, its handlers, and the intrusive list they form in memory. */
module EventLoop {
  import opened Common
  import M = EventLoopModel
  import P = EventLoopProofs
  import T = EventLoopTheorems

  // ---------------------------------------------------------------------------------------------
  // EventHandler and its base, Node (src/event_loop.h:31-69, src/list.h:22-32)

  class EventHandler {
    var prev: EventHandler?
    var next: EventHandler?
    var deadline: int
    var registered: bool  // event_loop_ is set
    var refCount: int
    // What the program does not keep: whether it has been deleted, and the references that clients hold
    var freed: bool
    var owned: nat

    ghost predicate Shows(x: M.Handler)
      reads this`deadline, this`registered, this`refCount, this`freed, this`owned
    {
      && deadline == x.deadline && registered == x.registered && refCount == x.refs
      && freed == x.freed && owned == x.owned
    }

    predicate Unlinked()
      reads this`prev, this`next
    {
      prev == null && next == null
    }

    constructor ()
      ensures Unlinked() && deadline == 0 && !registered && refCount == 0 && !freed && owned == 0
    {
      prev, next, deadline, registered, refCount, freed, owned := null, null, 0, false, 0, false, 0;
    }

    method IncRef()
      requires !freed && refCount >= 0
      modifies this`refCount
      ensures refCount == old(refCount) + 1
    {
      refCount := refCount + 1;
    }

    /** The destructor's CHECKs are the second precondition. */
    method DecRef()
      requires !freed && refCount > 0 && (refCount == 1 ==> !registered)
      modifies this`refCount, this`freed
      ensures refCount == old(refCount) - 1 && (freed <==> refCount == 0)
    {
      refCount := refCount - 1;
      if refCount == 0 {
        assert !registered;
        freed := true;
      }
    }
  }

  // ---------------------------------------------------------------------------------------------
  // List (src/list.cc)

  function Neighbour(nodes: seq<EventHandler>, i: int): EventHandler? {
    if 0 <= i < |nodes| then nodes[i] else null
  }

  /** `nodes` are linked in this order. */
  predicate Linked(nodes: seq<EventHandler>)
    reads nodes`prev, nodes`next
  {
    && (forall i :: 0 <= i < |nodes| ==> nodes[i].prev == Neighbour(nodes, i - 1))
    && (forall i :: 0 <= i < |nodes| ==> nodes[i].next == Neighbour(nodes, i + 1))
  }

  class List {
    var head: EventHandler?
    var tail: EventHandler?
    ghost var nodes: seq<EventHandler>

    ghost predicate Valid()
      reads this, nodes`prev, nodes`next
    {
      && NoDup(nodes) && Linked(nodes)
      && head == Neighbour(nodes, 0) && tail == Neighbour(nodes, |nodes| - 1)
    }

    constructor ()
      ensures Valid() && nodes == []
    {
      head, tail, nodes := null, null, [];
    }

    method AddTail(node: EventHandler)
      requires Valid() && node !in nodes && node.Unlinked()
      modifies this, node`prev, node`next, nodes`next
      ensures Valid() && nodes == old(nodes) + [node]
    {
      ghost var was := nodes;
      if tail != null {
        assert was[|was| - 1].next == null;
        assert head != null && tail.next == null;
        tail.next := node;
      } else {
        assert head == null;
        head := node;
      }
      node.prev := tail;
      node.next := null;
      tail := node;
      nodes := nodes + [node];
      forall j | 0 <= j < |was|
        ensures was[j].prev == Neighbour(was, j - 1)
        ensures was[j].next == if j == |was| - 1 then node else Neighbour(was, j + 1)
      {
        assert was[j] in was && was[j] != node;
      }
      LinkedMore(was, node);
    }

    method Erase(node: EventHandler, ghost k: nat)
      requires Valid() && k < |nodes| && nodes[k] == node
      modifies this, nodes`prev, nodes`next
      ensures Valid() && nodes == old(nodes[..k] + nodes[k + 1..]) && node.Unlinked()
    {
      hide Linked, NoDup, Neighbour;
      ghost var was := nodes;
      Unlink(node, k);
      nodes := was[..k] + was[k + 1..];
      DistinctLess(was, k);
      EndsLess(was, k);
      LinkedLess(was, k);
    }

    /** The pointers are changed; `nodes` is still the sequence before. */
    method Unlink(node: EventHandler, ghost k: nat)
      requires Valid() && k < |nodes| && nodes[k] == node
      modifies this`head, this`tail, nodes`prev, nodes`next
      ensures node.Unlinked()
      ensures forall j :: 0 <= j < |nodes| && j != k ==>
                nodes[j].prev == if j == k + 1 then Neighbour(nodes, k - 1) else Neighbour(nodes, j - 1)
      ensures forall j :: 0 <= j < |nodes| && j != k ==>
                nodes[j].next == if j == k - 1 then Neighbour(nodes, k + 1) else Neighbour(nodes, j + 1)
      ensures head == Neighbour(nodes, if k == 0 then 1 else 0)
      ensures tail == Neighbour(nodes, if k == |nodes| - 1 then k - 1 else |nodes| - 1)
    {
      hide Linked, NoDup, Neighbour, Valid;
      LinkFacts(node, k);
      var before, after := node.prev, node.next;
      LeavePrevious(node, k, before, after);
      LeaveNext(node, k, before, after);
    }

    lemma LinkFacts(node: EventHandler, k: nat)
      requires Valid() && k < |nodes| && nodes[k] == node
      ensures NoDup(nodes) && node.prev == Neighbour(nodes, k - 1) && node.next == Neighbour(nodes, k + 1)
      ensures forall j :: 0 <= j < |nodes| && j != k ==> nodes[j] != node && nodes[j].prev == Neighbour(nodes, j - 1)
      ensures tail == Neighbour(nodes, |nodes| - 1)
    {
    }

    /** The half of Erase that deals with the node before (src/list.cc:43-50). */
    method LeavePrevious(node: EventHandler, ghost k: nat, before: EventHandler?, after: EventHandler?)
      requires Valid() && k < |nodes| && nodes[k] == node
      requires before == node.prev == Neighbour(nodes, k - 1) && after == Neighbour(nodes, k + 1)
      modifies this`head, node`prev, nodes`next
      ensures node.prev == null && node.next == old(node.next)
      ensures forall j :: 0 <= j < |nodes| && j != k ==>
                nodes[j].next == if j == k - 1 then Neighbour(nodes, k + 1) else Neighbour(nodes, j + 1)
      ensures head == Neighbour(nodes, if k == 0 then 1 else 0)
    {
      assert k > 0 ==> nodes[k - 1].next == node;
      if before != null {
        assert head != node && before.next == node;
        before.next := after;
        node.prev := null;
      } else {
        assert head == node;
        head := after;
      }
    }

    /** The half that deals with the node after (src/list.cc:51-59). */
    method LeaveNext(node: EventHandler, ghost k: nat, before: EventHandler?, after: EventHandler?)
      requires NoDup(nodes) && k < |nodes| && nodes[k] == node && node.prev == null
      requires after == node.next == Neighbour(nodes, k + 1) && before == Neighbour(nodes, k - 1)
      requires forall j :: 0 <= j < |nodes| && j != k ==> nodes[j].prev == Neighbour(nodes, j - 1)
      requires tail == Neighbour(nodes, |nodes| - 1)
      modifies this`tail, node`next, nodes`prev
      ensures node.Unlinked()
      ensures forall j :: 0 <= j < |nodes| && j != k ==>
                nodes[j].prev == if j == k + 1 then Neighbour(nodes, k - 1) else Neighbour(nodes, j - 1)
      ensures tail == Neighbour(nodes, if k == |nodes| - 1 then k - 1 else |nodes| - 1)
    {
      assert k + 1 < |nodes| ==> nodes[k + 1].prev == node;
      if after != null {
        assert tail != node && after.prev == node;
        after.prev := before;
        node.next := null;
      } else {
        assert tail == node;
        tail := before;
      }
    }
  }

  lemma EndsLess(was: seq<EventHandler>, k: nat)
    requires k < |was|
    ensures var now := was[..k] + was[k + 1..];
            && Neighbour(now, 0) == Neighbour(was, if k == 0 then 1 else 0)
            && Neighbour(now, |now| - 1) == Neighbour(was, if k == |was| - 1 then k - 1 else |was| - 1)
  {
  }

  lemma DistinctLess(was: seq<EventHandler>, k: nat)
    requires NoDup(was) && k < |was|
    ensures NoDup(was[..k] + was[k + 1..])
  {
    var now := was[..k] + was[k + 1..];
    forall i | 0 <= i < |now| ensures now[i] == was[if i < k then i else i + 1] {}
  }

  lemma LinkedMore(was: seq<EventHandler>, node: EventHandler)
    requires node.prev == Neighbour(was, |was| - 1) && node.next == null
    requires forall j :: 0 <= j < |was| ==> was[j].prev == Neighbour(was, j - 1)
    requires forall j :: 0 <= j < |was| ==> was[j].next == if j == |was| - 1 then node else Neighbour(was, j + 1)
    ensures Linked(was + [node])
  {
  }

  /** Around the gap at k the neighbours point to each other. */
  lemma LinkedLess(was: seq<EventHandler>, k: nat)
    requires k < |was|
    requires forall j :: 0 <= j < |was| && j != k ==>
               was[j].prev == if j == k + 1 then Neighbour(was, k - 1) else Neighbour(was, j - 1)
    requires forall j :: 0 <= j < |was| && j != k ==>
               was[j].next == if j == k - 1 then Neighbour(was, k + 1) else Neighbour(was, j + 1)
    ensures Linked(was[..k] + was[k + 1..])
  {
    var now := was[..k] + was[k + 1..];
    forall i | 0 <= i < |now| ensures now[i] == was[if i < k then i else i + 1] {}
  }

  // ---------------------------------------------------------------------------------------------
  // What memory says of the model's state

  ghost predicate HandlersShow(handlers: seq<EventHandler>, hs: seq<M.Handler>)
    reads handlers`deadline, handlers`registered, handlers`refCount, handlers`freed, handlers`owned
  {
    |handlers| == |hs| && NoDup(handlers) && forall i :: 0 <= i < |hs| ==> handlers[i].Shows(hs[i])
  }

  predicate QueueShows(nodes: seq<EventHandler>, handlers: seq<EventHandler>, queue: seq<nat>) {
    |nodes| == |queue| && forall k :: 0 <= k < |queue| ==> queue[k] < |handlers| && nodes[k] == handlers[queue[k]]
  }

  predicate RestUnlinked(handlers: seq<EventHandler>, queue: seq<nat>)
    reads handlers`prev, handlers`next
  {
    forall i :: 0 <= i < |handlers| && i !in queue ==> handlers[i].Unlinked()
  }

  ghost predicate InterestShows(interest: map<EventHandler, int>, handlers: seq<EventHandler>, m: map<nat, int>) {
    && (forall i :: i in m ==> i < |handlers| && handlers[i] in interest && interest[handlers[i]] == m[i])
    && (forall i :: 0 <= i < |handlers| && handlers[i] in interest ==> i in m)
  }

  lemma NotInNodes(nodes: seq<EventHandler>, handlers: seq<EventHandler>, queue: seq<nat>, i: nat)
    requires QueueShows(nodes, handlers, queue) && NoDup(handlers) && i < |handlers|
    ensures handlers[i] in nodes <==> i in queue
  {
    if handlers[i] in nodes {
      var k :| 0 <= k < |nodes| && nodes[k] == handlers[i];
      assert queue[k] == i;
    }
    if i in queue {
      var k :| 0 <= k < |queue| && queue[k] == i;
      assert nodes[k] == handlers[i];
    }
  }

  lemma NodesAreHandlers(nodes: seq<EventHandler>, handlers: seq<EventHandler>, queue: seq<nat>)
    requires QueueShows(nodes, handlers, queue)
    ensures forall k :: 0 <= k < |nodes| ==> nodes[k] in handlers
  {
  }

  /** expire_ and the handlers in it. */
  ghost predicate ListShows(expire: List, handlers: seq<EventHandler>, queue: seq<nat>)
    reads expire, expire.nodes`prev, expire.nodes`next, handlers`prev, handlers`next
  {
    expire.Valid() && QueueShows(expire.nodes, handlers, queue) && RestUnlinked(handlers, queue)
  }

  class EventLoop {
    const timeout: int
    var clock: int                     // Clock::now()
    const expire: List
    var interest: map<EventHandler, int>  // epoll_, without the pipe
    var handlers: seq<EventHandler>    // every handler there has been
    ghost var st: M.Loop

    ghost predicate Mirror()
      reads this, expire, expire.nodes, handlers
    {
      && timeout == st.timeout && clock == st.clock && HandlersShow(handlers, st.hs)
      && InterestShows(interest, handlers, st.interest) && ListShows(expire, handlers, st.queue)
    }

    ghost predicate Is(h: nat, eh: EventHandler)
      reads this
    {
      h < |handlers| && handlers[h] == eh
    }

    constructor (timeout: int, clock: int)
      requires timeout > 0
      ensures Valid() && st == M.NewLoop(timeout, clock) && fresh(expire)
    {
      hide Linked, P.Inv, T.SweepInv;
      NewLoopValid(timeout, clock);
      this.timeout, this.clock := timeout, clock;
      expire := new List();
      interest, handlers, st := map[], [], M.NewLoop(timeout, clock);
    }

    /** AddTail, as it changes the queue. */
    method Enqueue(eh: EventHandler, ghost h: nat)
      requires NoDup(handlers) && ListShows(expire, handlers, st.queue) && Is(h, eh) && h !in st.queue
      modifies this`st, expire, handlers`prev, handlers`next
      ensures st == old(st).(queue := old(st.queue) + [h]) && ListShows(expire, handlers, st.queue)
    {
      hide Linked, Neighbour, NoDup, QueueShows, List.Valid;
      ghost var was, q := expire.nodes, st.queue;
      NotInNodes(was, handlers, q, h);
      NodesAreHandlers(was, handlers, q);
      Others(was, handlers, q, h);
      AppendShows(was, handlers, q, h);
      assert handlers[h] in handlers;
      expire.AddTail(eh);
      forall i | 0 <= i < |handlers| && i !in q + [h] ensures handlers[i].Unlinked() {
        assert handlers[i] !in was && handlers[i] != eh;
      }
      st := st.(queue := q + [h]);
    }

    lemma QueueNoDup()
      requires ListShows(expire, handlers, st.queue) && NoDup(handlers)
      ensures NoDup(st.queue)
    {
      QueueDistinct(expire.nodes, handlers, st.queue);
    }

    /** Erase, as it changes the queue. */
    method Dequeue(eh: EventHandler, ghost h: nat)
      requires NoDup(handlers) && ListShows(expire, handlers, st.queue) && Is(h, eh) && h in st.queue
      modifies this`st, expire, handlers`prev, handlers`next
      ensures st == old(st).(queue := M.Without(old(st.queue), h)) && ListShows(expire, handlers, st.queue)
    {
      hide Linked, Neighbour, NoDup, QueueShows, List.Valid, M.Without, NoDup;
      ghost var was, q, r := expire.nodes, st.queue, M.Without(st.queue, h);
      ghost var k: nat :| k < |q| && q[k] == h;
      QueueNoDup();
      NodesAreHandlers(was, handlers, q);
      RemoveShows(was, handlers, q, h, k);
      expire.Erase(eh, k);
      forall i | 0 <= i < |handlers| && i !in r ensures handlers[i].Unlinked() {
        if i != h { NotInNodes(was, handlers, q, i); }
      }
      st := st.(queue := r);
    }

    // -------------------------------------------------------------------------------------------
    // The operations (src/event_loop.cc:55-81, 130-140).  That the model's functions do not fail, and so
    // the CHECKs hold, follows from the invariant.

    /** Handler h's own fields change, and the model's with them. */
    method Grab(eh: EventHandler, ghost h: nat)
      requires Mirror() && Is(h, eh) && !st.failed && !M.IncRef(st, h).failed
      modifies this`st, eh`refCount
      ensures Mirror() && st == M.IncRef(old(st), h)
    {
      hide ListShows;
      assert eh.Shows(st.hs[h]);
      eh.IncRef();
      st := M.IncRef(st, h);
    }

    method Drop(eh: EventHandler, ghost h: nat)
      requires Mirror() && Is(h, eh) && !st.failed && !M.DecRef(st, h).failed
      modifies this`st, eh`refCount, eh`freed
      ensures Mirror() && st == M.DecRef(old(st), h)
    {
      hide ListShows;
      assert eh.Shows(st.hs[h]);
      eh.DecRef();
      st := M.DecRef(st, h);
    }

    /** Sets the deadline, and that the handler is registered. */
    method Arm(eh: EventHandler, ghost h: nat)
      requires Mirror() && Is(h, eh) && h < |st.hs|
      modifies this`st, eh`registered, eh`deadline
      ensures Mirror()
      ensures st == old(st).(hs := old(st.hs)[h := old(st.hs[h]).(registered := true, deadline := old(st.clock + st.timeout), touched := old(st.clock))])
    {
      hide ListShows;
      assert eh.Shows(st.hs[h]);
      eh.registered := true;
      eh.deadline := clock + timeout;
      st := st.(hs := st.hs[h := st.hs[h].(registered := true, deadline := st.clock + st.timeout, touched := st.clock)]);
    }

    method Disarm(eh: EventHandler, ghost h: nat)
      requires Mirror() && Is(h, eh) && h < |st.hs|
      modifies this`st, eh`registered
      ensures Mirror() && st == old(st).(hs := old(st.hs)[h := old(st.hs[h]).(registered := false)])
    {
      hide ListShows;
      assert eh.Shows(st.hs[h]);
      eh.registered := false;
      st := st.(hs := st.hs[h := st.hs[h].(registered := false)]);
    }

    /** epoll_.Add and epoll_.Modify. */
    method Watch(eh: EventHandler, mask: int, ghost h: nat)
      requires Mirror() && Is(h, eh)
      modifies this`st, this`interest
      ensures Mirror() && st == old(st).(interest := old(st.interest)[h := mask])
    {
      hide ListShows;
      interest := interest[eh := mask];
      st := st.(interest := st.interest[h := mask]);
    }

    /** epoll_.Remove. */
    method Unwatch(eh: EventHandler, ghost h: nat)
      requires Mirror() && Is(h, eh)
      modifies this`st, this`interest
      ensures Mirror() && st == old(st).(interest := old(st.interest) - {h})
    {
      hide ListShows;
      interest := interest - {eh};
      st := st.(interest := st.interest - {h});
    }

    method Add(eh: EventHandler, mask: int, ghost h: nat)
      requires Mirror() && P.Inv(st) && Is(h, eh) && P.Live(st, h) && !st.hs[h].registered
      modifies this`st, this`interest, expire, handlers
      ensures Mirror() && P.Inv(st) && st == M.Add(old(st), h, mask)
    {
      hide Mirror, P.Inv;
      P.AddKeeps(st, h, mask);
      ChecksHold(st, M.Add(st, h, mask));
      assert !eh.registered && eh !in interest by { NotRegistered(eh, h); }
      assert handlers[h] in handlers;
      Grab(eh, h);
      Arm(eh, h);
      Enlist(eh, h);
      Watch(eh, mask, h);
    }

    /** In a state that satisfies the invariant every CHECK has held. */
    lemma ChecksHold(s: M.Loop, s': M.Loop)
      requires P.Inv(s) && P.Inv(s')
      ensures !s.failed && !s'.failed
    {
    }

    lemma NotRegistered(eh: EventHandler, h: nat)
      requires Mirror() && Is(h, eh) && h < |st.hs| && !st.hs[h].registered && h !in st.interest
      ensures !eh.registered && eh !in interest
    {
      assert eh.Shows(st.hs[h]);
    }

    method Enlist(eh: EventHandler, ghost h: nat)
      requires Mirror() && Is(h, eh) && h !in st.queue
      modifies this`st, expire, handlers`prev, handlers`next
      ensures Mirror() && st == old(st).(queue := old(st.queue) + [h])
    {
      hide ListShows, InterestShows;
      Enqueue(eh, h);
    }

    method Delist(eh: EventHandler, ghost h: nat)
      requires Mirror() && Is(h, eh) && h in st.queue
      modifies this`st, expire, handlers`prev, handlers`next
      ensures Mirror() && st == old(st).(queue := M.Without(old(st.queue), h))
    {
      hide ListShows, InterestShows, M.Without;
      Dequeue(eh, h);
    }

    method Remove(eh: EventHandler, ghost h: nat)
      requires Mirror() && P.Inv(st) && Is(h, eh) && P.Live(st, h) && st.hs[h].registered
      modifies this`st, this`interest, expire, handlers
      ensures Mirror() && P.Inv(st) && st == M.Remove(old(st), h)
    {
      hide Mirror, P.Inv, M.Without;
      P.RemoveKeeps(st, h);
      ChecksHold(st, M.Remove(st, h));
      assert handlers[h] in handlers;
      Delist(eh, h);
      Unwatch(eh, h);
      Disarm(eh, h);
      Drop(eh, h);
    }

    method Modify(eh: EventHandler, mask: int, ghost h: nat)
      requires Mirror() && P.Inv(st) && Is(h, eh) && P.Live(st, h) && st.hs[h].registered
      modifies this`st, this`interest
      ensures Mirror() && P.Inv(st) && st == M.Modify(old(st), h, mask)
    {
      hide Mirror, P.Inv;
      P.ModifyKeeps(st, h, mask);
      ChecksHold(st, M.Modify(st, h, mask));
      Watch(eh, mask, h);
    }

    method Refresh(eh: EventHandler, ghost h: nat)
      requires Mirror() && P.Inv(st) && Is(h, eh) && P.Live(st, h) && st.hs[h].registered
      modifies this`st, expire, handlers
      ensures Mirror() && P.Inv(st) && st == M.Refresh(old(st), h)
    {
      hide P.Inv, ListShows, InterestShows, M.Without;
      P.RefreshKeeps(st, h);
      ChecksHold(st, M.Refresh(st, h));
      NotInWithout(h);
      assert handlers[h] in handlers;
      Rearm(eh, h);
      var tail := Tail();
      assert tail != null ==> eh.deadline >= tail.deadline;
      Delist(eh, h);
      Enlist(eh, h);
    }

    lemma NotInWithout(h: nat)
      requires Mirror() && h in st.queue
      ensures h !in M.Without(st.queue, h)
    {
      QueueNoDup();
      var k: nat :| k < |st.queue| && st.queue[k] == h;
      P.WithoutMembers(st.queue, h, k);
    }

    method Rearm(eh: EventHandler, ghost h: nat)
      requires Mirror() && Is(h, eh) && h < |st.hs|
      modifies this`st, eh`deadline
      ensures Mirror()
      ensures st == old(st).(hs := old(st.hs)[h := old(st.hs[h]).(deadline := old(st.clock + st.timeout), touched := old(st.clock))])
    {
      hide ListShows;
      assert eh.Shows(st.hs[h]);
      eh.deadline := clock + timeout;
      st := st.(hs := st.hs[h := st.hs[h].(deadline := st.clock + st.timeout, touched := st.clock)]);
    }

    method Tail() returns (tail: EventHandler?)
      requires Mirror()
      ensures if st.queue == [] then tail == null
              else var t := st.queue[|st.queue| - 1]; t < |handlers| && t < |st.hs| && tail == handlers[t] && tail.deadline == st.hs[t].deadline
    {
      tail := expire.tail;
    }

    // -------------------------------------------------------------------------------------------
    // The clients' code

    ghost predicate Valid()
      reads this, expire, expire.nodes, handlers
    {
      Mirror() && P.Inv(st) && T.SweepInv(st)
    }

    predicate Allowed(op: M.Op)
      reads this, handlers
    {
      && op.h < |handlers| && !handlers[op.h].freed
      && match op
         case DoAdd(h, _) => !handlers[h].registered
         case DoRemove(h) => handlers[h].registered
         case DoModify(h, _) => handlers[h].registered
         case DoRefresh(h) => handlers[h].registered
         case Hold(_) => true
         case Release(h) => handlers[h].owned > 0
    }

    lemma AllowedShows(op: M.Op)
      requires Mirror()
      ensures Allowed(op) == M.Allowed(st, op)
    {
      if op.h < |handlers| { assert handlers[op.h].Shows(st.hs[op.h]); }
    }

    method Own(eh: EventHandler, more: bool, ghost h: nat)
      requires Mirror() && Is(h, eh) && h < |st.hs| && (more || st.hs[h].owned > 0)
      modifies this`st, eh`owned
      ensures Mirror() && h < |old(st).hs| && st == M.Owning(old(st), h, if more then 1 else -1)
    {
      hide ListShows;
      assert eh.Shows(st.hs[h]);
      eh.owned := if more then eh.owned + 1 else eh.owned - 1;
      st := M.Owning(st, h, if more then 1 else -1);
    }

    method Do(op: M.Op)
      requires Mirror() && P.Inv(st) && M.Allowed(st, op)
      modifies this`st, this`interest, expire, handlers
      ensures Mirror() && P.Inv(st) && M.Allowed(old(st), op) && st == M.Do(old(st), op)
    {
      P.DoKeeps(st, op);
      hide P.Inv, ListShows, InterestShows, HandlersShow, M.Add, M.Remove, M.Modify, M.Refresh;
      ChecksHold(st, M.Do(st, op));
      SameCount();
      var eh := handlers[op.h];
      assert eh in handlers;
      match op
      case DoAdd(h, mask) => Add(eh, mask, h);
      case DoRemove(h) => Remove(eh, h);
      case DoModify(h, mask) => Modify(eh, mask, h);
      case DoRefresh(h) => Refresh(eh, h);
      case Hold(h) => Own(eh, true, h); Grab(eh, h);
      case Release(h) => Own(eh, false, h); Drop(eh, h);
    }

    lemma SameCount()
      requires Mirror()
      ensures |handlers| == |st.hs|
    {
    }

    /** A client makes a handler. */
    method Create() returns (eh: EventHandler)
      requires Valid()
      modifies this`handlers, this`st
      ensures Valid() && st == M.Step(old(st), M.Create) && fresh(eh) && handlers == old(handlers) + [eh]
    {
      hide P.Inv, T.SweepInv;
      CreateFacts(st);
      eh := Made();
    }

    method Made() returns (eh: EventHandler)
      requires Mirror() && |st.hs| !in st.queue && |st.hs| !in st.interest
      modifies this`handlers, this`st
      ensures Mirror() && st == M.Step(old(st), M.Create) && fresh(eh) && handlers == old(handlers) + [eh]
    {
      hide List.Valid, Linked, Neighbour;
      eh := new EventHandler();
      assert eh !in handlers;
      handlers := handlers + [eh];
      st := M.Step(st, M.Create);
    }

    /** The body of a handler or of a scheduled function: the operations of `ops` that may be called. */
    method RunClient(ops: seq<M.Op>, ghost s0: M.Loop, ghost before: seq<M.Label>) returns (ghost ls: seq<M.Label>)
      requires Valid() && M.InClient(st.pc) && st == M.Run(s0, before)
      modifies this`st, this`interest, expire, handlers
      ensures Valid() && st == M.Run(s0, ls) && At(st, old(st)) && ls == before + Clients(ops)
    {
      hide Mirror, P.Inv, T.SweepInv, M.Run, M.Step, M.Allowed;
      ls := before;
      var i := 0;
      while i != |ops|
        invariant 0 <= i <= |ops|
        invariant Valid() && st == M.Run(s0, ls) && At(st, old(st)) && ls == before + Clients(ops[..i])
      {
        AllowedShows(ops[i]);
        RunSnoc(s0, ls, M.Client(ops[i]));
        if Allowed(ops[i]) {
          ClientStep(st, ops[i]);
          Do(ops[i]);
        } else {
          NoStep(st, ops[i]);
        }
        ls := ls + [M.Client(ops[i])];
        assert ops[..i + 1][..i] == ops[..i];
        i := i + 1;
      }
      assert ops[..|ops|] == ops;
    }

    // -------------------------------------------------------------------------------------------
    // The batch of events (src/event_loop.cc:101-117)

    /** A move of the loop that changes nothing it keeps in memory. */
    ghost method Note(s: M.Loop)
      requires Mirror() && s == st.(pc := s.pc, batch := s.batch, fired := s.fired, waitedAt := s.waitedAt)
      modifies this`st
      ensures Mirror() && st == s
    {
      hide ListShows, InterestShows, HandlersShow;
      st := s;
    }

    /** Lines 101-106, after epoll_wait has taken dt and reported `evs`. */
    method Collect(dt: nat, evs: seq<M.Event>)
      requires Valid() && st.pc.Waiting? && M.Reportable(st, evs)
      modifies this`clock, this`st, handlers
      ensures Valid() && st == M.Wait(old(st), dt, evs)
    {
      hide ListShows, InterestShows, HandlersShow, P.Inv, T.SweepInv, M.IncRef, M.IncRefs;
      WaitFacts(st, dt, evs);
      ghost var s1 := st.(clock := st.clock + dt, waitedAt := st.clock);
      clock := clock + dt;
      st := s1;
      CollectAll(evs);
      Note(M.Wait(old(st), dt, evs));
    }

    method CollectAll(evs: seq<M.Event>)
      requires Mirror() && !st.failed
      requires forall i :: 0 <= i < |evs| && evs[i].On? ==> P.Live(st, evs[i].h) && st.hs[evs[i].h].refs >= 0
      modifies this`st, handlers
      ensures Mirror() && st == M.IncRefs(old(st), evs)
    {
      hide Mirror, M.IncRef, M.IncRefs;
      ghost var s1 := st;
      NoneCollected(s1);
      var i := 0;
      while i != |evs|
        invariant 0 <= i <= |evs|
        invariant Mirror() && st == M.IncRefs(s1, evs[..i])
      {
        OneMore(s1, evs, i);
        match evs[i] {
          case Pipe =>
          case On(h, _) =>
            SameCount();
            assert handlers[h] in handlers;
            Grab(handlers[h], h);
        }
        i := i + 1;
      }
      assert evs[..|evs|] == evs;
    }

    /** One turn of the loop of lines 107-117. */
    method HandleEvent(ev: M.Event, script: seq<M.Op>, ghost s0: M.Loop, ghost before: seq<M.Label>)
      returns (ghost ls: seq<M.Label>)
      requires Valid() && st == M.Run(s0, before) && st.pc.Dispatching? && st.batch != [] && st.batch[0] == ev
      modifies this`st, this`interest, expire, handlers
      ensures Valid() && st == M.Run(s0, ls) && st.pc.Dispatching? && st.batch == old(st.batch)[1..]
      ensures ls == before + Turn(old(st), script)
    {
      hide Mirror, P.Inv, T.SweepInv, M.Run, M.Step, M.DecRef, M.IncRef;
      DispatchFacts(st);
      RunSnoc(s0, before, M.Continue);
      ls := before + [M.Continue];
      match ev
      case Pipe =>
        Note(st.(pc := M.InFunc));
        ls := RunClient(script, s0, ls);
        ReturnFacts(st);
        RunSnoc(s0, ls, M.Returns);
        ls := ls + [M.Returns];
        Note(st.(pc := M.Dispatching, batch := st.batch[1..]));
      case On(h, _) =>
        SameCount();
        var eh := handlers[h];
        RegisteredShows(h);
        assert handlers[h] in handlers;
        if eh.registered {
          Note(st.(pc := M.InEvent(h)));
          ls := RunClient(script, s0, ls);
          ReturnFacts(st);
          RunSnoc(s0, ls, M.Returns);
          ls := ls + [M.Returns];
          Drop(eh, h);
          Note(st.(pc := M.Dispatching, batch := st.batch[1..]));
        } else {
          Drop(eh, h);
          Note(st.(batch := st.batch[1..]));
        }
    }

    lemma RegisteredShows(h: nat)
      requires Mirror() && h < |handlers|
      ensures h < |st.hs| && handlers[h].registered == st.hs[h].registered && handlers[h].deadline == st.hs[h].deadline
    {
      assert handlers[h].Shows(st.hs[h]);
    }

    /** Lines 101-117: the events are handled in their order, the handlers that are still registered when
        their turn comes do what their scripts say, and every reference that the batch takes is given
        back. */
    method RunBatch(dt: nat, evs: seq<M.Event>, scripts: seq<seq<M.Op>>) returns (ghost ls: seq<M.Label>)
      requires Valid() && st.pc.Waiting? && M.Reportable(st, evs) && |scripts| == |evs|
      modifies this`clock, this`st, this`interest, expire, handlers
      ensures Valid() && st == M.Run(old(st), ls) && st.pc == M.Sweeping(M.Sweep(st.clock, st.queue, []))
      ensures ls == BatchRun(old(st), dt, evs, scripts)
    {
      hide Mirror, P.Inv, T.SweepInv, M.Run, M.Wait;
      ghost var s0 := st;
      ls := [M.EpollWait(dt, evs)];
      RunOne(s0, M.EpollWait(dt, evs));
      WaitPc(st, dt, evs);
      Collect(dt, evs);
      var i := 0;
      while i != |evs|
        invariant 0 <= i <= |evs|
        invariant Valid() && st == M.Run(s0, ls) && st.pc.Dispatching? && st.batch == evs[i..]
        invariant ls + Turns(st, scripts[i..]) == BatchRun(s0, dt, evs, scripts)
      {
        ghost var s1, done := st, ls;
        ls := HandleEvent(evs[i], scripts[i], s0, ls);
        assert evs[i..][1..] == evs[i + 1..];
        NextTurn(s0, done, s1, scripts, i);
        i := i + 1;
      }
      BatchOver(st);
      RunSnoc(s0, ls, M.Continue);
      ls := ls + [M.Continue];
      Note(M.Step(st, M.Continue));
    }

    // -------------------------------------------------------------------------------------------
    // The pass over expired handlers (src/event_loop.cc:118-126)

    method Head() returns (head: EventHandler?)
      requires Mirror()
      ensures if st.queue == [] then head == null
              else var h := st.queue[0]; h < |handlers| && h < |st.hs| && head == handlers[h] && head.deadline == st.hs[h].deadline
    {
      head := expire.head;
      if st.queue != [] { RegisteredShows(st.queue[0]); }
    }

    method Advance(dt: nat)
      requires Mirror()
      modifies this`clock, this`st
      ensures Mirror() && st == M.Step(old(st), M.Tick(dt))
    {
      hide ListShows, InterestShows, HandlersShow;
      clock := clock + dt;
      st := st.(clock := st.clock + dt);
    }

    /** One turn of the loop, which takes dt. */
    method Visit(script: seq<M.Op>, dt: nat, ghost s0: M.Loop, ghost before: seq<M.Label>)
      returns (more: bool, ghost ls: seq<M.Label>)
      requires Valid() && st == M.Run(s0, before) && st.pc.Sweeping?
      modifies this`clock, this`st, this`interest, expire, handlers
      ensures Valid() && st == M.Run(s0, ls)
      ensures if more then Visited(old(st), st, dt) else st.pc.Waiting?
      ensures ls == before + if more then VisitLabels(script, dt) else [M.Continue]
    {
      hide Mirror, P.Inv, T.SweepInv, M.Run, M.Step, M.DecRef, M.IncRef, M.Refresh, Clients;
      ghost var sweep := st.pc.sweep;
      ExpireFacts(st);
      RunSnoc(s0, before, M.Continue);
      ls := before + [M.Continue];
      var eh := Head();
      MirrorClock();
      if eh == null || eh.deadline > clock {
        Note(st.(pc := M.Waiting));
        return false, ls;
      }
      ghost var h := st.queue[0];
      RegisteredShows(h);
      assert eh.registered && handlers[h] in handlers;
      Grab(eh, h);
      Note(M.Step(old(st), M.Continue));
      ls := RunClient(script, s0, ls);
      TickFacts(st, dt);
      Advance(dt);
      RunSnoc(s0, ls, M.Tick(dt));
      ls := ls + [M.Tick(dt)];
      EndVisit(eh, h, sweep.(visited := sweep.visited + [h]));
      RunSnoc(s0, ls, M.Returns);
      ls := ls + [M.Returns];
      more := true;
    }

    /** Lines 124-125. */
    method EndVisit(eh: EventHandler, ghost h: nat, ghost sweep: M.Sweep)
      requires Valid() && Is(h, eh) && st.pc == M.InTimeout(h, sweep)
      modifies this`st, expire, handlers
      ensures Valid() && st == M.Step(old(st), M.Returns)
      ensures st.pc == M.Sweeping(sweep) && st.clock == old(st.clock) && st.timeout == old(st.timeout)
    {
      hide Mirror, P.Inv, T.SweepInv, M.Step, M.DecRef, M.Refresh;
      EndFacts(st);
      RegisteredShows(h);
      assert handlers[h] in handlers;
      if eh.registered { Refresh(eh, h); }
      Drop(eh, h);
      Note(st.(pc := M.Sweeping(sweep)));
    }

    lemma MirrorClock()
      requires Mirror()
      ensures clock == st.clock && timeout == st.timeout
    {
    }

    /** Lines 118-126.  At the k-th visit the handler does `scripts(k)` and takes the time `takes(k)`; in
        all, the pass takes no more than `budget`, which is less than a timeout.  It comes to an end after
        n visits. */
    method RunSweep(scripts: nat -> seq<M.Op>, takes: nat -> nat, budget: nat) returns (ghost ls: seq<M.Label>, ghost n: nat)
      requires Valid() && st.pc == M.Sweeping(M.Sweep(st.clock, st.queue, [])) && budget < timeout
      modifies this`clock, this`st, this`interest, expire, handlers
      ensures Valid() && st == M.Run(old(st), ls) && st.pc.Waiting?
      ensures ls == Visits(scripts, takes, budget, n) + [M.Continue]
    {
      hide Mirror, P.Inv, T.SweepInv, M.Run, M.Step, Visits, VisitLabels, Left, Takes;
      ghost var s0, start, queue := st, st.clock, st.queue;
      MirrorClock();
      ls, n := [], 0;
      RunNone(s0);
      NoVisits(scripts, takes, budget);
      VisitsBounded(st);
      var left: nat, k: nat, more := budget, 0, true;
      while more
        invariant Valid() && st == M.Run(s0, ls)
        invariant if more then st.pc.Sweeping? && InTime(st, start, queue, left) else st.pc.Waiting?
        invariant more ==> k == n && left == Left(takes, budget, k)
        invariant ls == Visits(scripts, takes, budget, n) + if more then [] else [M.Continue]
        decreases more, if more && st.pc.Sweeping? then |queue| - |st.pc.sweep.visited| else 0
      {
        var dt: nat := if takes(k) < left then takes(k) else left;
        OneVisit(scripts, takes, budget, n, ls);
        more, ls := Visit(scripts(k), dt, s0, ls);
        left, k := left - dt, k + 1;
        if more { VisitsBounded(st); n := n + 1; }
      }
    }
  }

  /** All the operations of a script, in their order; one that is not allowed is a step that does nothing. */
  function Clients(ops: seq<M.Op>): seq<M.Label> {
    if ops == [] then [] else Clients(ops[..|ops| - 1]) + [M.Client(ops[|ops| - 1])]
  }

  /** One turn of the loop over the batch: the client's code runs if the loop calls it. */
  function Turn(s: M.Loop, script: seq<M.Op>): seq<M.Label> {
    [M.Continue] + if M.InClient(M.Step(s, M.Continue).pc) then Clients(script) + [M.Returns] else []
  }

  /** A turn for each script, and the end of the loop. */
  function Turns(s: M.Loop, scripts: seq<seq<M.Op>>): seq<M.Label>
    decreases |scripts|
  {
    if scripts == [] then [M.Continue]
    else Turn(s, scripts[0]) + Turns(M.Run(s, Turn(s, scripts[0])), scripts[1..])
  }

  function BatchRun(s: M.Loop, dt: nat, evs: seq<M.Event>, scripts: seq<seq<M.Op>>): seq<M.Label> {
    [M.EpollWait(dt, evs)] + Turns(M.Step(s, M.EpollWait(dt, evs)), scripts)
  }

  function VisitLabels(script: seq<M.Op>, dt: nat): seq<M.Label> {
    [M.Continue] + Clients(script) + [M.Tick(dt)] + [M.Returns]
  }

  function Left(takes: nat -> nat, budget: nat, k: nat): nat
  {
    if k == 0 then budget else
    var left := Left(takes, budget, k - 1);
    if takes(k - 1) < left then left - takes(k - 1) else 0
  }

  /** The time that the k-th visit takes. */
  function Takes(takes: nat -> nat, budget: nat, k: nat): nat
  {
    if takes(k) < Left(takes, budget, k) then takes(k) else Left(takes, budget, k)
  }

  /** The first n visits. */
  function Visits(scripts: nat -> seq<M.Op>, takes: nat -> nat, budget: nat, n: nat): seq<M.Label> {
    if n == 0 then []
    else Visits(scripts, takes, budget, n - 1) + VisitLabels(scripts(n - 1), Takes(takes, budget, n - 1))
  }

  lemma NoVisits(scripts: nat -> seq<M.Op>, takes: nat -> nat, budget: nat)
    ensures Visits(scripts, takes, budget, 0) == [] && Left(takes, budget, 0) == budget
  {
  }

  lemma OneVisit(scripts: nat -> seq<M.Op>, takes: nat -> nat, budget: nat, n: nat, ls: seq<M.Label>)
    requires ls == Visits(scripts, takes, budget, n) + []
    ensures var dt := Takes(takes, budget, n);
            && dt == (if takes(n) < Left(takes, budget, n) then takes(n) else Left(takes, budget, n))
            && Left(takes, budget, n + 1) == Left(takes, budget, n) - dt
            && ls + VisitLabels(scripts(n), dt) == Visits(scripts, takes, budget, n + 1) + []
            && ls + [M.Continue] == Visits(scripts, takes, budget, n) + [M.Continue]
  {
    hide VisitLabels;
  }

  lemma NoStep(s: M.Loop, op: M.Op)
    requires !M.Allowed(s, op)
    ensures M.Step(s, M.Client(op)) == s
  {
  }

  lemma NextTurn(s0: M.Loop, ls: seq<M.Label>, s: M.Loop, scripts: seq<seq<M.Op>>, i: nat)
    requires s == M.Run(s0, ls) && i < |scripts|
    ensures var ls' := ls + Turn(s, scripts[i]);
            ls' + Turns(M.Run(s0, ls'), scripts[i + 1..]) == ls + Turns(s, scripts[i..])
  {
    hide M.Run, Turn;
    RunBoth(s0, ls, Turn(s, scripts[i]));
    assert scripts[i..][1..] == scripts[i + 1..];
  }

  lemma {:induction false} RunBoth(s: M.Loop, ls: seq<M.Label>, more: seq<M.Label>)
    ensures M.Run(s, ls + more) == M.Run(M.Run(s, ls), more)
    decreases |more|
  {
    hide M.Step;
    if more == [] {
      assert ls + more == ls;
    } else {
      assert (ls + more)[..|ls + more| - 1] == ls + more[..|more| - 1];
      RunBoth(s, ls, more[..|more| - 1]);
    }
  }

  predicate Visited(s: M.Loop, s': M.Loop, dt: nat)
    requires s.pc.Sweeping?
  {
    && s'.pc.Sweeping? && s'.pc.sweep.start == s.pc.sweep.start && s'.pc.sweep.queue == s.pc.sweep.queue
    && |s'.pc.sweep.visited| == |s.pc.sweep.visited| + 1
    && s'.clock == s.clock + dt && s'.timeout == s.timeout
  }

  predicate InTime(s: M.Loop, start: int, queue: seq<nat>, left: nat)
    requires s.pc.Sweeping?
  {
    && s.pc.sweep.start == start && s.pc.sweep.queue == queue && s.clock + left < start + s.timeout
    && |s.pc.sweep.visited| <= |queue|
  }

  lemma VisitsBounded(s: M.Loop)
    requires T.SweepInv(s) && s.pc.Sweeping? && s.clock < s.pc.sweep.start + s.timeout
    ensures |s.pc.sweep.visited| <= |s.pc.sweep.queue|
  {
    Pigeonhole(s.pc.sweep.visited, s.pc.sweep.queue);
  }

  lemma RunNone(s: M.Loop)
    ensures M.Run(s, []) == s
  {
  }

  lemma ExpireFacts(s: M.Loop)
    requires P.Inv(s) && T.SweepInv(s) && s.pc.Sweeping?
    ensures var s' := M.Step(s, M.Continue);
            && P.Inv(s') && T.SweepInv(s') && !s.failed
            && if s.queue == [] then s' == s.(pc := M.Waiting) else
               var h := s.queue[0];
               && h < |s.hs|
               && if s.hs[h].deadline > s.clock then s' == s.(pc := M.Waiting) else
                  var s1 := M.IncRef(s, h);
                  && s.hs[h].registered && !s1.failed && s'.pc == M.InTimeout(h, s.pc.sweep.(visited := s.pc.sweep.visited + [h]))
                  && s' == s1.(pc := s'.pc, fired := s'.fired, batch := s'.batch, waitedAt := s'.waitedAt)
                  && s'.clock == s.clock && s'.timeout == s.timeout
  {
    P.StepKeeps(s, M.Continue);
    T.StepSweep(s, M.Continue);
    if s.queue != [] { P.HeadIsLive(s); }
    hide P.Inv, T.SweepInv;
  }

  lemma TickFacts(s: M.Loop, dt: nat)
    requires P.Inv(s) && T.SweepInv(s)
    ensures var s' := M.Step(s, M.Tick(dt)); P.Inv(s') && T.SweepInv(s') && s' == s.(clock := s.clock + dt)
  {
    hide P.Inv, T.SweepInv;
    P.StepKeeps(s, M.Tick(dt));
    T.StepSweep(s, M.Tick(dt));
  }

  lemma EndFacts(s: M.Loop)
    requires P.Inv(s) && T.SweepInv(s) && s.pc.InTimeout?
    ensures var s' := M.Step(s, M.Returns);
            && P.Inv(s') && T.SweepInv(s') && !s.failed && P.Live(s, s.pc.h)
            && (s.hs[s.pc.h].registered ==> !M.Refresh(s, s.pc.h).failed)
            && var s1 := if s.hs[s.pc.h].registered then M.Refresh(s, s.pc.h) else s;
               && !s1.failed && !M.DecRef(s1, s.pc.h).failed
               && s' == M.DecRef(s1, s.pc.h).(pc := M.Sweeping(s.pc.sweep))
               && s'.clock == s.clock && s'.timeout == s.timeout
  {
    var h := s.pc.h;
    P.HeldIsLive(s, h);
    if s.hs[h].registered { P.RefreshKeeps(s, h); }
    T.ReturnKept(s);
    hide M.Refresh, P.RefInv, P.QueueInv, P.TimeInv, T.SweepInv;
    P.StepKeeps(s, M.Returns);
    T.StepSweep(s, M.Returns);
  }

  lemma WaitFacts(s: M.Loop, dt: nat, evs: seq<M.Event>)
    requires P.Inv(s) && s.pc.Waiting? && M.Reportable(s, evs)
    ensures !s.failed && forall i :: 0 <= i < |evs| && evs[i].On? ==> P.Live(s, evs[i].h) && s.hs[evs[i].h].refs >= 0
    ensures P.Inv(M.Wait(s, dt, evs)) && T.SweepInv(M.Wait(s, dt, evs))
    ensures var s1 := s.(clock := s.clock + dt, waitedAt := s.clock);
            M.Wait(s, dt, evs) == M.IncRefs(s1, evs).(batch := evs, pc := M.Dispatching)
  {
    hide P.RefInv, P.TimeInv, P.PcInv, NoDup, M.IncRefs;
    P.WaitKeeps(s, dt, evs);
    WaitPc(s, dt, evs);
    forall i | 0 <= i < |evs| && evs[i].On? ensures P.Live(s, evs[i].h) && s.hs[evs[i].h].refs >= 0 { P.RefOf(s, evs[i].h); }
  }

  lemma WaitPc(s: M.Loop, dt: nat, evs: seq<M.Event>)
    ensures M.Wait(s, dt, evs).pc == M.Dispatching && M.Wait(s, dt, evs).batch == evs
  {
  }

  lemma NoneCollected(s: M.Loop)
    ensures s == M.IncRefs(s, [])
  {
  }

  lemma OneMore(s: M.Loop, evs: seq<M.Event>, i: nat)
    requires i < |evs| && !s.failed
    requires forall i :: 0 <= i < |evs| && evs[i].On? ==> P.Live(s, evs[i].h) && s.hs[evs[i].h].refs >= 0
    ensures var s1 := M.IncRefs(s, evs[..i]);
            var s2 := M.IncRefs(s, evs[..i + 1]);
            && |s1.hs| == |s.hs| && !s1.failed
            && match evs[i]
               case Pipe => s2 == s1
               case On(h, _) => h < |s.hs| && s2 == M.IncRef(s1, h) && !s2.failed
  {
    P.IncRefsSpec(s, evs[..i]);
    P.IncRefsSpec(s, evs[..i + 1]);
    assert evs[..i + 1][..i] == evs[..i];
  }

  lemma DispatchFacts(s: M.Loop)
    requires P.Inv(s) && T.SweepInv(s) && s.pc.Dispatching? && s.batch != []
    ensures var s' := M.Step(s, M.Continue);
            && P.Inv(s') && T.SweepInv(s') && !s.failed
            && match s.batch[0]
               case Pipe => s' == s.(pc := M.InFunc)
               case On(h, _) =>
                 && h < |s.hs|
                 && (s.hs[h].registered ==> s' == s.(pc := M.InEvent(h)))
                 && (!s.hs[h].registered ==>
                       M.DecRef(s, h).pc == s.pc && M.DecRef(s, h).batch == s.batch
                       && s' == M.DecRef(s, h).(batch := s.batch[1..]) && !M.DecRef(s, h).failed)
  {
    P.StepKeeps(s, M.Continue);
    T.StepSweep(s, M.Continue);
    if s.batch[0].On? { T.Counted(s.batch, 0); P.HeldIsLive(s, s.batch[0].h); }
    hide P.RefInv, P.QueueInv, P.TimeInv, T.SweepInv;
  }

  lemma ReturnFacts(s: M.Loop)
    requires P.Inv(s) && T.SweepInv(s) && (s.pc.InFunc? || s.pc.InEvent?)
    ensures var s' := M.Step(s, M.Returns);
            && P.Inv(s') && T.SweepInv(s') && !s.failed && s.batch != []
            && (s.pc.InFunc? ==> s' == s.(pc := M.Dispatching, batch := s.batch[1..]))
            && (s.pc.InEvent? ==>
                  !M.DecRef(s, s.pc.h).failed && M.DecRef(s, s.pc.h).batch == s.batch
                  && s' == M.DecRef(s, s.pc.h).(pc := M.Dispatching, batch := s.batch[1..]))
  {
    P.StepKeeps(s, M.Returns);
    T.StepSweep(s, M.Returns);
    hide P.RefInv, P.QueueInv, P.TimeInv, T.SweepInv;
  }

  lemma BatchOver(s: M.Loop)
    requires P.Inv(s) && T.SweepInv(s) && s.pc.Dispatching? && s.batch == []
    ensures var s' := M.Step(s, M.Continue);
            s' == s.(pc := M.Sweeping(M.Sweep(s.clock, s.queue, []))) && P.Inv(s') && T.SweepInv(s')
  {
    P.StepKeeps(s, M.Continue);
    T.StepSweep(s, M.Continue);
    hide P.Inv, T.SweepInv;
  }

  lemma RunOne(s: M.Loop, l: M.Label)
    ensures M.Run(s, [l]) == M.Step(s, l)
    ensures l.EpollWait? && s.pc.Waiting? && M.Reportable(s, l.evs) ==> M.Step(s, l) == M.Wait(s, l.dt, l.evs)
  {
    assert [l][..0] == [];
  }

  lemma NewLoopValid(timeout: int, clock: int)
    requires timeout > 0
    ensures P.Inv(M.NewLoop(timeout, clock)) && T.SweepInv(M.NewLoop(timeout, clock))
  {
    hide P.Inv;
    P.RunKeeps(timeout, clock, []);
  }

  lemma CreateFacts(s: M.Loop)
    requires P.Inv(s) && T.SweepInv(s)
    ensures var s' := M.Step(s, M.Create); P.Inv(s') && T.SweepInv(s')
    ensures |s.hs| !in s.queue && |s.hs| !in s.interest
  {
    P.StepKeeps(s, M.Create);
    T.StepSweep(s, M.Create);
    hide P.RefInv, P.TimeInv, P.PcInv, T.SweepInv;
  }

  /** Clients leave the loop where it is. */
  predicate At(s: M.Loop, s0: M.Loop) { s.pc == s0.pc && s.batch == s0.batch && s.clock == s0.clock && s.timeout == s0.timeout }

  lemma ClientStep(s: M.Loop, op: M.Op)
    requires P.Inv(s) && T.SweepInv(s) && M.InClient(s.pc) && M.Allowed(s, op)
    ensures var s' := M.Step(s, M.Client(op));
            s' == M.Do(s, op) && P.Inv(s') && T.SweepInv(s') && At(s', s) && !s.failed && !s'.failed
  {
    P.DoKeeps(s, op);
    T.StepSweep(s, M.Client(op));
    hide M.Do, T.SweepInv, M.Allowed;
  }

  lemma RunSnoc(s: M.Loop, ls: seq<M.Label>, l: M.Label)
    ensures M.Run(s, ls + [l]) == M.Step(M.Run(s, ls), l)
  {
    assert (ls + [l])[..|ls|] == ls;
  }

  lemma Others(nodes: seq<EventHandler>, handlers: seq<EventHandler>, queue: seq<nat>, h: nat)
    requires QueueShows(nodes, handlers, queue) && NoDup(handlers) && h < |handlers|
    ensures forall i :: 0 <= i < |handlers| && i !in queue ==> handlers[i] !in nodes
    ensures forall i :: 0 <= i < |handlers| && i != h ==> handlers[i] != handlers[h]
    ensures forall i :: i in queue + [h] <==> i in queue || i == h
  {
    forall i: nat | i < |handlers| { NotInNodes(nodes, handlers, queue, i); }
    assert (queue + [h])[|queue|] == h;
  }

  lemma AppendShows(nodes: seq<EventHandler>, handlers: seq<EventHandler>, queue: seq<nat>, h: nat)
    requires QueueShows(nodes, handlers, queue) && h < |handlers|
    ensures QueueShows(nodes + [handlers[h]], handlers, queue + [h])
  {
  }

  lemma RemoveShows(nodes: seq<EventHandler>, handlers: seq<EventHandler>, queue: seq<nat>, h: nat, k: nat)
    requires QueueShows(nodes, handlers, queue) && NoDup(queue) && k < |queue| && queue[k] == h
    ensures k < |nodes| && nodes[k] == handlers[h]
    ensures QueueShows(nodes[..k] + nodes[k + 1..], handlers, M.Without(queue, h))
    ensures forall i :: i in M.Without(queue, h) <==> i in queue && i != h
  {
    P.WithoutIndex(queue, h, k);
    P.WithoutMembers(queue, h, k);
    hide M.Without;
    var now := nodes[..k] + nodes[k + 1..];
    forall j | 0 <= j < |now| ensures now[j] == nodes[P.Skip(k, j)] {}
  }

  lemma QueueDistinct(nodes: seq<EventHandler>, handlers: seq<EventHandler>, queue: seq<nat>)
    requires QueueShows(nodes, handlers, queue) && NoDup(nodes)
    ensures NoDup(queue)
  {
    forall i, j | 0 <= i < j < |queue| ensures queue[i] != queue[j] { assert nodes[i] != nodes[j]; }
  }
}
