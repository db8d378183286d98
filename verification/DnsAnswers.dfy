/** Which addresses the DNS cache hands out: those of the right name, fresh, and in rotation. */
module DnsAnswers {
  import opened Common
  import opened DnsModel
  import opened DnsProofs
  import opened DnsTheorems

  // ---------------------------------------------------------------------------------------------
  // Every address comes from a lookup of the call's own key

  predicate Backed(answers: set<Lookup>, key: string, addr: Cursor, at: int) {
    addr.At? ==> Lookup(key, addr.ring, at) in answers
  }

  predicate NodeKey(s: Dns, i: nat)
    requires i < |s.nodes|
  {
    Backed(s.answers, s.nodes[i].key, s.nodes[i].addr, s.nodes[i].succAt)
  }

  predicate TaskKey(s: Dns, t: nat)
    requires t < |s.tasks|
  {
    var i := s.tasks[t].node;
    i < |s.nodes| &&
    match s.tasks[t].pc
    case Resolved(ring, now) => Found(s.nodes[i].key, ring, now) <= s.answers
    case Delivering(cbs, serve, _) =>
      && Backed(s.answers, s.nodes[i].key, serve.addr, serve.obtained)
      && forall k :: 0 <= k < |cbs| ==> cbs[k] < |s.calls| && s.calls[cbs[k]].key == s.nodes[i].key
    case _ => true
  }

  predicate CallKey(s: Dns, c: nat)
    requires c < |s.calls|
  {
    match s.calls[c].stage
    case NeedSchedule(i) => i < |s.nodes| && s.nodes[i].key == s.calls[c].key
    case InEntry(i) => i < |s.nodes| && s.nodes[i].key == s.calls[c].key
    case Serving(i, serve, _) =>
      i < |s.nodes| && s.nodes[i].key == s.calls[c].key && Backed(s.answers, s.calls[c].key, serve.addr, serve.obtained)
    case _ => true
  }

  predicate DeliveryKey(s: Dns, d: nat)
    requires d < |s.delivered|
  {
    var e := s.delivered[d];
    && e.cb < |s.calls| && e.node < |s.nodes| && s.nodes[e.node].key == s.calls[e.cb].key
    && Backed(s.answers, s.calls[e.cb].key, e.serve.addr, e.serve.obtained)
  }

  predicate KeyInv(s: Dns) {
    && (forall i :: 0 <= i < |s.nodes| ==> NodeKey(s, i))
    && (forall t :: 0 <= t < |s.tasks| && Active(s.tasks[t]) ==> TaskKey(s, t))
    && (forall c :: 0 <= c < |s.calls| ==> CallKey(s, c))
    && (forall d :: 0 <= d < |s.delivered| ==> DeliveryKey(s, d))
  }

  /** Keys never change, and what has been found stays found. */
  predicate Grew(s: Dns, s': Dns) {
    && |s.nodes| <= |s'.nodes| && (forall i :: 0 <= i < |s.nodes| ==> s'.nodes[i].key == s.nodes[i].key)
    && |s.calls| <= |s'.calls| && (forall c :: 0 <= c < |s.calls| ==> s'.calls[c].key == s.calls[c].key)
    && |s.tasks| <= |s'.tasks| && |s.delivered| <= |s'.delivered| && s.answers <= s'.answers
  }

  lemma KeyFrame(s: Dns, s': Dns)
    requires KeyInv(s) && Grew(s, s')
    requires forall i :: 0 <= i < |s'.nodes| ==>
               (i < |s.nodes| && s'.nodes[i].addr == s.nodes[i].addr && s'.nodes[i].succAt == s.nodes[i].succAt) || NodeKey(s', i)
    requires forall t :: 0 <= t < |s'.tasks| && Active(s'.tasks[t]) ==>
               (t < |s.tasks| && s'.tasks[t] == s.tasks[t]) || TaskKey(s', t)
    requires forall c :: 0 <= c < |s'.calls| ==> (c < |s.calls| && s'.calls[c] == s.calls[c]) || CallKey(s', c)
    requires forall d :: 0 <= d < |s'.delivered| ==>
               (d < |s.delivered| && s'.delivered[d] == s.delivered[d]) || DeliveryKey(s', d)
    ensures KeyInv(s')
  {
    forall i | 0 <= i < |s'.nodes| ensures NodeKey(s', i) { if i < |s.nodes| { assert NodeKey(s, i); } }
    forall t | 0 <= t < |s'.tasks| && Active(s'.tasks[t]) ensures TaskKey(s', t) {
      if t < |s.tasks| && s'.tasks[t] == s.tasks[t] { assert TaskKey(s, t); }
    }
    forall c | 0 <= c < |s'.calls| ensures CallKey(s', c) { if c < |s.calls| { assert CallKey(s, c); } }
    forall d | 0 <= d < |s'.delivered| ensures DeliveryKey(s', d) { if d < |s.delivered| { assert DeliveryKey(s, d); } }
  }

  lemma {:induction false} UseAllSame(n: Node, cbs: seq<nat>, now: int)
    ensures var m := UseAll(n, cbs, now);
            m.key == n.key && m.succAt == n.succAt && m.resolvedAt == n.resolvedAt && m.alive == n.alive
            && m.addr.At? == n.addr.At? && (m.addr.At? ==> m.addr.ring == n.addr.ring)
    decreases |cbs|
  {
    if cbs != [] { UseAllSame(n, cbs[..|cbs| - 1], now); }
  }

  lemma TailKeys(s: Dns, t: nat, now: int, ran: Option<int>)
    requires KeyInv(s) && PlaceInv(s) && t < |s.tasks| && s.tasks[t].node < |s.nodes|
    ensures KeyInv(Tail(s, t, now, ran))
  {
    hide PlaceInv, UseAll;
    var i := s.tasks[t].node;
    var s' := Tail(s, t, now, ran);
    if s.nodes[i].callbacks != [] {
      WaitingKeys(s, i);
      BatchKeys(s, t, now, ran);
    } else {
      KeyFrame(s, s');
    }
  }

  lemma WaitingKeys(s: Dns, i: nat)
    requires KeyInv(s) && PlaceInv(s) && i < |s.nodes|
    ensures forall k :: 0 <= k < |s.nodes[i].callbacks| ==>
              s.nodes[i].callbacks[k] < |s.calls| && s.calls[s.nodes[i].callbacks[k]].key == s.nodes[i].key
  {
    forall k | 0 <= k < |s.nodes[i].callbacks|
      ensures s.nodes[i].callbacks[k] < |s.calls| && s.calls[s.nodes[i].callbacks[k]].key == s.nodes[i].key
    {
      assert CallKey(s, s.nodes[i].callbacks[k]);
    }
  }

  lemma BatchKeys(s: Dns, t: nat, now: int, ran: Option<int>)
    requires KeyInv(s) && t < |s.tasks| && s.tasks[t].node < |s.nodes|
    requires var n := s.nodes[s.tasks[t].node];
             n.callbacks != []
             && forall k :: 0 <= k < |n.callbacks| ==> n.callbacks[k] < |s.calls| && s.calls[n.callbacks[k]].key == n.key
    ensures KeyInv(Tail(s, t, now, ran))
  {
    var i := s.tasks[t].node;
    var n := s.nodes[i];
    var m := UseAll(n.(callbacks := [], first := false), n.callbacks, now);
    UseAllSame(n.(callbacks := [], first := false), n.callbacks, now);
    hide UseAll;
    assert NodeKey(s, i);
    var s' := Tail(s, t, now, ran);
    assert s'.nodes == s.nodes[i := m] && s'.tasks == s.tasks[t := s'.tasks[t]] && s'.tasks[t].node == i;
    assert NodeKey(s', i) && TaskKey(s', t);
    KeyFrame(s, s');
  }

  /** Tail looks at the entry only. */
  lemma RenodedPlaces(s: Dns, i: nat, n: Node)
    requires PlaceInv(s) && i < |s.nodes| && n.callbacks == s.nodes[i].callbacks
    ensures PlaceInv(s.(nodes := s.nodes[i := n]))
  {
    var s' := s.(nodes := s.nodes[i := n]);
    forall c | 0 <= c < |s'.calls| ensures InPlace(s', c) { assert InPlace(s, c); }
  }

  lemma RenodedKeys(s: Dns, i: nat, n: Node)
    requires KeyInv(s) && i < |s.nodes| && n.key == s.nodes[i].key
    requires Backed(s.answers, n.key, n.addr, n.succAt)
    ensures KeyInv(s.(nodes := s.nodes[i := n]))
  {
    KeyFrame(s, s.(nodes := s.nodes[i := n]));
  }

  lemma CheckKeys(s: Dns, t: nat)
    requires KeyInv(s) && PlaceInv(s) && t < |s.tasks| && Active(s.tasks[t]) && s.tasks[t].node < |s.nodes|
    ensures KeyInv(CheckSection(s, t, s.tasks[t].pc.now))
    requires s.tasks[t].pc.Started?
  {
    hide PlaceInv, Tail;
    var i := s.tasks[t].node;
    var n := s.nodes[i];
    var now := s.tasks[t].pc.now;
    assert NodeKey(s, i);
    if n.callbacks == [] && n.usedAt + s.opt.duration <= now {
      KeyFrame(s, CheckSection(s, t, now));
    } else if n.resolvedAt + s.opt.period <= now {
      KeyFrame(s, CheckSection(s, t, now));
    } else {
      RenodedPlaces(s, i, n.(idleRuns := n.idleRuns + 1));
      RenodedKeys(s, i, n.(idleRuns := n.idleRuns + 1));
      hide KeyInv;
      TailKeys(s.(nodes := s.nodes[i := n.(idleRuns := n.idleRuns + 1)]), t, now, None);
    }
  }

  lemma StoreKeys(s: Dns, t: nat)
    requires KeyInv(s) && PlaceInv(s) && t < |s.tasks| && s.tasks[t].pc.Resolved? && s.tasks[t].node < |s.nodes|
    ensures KeyInv(StoreSection(s, t, s.tasks[t].pc.ring, s.tasks[t].pc.now))
  {
    hide PlaceInv, Tail;
    var i := s.tasks[t].node;
    var Resolved(ring, now) := s.tasks[t].pc;
    var n := Store(s.nodes[i], ring, now);
    assert NodeKey(s, i) && TaskKey(s, t);
    assert ring != [] ==> Lookup(n.key, ring, now) in Found(n.key, ring, now);
    RenodedPlaces(s, i, n);
    RenodedKeys(s, i, n);
    hide KeyInv;
    TailKeys(s.(nodes := s.nodes[i := n]), t, now, Some(now));
  }

  lemma DeliverKeys(s: Dns, t: nat)
    requires KeyInv(s) && t < |s.tasks| && s.tasks[t].pc.Delivering?
    ensures KeyInv(DeliverStep(s, t))
  {
    assert TaskKey(s, t);
    var cbs := s.tasks[t].pc.cbs;
    var s' := DeliverStep(s, t);
    if cbs == [] {
      KeyFrame(s, s');
    } else {
      assert CallKey(s, cbs[0]) && TaskKey(s', t);
      assert s'.delivered[|s.delivered|].cb == cbs[0];
      KeyFrame(s, s');
    }
  }

  lemma EnterKeys(s: Dns, c: nat)
    requires KeyInv(s) && IndexInv(s) && c < |s.calls| && s.calls[c].stage.Sampled?
    ensures KeyInv(ResolveSection(s, c))
  {
    if s.calls[c].key in s.index {
      hide KeyInv;
      KnownKeys(s, c);
    } else {
      KeyFrame(s, ResolveSection(s, c));
    }
  }

  lemma KnownKeys(s: Dns, c: nat)
    requires KeyInv(s) && IndexInv(s) && c < |s.calls| && s.calls[c].stage.Sampled? && s.calls[c].key in s.index
    ensures KeyInv(ResolveSection(s, c))
  {
    assert NodeKey(s, s.index[s.calls[c].key]);
    KeyFrame(s, ResolveSection(s, c));
  }

  lemma CallerKeys(s: Dns, l: Label)
    requires KeyInv(s) && (l.ScheduleFirst? || l.Invoke? || l.Resolve? || l.Tick?)
    ensures KeyInv(Step(s, l))
  {
    var s' := Step(s, l);
    if !l.Resolve? && !l.Tick? && l.c < |s.calls| { assert CallKey(s, l.c); }
    KeyFrame(s, s');
  }

  lemma TaskKeys(s: Dns, l: Label)
    requires KeyInv(s) && (l.Begin? || l.Answer? || l.Finish? || l.Reschedule?)
    ensures KeyInv(Step(s, l))
  {
    hide KeyInv;
    match l
    case Answer(t, ring) => AnswerKeys(s, t, ring);
    case Begin(t) => if t < |s.tasks| && Active(s.tasks[t]) { PcKeys(s, t, Started(s.clock)); }
    case Finish(t) =>
      if t < |s.tasks| && Active(s.tasks[t]) && Valid(s, t) { PcKeys(s, t, Rescheduling(Next(s.opt, s.nodes[s.tasks[t].node]))); }
      FailedKeys(s);
    case Reschedule(t) => RescheduleKeys(s, t);
  }

  lemma AnswerKeys(s: Dns, t: nat, ring: seq<string>)
    requires KeyInv(s)
    ensures KeyInv(Step(s, Answer(t, ring)))
  {
    if t < |s.tasks| && Active(s.tasks[t]) { assert TaskKey(s, t); }
    KeyFrame(s, Step(s, Answer(t, ring)));
  }

  lemma PcKeys(s: Dns, t: nat, pc: Pc)
    requires KeyInv(s) && t < |s.tasks| && Active(s.tasks[t]) && !pc.Resolved? && !pc.Delivering?
    ensures KeyInv(s.(tasks := s.tasks[t := s.tasks[t].(pc := pc)]))
  {
    assert TaskKey(s, t);
    KeyFrame(s, s.(tasks := s.tasks[t := s.tasks[t].(pc := pc)]));
  }

  lemma FailedKeys(s: Dns)
    requires KeyInv(s)
    ensures KeyInv(s.(failed := true))
  {
    KeyFrame(s, s.(failed := true));
  }

  lemma RescheduleKeys(s: Dns, t: nat)
    requires KeyInv(s)
    ensures KeyInv(Step(s, Reschedule(t)))
  {
    if t < |s.tasks| && Active(s.tasks[t]) { assert TaskKey(s, t); }
    KeyFrame(s, Step(s, Reschedule(t)));
  }

  lemma StepKeys(s: Dns, l: Label)
    requires Inv(s) && KeyInv(s)
    ensures KeyInv(Step(s, l))
  {
    hide KeyInv, OwnInv, PlaceInv, DataInv, IndexInv, CheckSection, StoreSection, DeliverStep, ResolveSection;
    if l.ScheduleFirst? || l.Invoke? || l.Resolve? || l.Tick? { CallerKeys(s, l); }
    else if l.Begin? || l.Answer? || l.Finish? || l.Reschedule? { TaskKeys(s, l); }
    else if l.Enter? { if l.c < |s.calls| && s.calls[l.c].stage.Sampled? { EnterKeys(s, l.c); } else { assert Step(s, l) == s; } }
    else if l.t < |s.tasks| && Active(s.tasks[l.t]) {
      TaskFacts(s, l.t);
      hide NodeOk, TaskOk;
      match l {
        case Check(t) => if s.tasks[t].pc.Started? { CheckKeys(s, t); }
        case StoreResult(t) => if s.tasks[t].pc.Resolved? { StoreKeys(s, t); }
        case DeliverOne(t) => if s.tasks[t].pc.Delivering? { DeliverKeys(s, t); }
      }
    }
  }

  lemma {:induction false} RunKeys(opt: Options, clock: int, ls: seq<Label>)
    requires Sane(opt, clock)
    ensures KeyInv(Reached(opt, clock, ls))
    decreases |ls|
  {
    if ls != [] {
      RunKeys(opt, clock, ls[..|ls| - 1]);
      RunKeeps(opt, clock, ls[..|ls| - 1]);
      StepKeys(Reached(opt, clock, ls[..|ls| - 1]), ls[|ls| - 1]);
    }
  }

  /** What a callback is given.  The entry's cursor stands on a ring that a lookup of the call's own key
      has returned, at the time `obtained`.  A task hands that address out right after the lookup; Resolve
      hands it out if, and only if, it is younger than the TTL at the time that Resolve has read. */
  lemma RightAndFresh(opt: Options, clock: int, ls: seq<Label>, d: nat)
    requires Sane(opt, clock) && d < |Reached(opt, clock, ls).delivered|
    ensures var s := Reached(opt, clock, ls);
            var e := s.delivered[d];
            && e.cb < |s.calls|
            && (e.serve.addr.At? ==>
                  && e.serve.addr.pos < |e.serve.addr.ring|
                  && Lookup(s.calls[e.cb].key, e.serve.addr.ring, e.serve.obtained) in s.answers
                  && (e.byTask ==> e.ran == Some(e.serve.obtained)))
            && e.given == (if e.byTask || e.serve.obtained + opt.ttl > s.calls[e.cb].now then e.serve.addr else Null)
  {
    var s := Reached(opt, clock, ls);
    RunKeeps(opt, clock, ls);
    RunKeys(opt, clock, ls);
    hide OwnInv, IndexInv, PlaceInv, Run;
    assert DeliveryOk(s, s.delivered[d]) && DeliveryKey(s, d);
  }

  /** The callbacks that are waiting when an entry's first lookup succeeds are all handed over, in the
      order of their arrival, starting at the head of what the lookup has found; if it fails they get
      null. */
  lemma FirstBatch(opt: Options, clock: int, ls: seq<Label>, t: nat)
    requires Sane(opt, clock)
    requires var s := Reached(opt, clock, ls);
             t < |s.tasks| && s.tasks[t].pc.Resolved? && s.tasks[t].node < |s.nodes| && s.nodes[s.tasks[t].node].first
    ensures var s := Reached(opt, clock, ls);
            var Resolved(ring, now) := s.tasks[t].pc;
            var s' := Step(s, StoreResult(t));
            && t < |s'.tasks| && s'.tasks[t].pc.Delivering?
            && s'.tasks[t].pc.cbs == s.nodes[s.tasks[t].node].callbacks
            && s'.tasks[t].pc.serve.addr == (if ring == [] then Null else Cursor.At(ring, 0))
            && (ring != [] ==> s'.tasks[t].pc.serve.obtained == now)
  {
    RunKeeps(opt, clock, ls);
    hide Run;
    FirstStore(Reached(opt, clock, ls), t);
  }

  lemma FirstStore(s: Dns, t: nat)
    requires Inv(s) && t < |s.tasks| && s.tasks[t].pc.Resolved? && s.tasks[t].node < |s.nodes|
    requires s.nodes[s.tasks[t].node].first
    ensures var Resolved(ring, now) := s.tasks[t].pc;
            var s' := Step(s, StoreResult(t));
            && t < |s'.tasks| && s'.tasks[t].pc.Delivering?
            && s'.tasks[t].pc.cbs == s.nodes[s.tasks[t].node].callbacks
            && s'.tasks[t].pc.serve.addr == (if ring == [] then Null else Cursor.At(ring, 0))
            && (ring != [] ==> s'.tasks[t].pc.serve.obtained == now)
  {
    hide IndexInv, OwnInv, PlaceInv, DataInv, UseAll;
    TaskFacts(s, t);
    var ring := s.tasks[t].pc.ring;
    if ring != [] { ModUnique(0, |ring|, 0, 0); }
    assert s.nodes[s.tasks[t].node].useCount == 0;
  }

  // ---------------------------------------------------------------------------------------------
  // Round robin

  /** The ring position whose turn it is when slot `slot` of an entry's uses is taken. */
  function Turn(base: nat, logBase: nat, n: nat, slot: nat): nat
    requires n > 0 && logBase <= slot
  {
    (base + slot - logBase) % n
  }

  /** Each use of an entry takes a slot of its own, in the order of the uses, whether Resolve or a
      task serves it; and it is given the address whose turn that slot is. */
  lemma RoundRobin(opt: Options, clock: int, ls: seq<Label>, d: nat, e: nat)
    requires Sane(opt, clock) && d < |Reached(opt, clock, ls).delivered| && e < |Reached(opt, clock, ls).delivered|
    ensures var s := Reached(opt, clock, ls);
            var x, y := s.delivered[d], s.delivered[e];
            && x.node < |s.nodes| && x.serve.slot < |s.nodes[x.node].log|
            && s.nodes[x.node].log[x.serve.slot] == x.cb
            && (d != e && x.node == y.node ==> x.serve.slot != y.serve.slot)
            && (x.serve.addr.At? ==>
                  var n := |x.serve.addr.ring|;
                  && n > 0 && x.serve.logBase <= x.serve.slot
                  && x.serve.addr.pos == Turn(x.serve.base, x.serve.logBase, n, x.serve.slot))
  {
    var s := Reached(opt, clock, ls);
    RunKeeps(opt, clock, ls);
    hide OwnInv, IndexInv, PlaceInv, DataInv, ServeOk, Run;
    DeliveryFacts(s, d);
    DeliveryFacts(s, e);
    if d != e { OutOnce(s, d, e); }
    ServeTurn(s.nodes[s.delivered[d].node], s.delivered[d].cb, s.delivered[d].serve);
    ServeTurn(s.nodes[s.delivered[e].node], s.delivered[e].cb, s.delivered[e].serve);
  }

  lemma DeliveryFacts(s: Dns, d: nat)
    requires DataInv(s) && d < |s.delivered|
    ensures var e := s.delivered[d];
            e.node < |s.nodes| && e.cb < |s.calls| && ServeOk(s.nodes[e.node], e.cb, e.serve)
  {
    assert DeliveryOk(s, s.delivered[d]);
  }

  lemma ServeTurn(n: Node, cb: nat, serve: Serve)
    requires ServeOk(n, cb, serve)
    ensures serve.slot < |n.log| && n.log[serve.slot] == cb
    ensures serve.addr.At? ==>
              |serve.addr.ring| > 0 && serve.logBase <= serve.slot
              && serve.addr.pos == Turn(serve.base, serve.logBase, |serve.addr.ring|, serve.slot)
  {
  }

  lemma OutOnce(s: Dns, d: nat, e: nat)
    requires PlaceInv(s) && d < |s.delivered| && e < |s.delivered| && d != e
    ensures s.delivered[d].cb != s.delivered[e].cb
  {
  }

  function Advances(c: Cursor, k: nat): Cursor { if k == 0 then c else Advance(Advances(c, k - 1)) }

  /** The cursor of a fresh ring is where as many advances from its head lead as the entry has been
      used since the last successful refresh. */
  lemma StoreAdvances(n: Node, ring: seq<string>, now: int)
    requires ring != []
    ensures Store(n, ring, now).addr == Advances(Cursor.At(ring, 0), n.useCount)
    ensures Store(n, ring, now).useCount == 0
  {
    AdvancesTo(ring, n.useCount);
  }

  lemma {:induction false} AdvancesTo(ring: seq<string>, k: nat)
    requires ring != []
    ensures Advances(Cursor.At(ring, 0), k) == Cursor.At(ring, k % |ring|)
  {
    hide Advance;
    if k == 0 {
      ModUnique(0, |ring|, 0, 0);
    } else {
      AdvancesTo(ring, k - 1);
      AdvanceOnce(ring, k - 1);
    }
  }

  lemma AdvanceOnce(ring: seq<string>, k: nat)
    requires ring != []
    ensures Advance(Cursor.At(ring, k % |ring|)) == Cursor.At(ring, (k + 1) % |ring|)
  {
    ModStep(k, |ring|);
  }

  /** How many of the k slots from `slot` on have position r as their turn. */
  function Turns(base: nat, logBase: nat, n: nat, slot: nat, k: nat, r: nat): nat
    requires n > 0 && logBase <= slot
  {
    if k == 0 then 0 else
    Turns(base, logBase, n, slot, k - 1, r) + if Turn(base, logBase, n, slot + k - 1) == r then 1 else 0
  }

  /** Any window of consecutive slots is spread over the ring evenly, to within one. */
  lemma {:induction false} TurnsBalanced(base: nat, logBase: nat, n: nat, slot: nat, k: nat, r: nat, q: nat)
    requires r < n && q < n && logBase <= slot
    ensures var a, b := Turns(base, logBase, n, slot, k, r), Turns(base, logBase, n, slot, k, q); a <= b + 1 && b <= a + 1
    decreases k
  {
    if k < n {
      WithinOneRound(base, logBase, n, slot, k, r);
      WithinOneRound(base, logBase, n, slot, k, q);
    } else {
      WithinOneRound(base, logBase, n, slot, n, r);
      WithinOneRound(base, logBase, n, slot, n, q);
      TurnsSplit(base, logBase, n, slot, n, k - n, r);
      TurnsSplit(base, logBase, n, slot, n, k - n, q);
      TurnsBalanced(base, logBase, n, slot + n, k - n, r, q);
    }
  }

  lemma {:induction false} TurnsSplit(base: nat, logBase: nat, n: nat, slot: nat, j: nat, k: nat, r: nat)
    requires n > 0 && logBase <= slot
    ensures Turns(base, logBase, n, slot, j + k, r)
         == Turns(base, logBase, n, slot, j, r) + Turns(base, logBase, n, slot + j, k, r)
    decreases k
  {
    if k > 0 { TurnsSplit(base, logBase, n, slot, j, k - 1, r); }
  }

  /** In a round of at most n uses a position comes up once its distance has been covered. */
  lemma {:induction false} WithinOneRound(base: nat, logBase: nat, n: nat, slot: nat, k: nat, r: nat)
    requires r < n && k <= n && logBase <= slot
    ensures Turns(base, logBase, n, slot, k, r) == if (r - (base + slot - logBase)) % n < k then 1 else 0
    decreases k
  {
    if k > 0 {
      var a := base + slot - logBase;
      WithinOneRound(base, logBase, n, slot, k - 1, r);
      var z := (r - a) % n;
      ModPlusMod(a, r - a, n);
      ModUnique(r, n, 0, r);
      assert (a + z) % n == r;
      if (a + k - 1) % n == r { SameTurn(a, z, k - 1, n); }
    }
  }

  lemma SameTurn(a: int, x: int, y: int, n: int)
    requires 0 <= x < n && 0 <= y < n && (a + x) % n == (a + y) % n
    ensures x == y
  {
    var p, q := (a + x) / n, (a + y) / n;
    assert x - y == n * p - n * q;
    Distribute(n, p, q);
    Distribute(n, q, p);
    if p > q { AtLeast(n, p - q); }
    if q > p { AtLeast(n, q - p); }
  }

  /** Delivery d serves one of the k uses of entry i from slot `from` on, and gives the address at r. */
  predicate Gives(s: Dns, d: nat, i: nat, from: nat, k: nat, r: nat)
    requires d < |s.delivered|
  {
    var e := s.delivered[d];
    e.node == i && from <= e.serve.slot < from + k && e.given.At? && e.given.pos == r
  }

  function Givers(s: Dns, i: nat, from: nat, k: nat, r: nat): set<nat> {
    set d: nat | d < |s.delivered| && Gives(s, d, i, from, k, r)
  }

  /** The use of entry i that has the slot has been given an address. */
  predicate HasGiven(s: Dns, i: nat, slot: nat) {
    exists d :: 0 <= d < |s.delivered| && s.delivered[d].node == i && s.delivered[d].serve.slot == slot && s.delivered[d].given.At?
  }

  /** A window of an entry's uses since its last successful refresh, all of which have been given an
      address. */
  predicate Window(s: Dns, i: nat, from: nat, k: nat) {
    && i < |s.nodes| && s.nodes[i].addr.At? && s.nodes[i].addr.ring != []
    && s.nodes[i].logBase <= from && from + k <= |s.nodes[i].log|
    && forall slot :: from <= slot < from + k ==> HasGiven(s, i, slot)
  }

  /** Round robin, as the callers see it: in any such window, any two addresses of the ring have been
      given out equally often, to within one. */
  lemma Balanced(opt: Options, clock: int, ls: seq<Label>, i: nat, from: nat, k: nat, r: nat, q: nat)
    requires Sane(opt, clock) && Window(Reached(opt, clock, ls), i, from, k)
    requires var n := |Reached(opt, clock, ls).nodes[i].addr.ring|; r < n && q < n
    ensures var s := Reached(opt, clock, ls);
            |Givers(s, i, from, k, r)| <= |Givers(s, i, from, k, q)| + 1
            && |Givers(s, i, from, k, q)| <= |Givers(s, i, from, k, r)| + 1
            && forall d :: d in Givers(s, i, from, k, r) ==> s.delivered[d].given.ring == s.nodes[i].addr.ring
  {
    var s := Reached(opt, clock, ls);
    var n := s.nodes[i];
    RunKeeps(opt, clock, ls);
    hide OwnInv, IndexInv, PlaceInv, DataInv, Run;
    forall d: nat | d in Givers(s, i, from, k, r) ensures s.delivered[d].given.ring == n.addr.ring { GiverTurn(s, d); }
    GiversTakeTurns(s, i, from, k, r);
    GiversTakeTurns(s, i, from, k, q);
    TurnsBalanced(n.base, n.logBase, |n.addr.ring|, from, k, r, q);
  }

  lemma {:induction false} GiversTakeTurns(s: Dns, i: nat, from: nat, k: nat, r: nat)
    requires PlaceInv(s) && DataInv(s) && Window(s, i, from, k)
    ensures var n := s.nodes[i]; |Givers(s, i, from, k, r)| == Turns(n.base, n.logBase, |n.addr.ring|, from, k, r)
    decreases k
  {
    hide PlaceInv, DataInv, Turn;
    if k == 0 {
      assert Givers(s, i, from, 0, r) == {};
    } else {
      var n := s.nodes[i];
      GiversTakeTurns(s, i, from, k - 1, r);
      var d := LastGiver(s, i, from, k, r);
      var before, all := Givers(s, i, from, k - 1, r), Givers(s, i, from, k, r);
      if Turn(n.base, n.logBase, |n.addr.ring|, from + k - 1) == r {
        assert all == before + {d} && d !in before;
      } else {
        assert all == before;
      }
    }
  }

  /** Who has served the last use of a window, and what it gave. */
  lemma LastGiver(s: Dns, i: nat, from: nat, k: nat, r: nat) returns (d: nat)
    requires PlaceInv(s) && DataInv(s) && Window(s, i, from, k) && k > 0
    ensures d < |s.delivered| && s.delivered[d].serve.slot == from + k - 1
    ensures var n := s.nodes[i];
            Gives(s, d, i, from, k, r) <==> Turn(n.base, n.logBase, |n.addr.ring|, from + k - 1) == r
    ensures forall e: nat :: e < |s.delivered| && e != d ==> (Gives(s, e, i, from, k, r) <==> Gives(s, e, i, from, k - 1, r))
  {
    hide PlaceInv, DataInv, Turn;
    assert HasGiven(s, i, from + k - 1);
    d :| 0 <= d < |s.delivered| && s.delivered[d].node == i && s.delivered[d].serve.slot == from + k - 1 && s.delivered[d].given.At?;
    GiverTurn(s, d);
    forall e: nat | e < |s.delivered| && e != d ensures Gives(s, e, i, from, k, r) <==> Gives(s, e, i, from, k - 1, r) {
      if s.delivered[e].node == i { OwnSlot(s, d, e); }
    }
  }

  lemma OwnSlot(s: Dns, d: nat, e: nat)
    requires PlaceInv(s) && DataInv(s) && d < |s.delivered| && e < |s.delivered| && d != e
    requires s.delivered[d].node == s.delivered[e].node
    ensures s.delivered[d].serve.slot != s.delivered[e].serve.slot
  {
    DeliveryFacts(s, d);
    DeliveryFacts(s, e);
    hide DataInv, RingOk;
    OutOnce(s, d, e);
  }

  lemma GiverTurn(s: Dns, d: nat)
    requires DataInv(s) && d < |s.delivered| && s.delivered[d].given.At? && s.delivered[d].node < |s.nodes|
    requires var n := s.nodes[s.delivered[d].node]; n.logBase <= s.delivered[d].serve.slot
    ensures var n := s.nodes[s.delivered[d].node];
            && n.addr.At? && s.delivered[d].given.ring == n.addr.ring && n.addr.ring != []
            && s.delivered[d].given.pos == Turn(n.base, n.logBase, |n.addr.ring|, s.delivered[d].serve.slot)
  {
    assert DeliveryOk(s, s.delivered[d]);
  }
}
