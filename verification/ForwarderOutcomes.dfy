/** What handling an event comes to: its result, the timers, and why a pair is terminated. */
module ForwarderOutcomes {
  import opened Common
  import opened ForwarderModel
  import opened ForwarderProofs
  import opened ForwarderReturns

  // ---------------------------------------------------------------------------------------------
  // The result of an event

  lemma FillOtherFlow(p: Pair, c: InChoice)
    requires SafeInv(p) && Held(p) && Fill(p, c).1 != Broken
    ensures Progress(Swap(Fill(p, c).0)) == Progress(Swap(p))
  {
    hide Splits, Carried, SentPrefix, CloseForReading, Terminate;
    if p.peer.readable && WriteFrom(p.me.out, p.peer.sock, c).status == Eof { FillEofOtherFlow(p, c); }
  }

  lemma FillEofOtherFlow(p: Pair, c: InChoice)
    requires SafeInv(p) && Held(p) && p.peer.readable && WriteFrom(p.me.out, p.peer.sock, c).status == Eof
    ensures Progress(Swap(Fill(p, c).0)) == Progress(Swap(p))
  {
    hide Splits, Carried, SentPrefix, Close, Terminate;
    var p1 := Swap(p.(me := p.me.(out := CloseWr(p.me.out))));
    assert !p.failed && p.peer.sock.closes == 0 && p.me.out.wr && CoreInv(p1);
    hide CoreInv, SafeInv;
    if !p.peer.writable { CloseKeepsBytes(p1); }
  }

  lemma FlushOtherFlow(p: Pair, c: OutChoice)
    requires SafeInv(p) && Held(p) && Flush(p, c).1 != Broken
    ensures Progress(Swap(Flush(p, c).0)) == Progress(Swap(p))
  {
    hide Splits, Carried, SentPrefix, CloseForWriting, Terminate;
    if p.me.writable && ReadTo(p.me.out, p.me.sock, c).status == Eof { FlushEofOtherFlow(p, c); }
  }

  lemma FlushEofOtherFlow(p: Pair, c: OutChoice)
    requires SafeInv(p) && Held(p) && p.me.writable && ReadTo(p.me.out, p.me.sock, c).status == Eof
    ensures Progress(Swap(Flush(p, c).0)) == Progress(Swap(p))
  {
    assert p.me.out.content == [] && p.peer.sock.received == p.peer.sock.stream;
    hide Splits, Carried, SentPrefix, Close, Terminate;
    var p1 := p.(me := p.me.(out := CloseRd(p.me.out).(finished := true)));
    assert !p.failed && p.me.sock.closes == 0 && p.me.out.rd && CoreInv(p1);
    hide CoreInv, SafeInv;
    if !p.me.readable { CloseKeepsBytes(p1); }
  }

  lemma EnvBothFlows(p: Pair, es: seq<SideEnv>)
    ensures Progress(ExecEnv(p, es)) == Progress(p) && Progress(Swap(ExecEnv(p, es))) == Progress(Swap(p))
  {
    hide ExecEnv;
    EnvProgress(p, es);
    EnvProgressSwapped(p, es);
  }

  lemma {:induction false} EnvProgressSwapped(p: Pair, es: seq<SideEnv>)
    ensures Progress(Swap(ExecEnv(p, es))) == Progress(Swap(p))
    decreases |es|
  {
    hide Progress, PairEnv;
    if es != [] {
      var q, e := ExecEnv(p, es[..|es| - 1]), es[|es| - 1];
      EnvProgressSwapped(p, es[..|es| - 1]);
      EnvStepProgress(Swap(q), SideEnv(!e.onMe, e.e));
      assert Swap(PairEnv(q, e)) == PairEnv(Swap(q), SideEnv(!e.onMe, e.e)) by { EnvSwaps(q, e); }
    }
  }

  lemma EnvSwaps(q: Pair, e: SideEnv)
    ensures Swap(PairEnv(q, e)) == PairEnv(Swap(q), SideEnv(!e.onMe, e.e))
  {
    hide LinkEnv;
  }

  lemma StepOtherFlow(p: Pair, io: Io)
    requires SafeInv(p) && Held(p) && ForwardStep(p, io).1 != Broken
    ensures Progress(Swap(ForwardStep(p, io).0)) == Progress(Swap(p))
  {
    hide SafeInv, Fill, Flush, Progress, ExecEnv;
    var p0 := ExecEnv(p, io.envIn);
    EnvBothFlows(p, io.envIn);
    ExecEnvSafe(p, io.envIn);
    FillSafe(p0, io.in_);
    FillOtherFlow(p0, io.in_);
    var p1 := Fill(p0, io.in_).0;
    EnvBothFlows(p1, io.envOut);
    ExecEnvSafe(p1, io.envOut);
    FlushOtherFlow(ExecEnv(p1, io.envOut), io.out);
  }

  /** Forwarding in one direction moves nothing in the other. */
  lemma {:induction false} ForwardOtherFlow(p: Pair, ios: seq<Io>)
    requires SafeInv(p) && Held(p) && !Forward(p, ios).broken
    ensures Progress(Swap(Forward(p, ios).p)) == Progress(Swap(p))
    decreases |ios|
  {
    hide SafeInv, ForwardStep, Progress;
    if ios != [] {
      ForwardStepSafe(p, ios[0]);
      StepOtherFlow(p, ios[0]);
      var (q, f) := ForwardStep(p, ios[0]);
      if f == Moved { ForwardOtherFlow(q, ios[1..]); }
    }
  }

  lemma CallOutcome(c: bool, p: Pair, ios: seq<Io>)
    requires SafeInv(p) && Held(p) && ForwardIf(c, p, ios).done && !ForwardIf(c, p, ios).p.terminated
    ensures var r := ForwardIf(c, p, ios);
            && (r.moved <==> Progress(r.p) != Progress(p)) && Progress(Swap(r.p)) == Progress(Swap(p))
            && Progress(r.p) >= Progress(p) && SafeInv(Swap(r.p)) && Held(Swap(r.p))
  {
    hide SafeInv, Forward, Progress, StrictEdge, EdgeInv;
    ForwardIfSafe(c, p, ios);
    SwapSafe(ForwardIf(c, p, ios).p);
    if c {
      ForwardSafe(p, ios);
      ForwardResult(p, ios);
      ForwardOtherFlow(p, ios);
    }
  }

  /** What the second of two calls leaves terminated the first has not. */
  lemma StillTerminated(c: bool, p: Pair, ios: seq<Io>)
    requires SafeInv(p) && Held(p) && p.terminated
    ensures ForwardIf(c, p, ios).p.terminated
  {
    hide SafeInv, Forward, StrictEdge, EdgeInv;
    ForwardIfSafe(c, p, ios);
  }

  /** The two calls, seen from the sink of the first one. */
  lemma BothOutcomes(c1: bool, c2: bool, p: Pair, ios1: seq<Io>, ios2: seq<Io>)
    requires SafeInv(p) && Held(p)
    requires var r1 := ForwardIf(c1, p, ios1);
             var r2 := ForwardIf(c2, Swap(r1.p), ios2);
             r1.done && r2.done && !r2.p.terminated
    ensures var r1 := ForwardIf(c1, p, ios1);
            var r2 := ForwardIf(c2, Swap(r1.p), ios2);
            r1.moved || r2.moved <==> Progress(Swap(r2.p)) != Progress(p) || Progress(r2.p) != Progress(Swap(p))
  {
    hide SafeInv, ForwardIf, Progress, StrictEdge, EdgeInv;
    var r1 := ForwardIf(c1, p, ios1);
    ForwardIfSafe(c1, p, ios1);
    SwapSafe(r1.p);
    if r1.p.terminated { StillTerminated(c2, Swap(r1.p), ios2); }
    CallOutcome(c1, p, ios1);
    CallOutcome(c2, Swap(r1.p), ios2);
    assert Swap(Swap(r1.p)) == r1.p;
  }

  /** Handling an event that does not break the pair returns true exactly when something has moved, in
      either direction: bytes, or an end of file. */
  lemma ResultIsProgress(p: Pair, ev: Events, o: Oracle)
    requires SafeInv(p) && Held(p) && Process(p, ev, o).done && !Process(p, ev, o).p.terminated
    ensures var r := Process(p, ev, o);
            r.moved <==> Progress(r.p) != Progress(p) || Progress(Swap(r.p)) != Progress(Swap(p))
  {
    hide SafeInv, ForwardIf, Progress, Terminate;
    SwapSafe(p);
    if ev.err {
      ErrTerminates(p);
    } else if o.inFirst {
      BothOutcomes(ev.in_, ev.out, Swap(p), o.toPeer, o.toMe);
      assert Swap(Swap(p)) == p;
    } else {
      BothOutcomes(ev.out, ev.in_, p, o.toMe, o.toPeer);
      var r2 := ForwardIf(ev.in_, Swap(ForwardIf(ev.out, p, o.toMe).p), o.toPeer);
      assert Swap(Swap(r2.p)) == r2.p;
    }
  }

  lemma ErrTerminates(p: Pair)
    requires SafeInv(p) && Held(p)
    ensures Terminate(p).terminated
  {
    hide Splits, Carried, SentPrefix;
    TerminateSafe(p);
  }

  // ---------------------------------------------------------------------------------------------
  // From Process to the end of the step

  /** Nothing that matters to the outcome happens around Process. */
  predicate SameOutcome(p: Pair, q: Pair) {
    && q.terminated == p.terminated && Open(q.me) == Open(p.me) && Open(q.peer) == Open(p.peer)
    && q.me.out.broke == p.me.out.broke && q.peer.out.broke == p.peer.out.broke
    && (Open(p.me) || Open(p.peer) ==> Progress(q) == Progress(p) && Progress(Swap(q)) == Progress(Swap(p)))
  }

  lemma RefreshSameOutcome(p: Pair)
    requires SafeInv(p) && Held(p)
    ensures SameOutcome(p, RefreshBoth(p)) && SafeInv(RefreshBoth(p)) && RefreshBoth(p).peer.temps == p.peer.temps
    ensures RefreshBoth(p).me.batch == p.me.batch && RefreshBoth(p).me.temps == p.me.temps
  {
    HeldLive(p);
    hide SafeInv, RefreshBoth;
    RefreshBothEffect(p);
    DeadlineSafe(p, Deadline(p, p.me), Deadline(p, p.peer));
  }

  lemma HeldLive(p: Pair)
    requires SafeInv(p) && Held(p)
    ensures !p.me.freed && !p.peer.freed && !p.failed
  {
    hide Splits, Carried, SentPrefix, FlowInv, Coherent;
  }

  lemma ReleaseSameOutcome(p: Pair)
    requires SafeInv(p) && p.peer.temps > 0
    ensures SameOutcome(p, ReleasePeer(p)) && SafeInv(ReleasePeer(p)) && ReleasePeer(p).me == p.me
  {
    hide SafeInv, ReleasePeer, StrictEdge, EdgeInv;
    ReleasePeerSafe(p);
  }

  lemma DropSameOutcome(p: Pair)
    requires SafeInv(p) && p.me.batch.Some?
    ensures SameOutcome(p, DecRef(p.(me := p.me.(batch := None))))
  {
    hide SafeInv, DecRef, StrictEdge, EdgeInv;
    DropSafe(p, p.me.(batch := None));
  }

  lemma SameOutcomeTwice(p: Pair, q: Pair, r: Pair)
    requires SameOutcome(p, q) && SameOutcome(q, r)
    ensures SameOutcome(p, r)
  {
    hide Progress, Open;
  }

  lemma HandlingHolds(p: Pair)
    requires Inv(p) && p.me.batch.Some? && p.me.registered
    ensures var p1 := HoldPeer(p);
            && SafeInv(p1) && Held(p1) && p1.peer.temps > 0 && !p1.terminated && !p.terminated && !p.failed && !p.me.freed
            && Progress(p1) == Progress(p) && Progress(Swap(p1)) == Progress(Swap(p)) && p1.me.batch == p.me.batch
            && p1.me.out == p.me.out && p1.peer.out == p.peer.out
  {
    hide Splits, Carried, SentPrefix, EdgeInv;
    HoldPeerSafe(p);
  }

  /** Process and the refreshes. */
  function Handled(p: Pair, o: Oracle): Pair
    requires p.me.batch.Some?
  {
    var r := Process(HoldPeer(p), p.me.batch.value, o);
    if r.moved then RefreshBoth(r.p) else r.p
  }

  lemma HandledIs(p: Pair, o: Oracle)
    requires Inv(p) && p.me.batch.Some? && p.me.registered
    ensures var r := Process(HoldPeer(p), p.me.batch.value, o);
            && SameOutcome(r.p, Handled(p, o)) && SafeInv(Handled(p, o)) && Handled(p, o).peer.temps > 0
            && Handled(p, o).me.batch.Some? && !Handled(p, o).me.freed && !Handled(p, o).failed
  {
    HandlingHolds(p);
    var p1, ev := HoldPeer(p), p.me.batch.value;
    hide Inv, SafeInv, Process, RefreshBoth, HoldPeer, SameOutcome, Held, StrictEdge, EdgeInv, ProcessRel;
    ProcessSafe(p1, ev, o);
    var r := Process(p1, ev, o);
    ProcessHolds(p1, ev, r);
    RefreshSameOutcome(r.p);
    SelfSameOutcome(r.p);
    EndLive(Handled(p, o));
  }

  /** The step as its parts. */
  lemma DeliverParts(p: Pair, o: Oracle)
    requires Inv(p) && p.me.batch.Some? && p.me.registered
    ensures var r := Process(HoldPeer(p), p.me.batch.value, o);
            && OnEvent(p, p.me.batch.value, o).moved == r.moved && OnEvent(p, p.me.batch.value, o).done == r.done
            && (!r.done ==> Act(p, Deliver(o)) == p)
            && (r.done ==> SameOutcome(r.p, Act(p, Deliver(o))))
  {
    HandlingHolds(p);
    HandledIs(p, o);
    var q := Handled(p, o);
    hide Inv, SafeInv, Process, RefreshBoth, ReleasePeer, HoldPeer, DecRef, SameOutcome, Held;
    ReleaseSameOutcome(q);
    var q1 := ReleasePeer(q);
    DropSameOutcome(q1);
    var r := Process(HoldPeer(p), p.me.batch.value, o);
    DeliverIs(p, o, r, q);
    SameOutcomeTwice(r.p, q, q1);
    SameOutcomeTwice(r.p, q1, DecRef(q1.(me := q1.me.(batch := None))));
  }

  lemma DeliverIs(p: Pair, o: Oracle, r: Processed, q: Pair)
    requires !p.failed && !p.me.freed && p.me.batch.Some? && p.me.registered
    requires r == Process(HoldPeer(p), p.me.batch.value, o) && q == Handled(p, o) && !q.failed && !q.me.freed
    ensures OnEvent(p, p.me.batch.value, o) == r.(p := ReleasePeer(q))
    ensures var q1 := ReleasePeer(q);
            Act(p, Deliver(o)) == if r.done then DecRef(q1.(me := q1.me.(batch := None))) else p
  {
    hide Process, RefreshBoth, ReleasePeer, HoldPeer, DecRef;
  }

  lemma EndLive(q: Pair)
    requires SafeInv(q) && q.me.batch.Some?
    ensures !q.me.freed && !q.failed
  {
    hide Splits, Carried, SentPrefix, FlowInv, Coherent;
  }

  lemma ProcessHolds(p: Pair, ev: Events, r: Processed)
    requires Held(p) && ProcessRel(p, ev, r)
    ensures SafeInv(r.p) && Held(r.p) && r.p.peer.temps == p.peer.temps && r.p.me.batch == p.me.batch
  {
    hide SafeInv, StrictEdge, EdgeInv;
  }

  lemma SelfSameOutcome(p: Pair)
    ensures SameOutcome(p, p)
  {
  }

  // ---------------------------------------------------------------------------------------------
  // The timers

  /** Over every run: an event that does not end the pair restarts the timers of all links that are
      still open if it has moved bytes, or an end of file, in either direction; otherwise it restarts
      none. */
  lemma ProgressRestartsTimers(s: Setup, ls: seq<Label>, client: bool, o: Oracle)
    requires ValidSetup(s)
    requires var p := if client then Reach(s, ls) else Swap(Reach(s, ls));
             p.me.batch.Some? && p.me.registered && OnEvent(p, p.me.batch.value, o).done
    ensures var p := if client then Reach(s, ls) else Swap(Reach(s, ls));
            var q := Act(p, Deliver(o));
            var moved := Progress(q) != Progress(p) || Progress(Swap(q)) != Progress(Swap(p));
            !q.terminated ==>
              && (Open(q.me) ==> q.me.deadline == if moved then p.clock + p.timeout else p.me.deadline)
              && (Open(q.peer) ==> q.peer.deadline == if moved then p.clock + p.timeout else p.peer.deadline)
  {
    hide Inv, Reach, Act, OnEvent, Progress;
    ReachInv(s, ls);
    InvSwaps(Reach(s, ls));
    RestartsTimers(if client then Reach(s, ls) else Swap(Reach(s, ls)), o);
  }

  lemma RestartsTimers(p: Pair, o: Oracle)
    requires Inv(p) && p.me.batch.Some? && p.me.registered && OnEvent(p, p.me.batch.value, o).done
    ensures var q := Act(p, Deliver(o));
            var moved := Progress(q) != Progress(p) || Progress(Swap(q)) != Progress(Swap(p));
            !q.terminated ==>
              && (Open(q.me) ==> q.me.deadline == if moved then p.clock + p.timeout else p.me.deadline)
              && (Open(q.peer) ==> q.peer.deadline == if moved then p.clock + p.timeout else p.peer.deadline)
  {
    hide Inv, SafeInv, Act, OnEvent, Process, HoldPeer, Progress, Open, Held;
    DeliverParts(p, o);
    TimerRule(p, o);
    HandlingHolds(p);
    if !Process(HoldPeer(p), p.me.batch.value, o).p.terminated { ResultIsProgress(HoldPeer(p), p.me.batch.value, o); }
  }

  // ---------------------------------------------------------------------------------------------
  // Why a pair is terminated

  /** One call breaks the pair exactly when splice() has reported an error. */
  lemma CallBreaks(c: bool, p: Pair, ios: seq<Io>)
    requires SafeInv(p) && Held(p)
    ensures var q := ForwardIf(c, p, ios).p; q.terminated ==> p.terminated || q.me.out.broke
  {
    hide SafeInv, StrictEdge, EdgeInv;
    if c {
      ForwardSafe(p, ios);
      ForwardTerminates(p, ios);
    }
  }

  lemma BothBreak(c1: bool, c2: bool, p: Pair, ios1: seq<Io>, ios2: seq<Io>)
    requires SafeInv(p) && Held(p) && !p.terminated
    ensures var q := ForwardIf(c2, Swap(ForwardIf(c1, p, ios1).p), ios2).p;
            q.terminated ==> q.me.out.broke || q.peer.out.broke
  {
    hide SafeInv, ForwardIf, StrictEdge, EdgeInv;
    var r1 := ForwardIf(c1, p, ios1);
    ForwardIfSafe(c1, p, ios1);
    SwapSafe(r1.p);
    CallBreaks(c1, p, ios1);
    CallBreaks(c2, Swap(r1.p), ios2);
    ForwardIfSafe(c2, Swap(r1.p), ios2);
  }

  lemma ProcessTerminates(p: Pair, ev: Events, o: Oracle)
    requires SafeInv(p) && Held(p) && !p.terminated
    ensures var q := Process(p, ev, o).p; q.terminated <==> ev.err || q.me.out.broke || q.peer.out.broke
  {
    hide ForwardIf, Terminate, LinkInv, FlowInv, Coherent;
    ProcessSafe(p, ev, o);
    SwapSafe(p);
    if ev.err { ErrTerminates(p); }
    else if o.inFirst { BothBreak(ev.in_, ev.out, Swap(p), o.toPeer, o.toMe); }
    else { BothBreak(ev.out, ev.in_, p, o.toMe, o.toPeer); }
  }

  /** The step handles an error event or an expiry of an open link. */
  predicate Abnormal(p: Pair, a: Action) {
    p.me.registered && ((a.Deliver? && p.me.batch.Some? && p.me.batch.value.err) || (a.Expire? && p.me.deadline <= p.clock))
  }

  predicate HasBroken(p: Pair) { p.me.out.broke || p.peer.out.broke }

  lemma ActTerminates(p: Pair, a: Action)
    requires Inv(p)
    ensures Act(p, a).terminated <==> p.terminated || Abnormal(p, a) || HasBroken(Act(p, a))
  {
    match a
    case Deliver(o) => DeliverTerminates(p, o);
    case Expire => ExpireTerminates(p);
    case _ => hide LinkInv, FlowInv, Coherent, EdgeInv;
  }

  lemma DeliverTerminates(p: Pair, o: Oracle)
    requires Inv(p)
    ensures Act(p, Deliver(o)).terminated <==> p.terminated || Abnormal(p, Deliver(o)) || HasBroken(Act(p, Deliver(o)))
  {
    if p.me.batch.Some? && p.me.registered {
      HandlingHolds(p);
      hide SafeInv, EdgeInv, OnEvent, Process, HoldPeer, Progress, Act;
      DeliverParts(p, o);
      ProcessTerminates(HoldPeer(p), p.me.batch.value, o);
      ErrIsDone(HoldPeer(p), p.me.batch.value, o);
      NotBrokenYet(p);
    } else {
      hide LinkInv, FlowInv, Coherent, EdgeInv;
    }
  }

  lemma ErrIsDone(p: Pair, ev: Events, o: Oracle)
    ensures ev.err ==> Process(p, ev, o).done
  {
  }

  lemma NotBrokenYet(p: Pair)
    requires SafeInv(p) && !p.terminated
    ensures !HasBroken(p)
  {
  }

  lemma ExpireTerminates(p: Pair)
    requires Inv(p)
    ensures Act(p, Expire).terminated <==> p.terminated || Abnormal(p, Expire) || HasBroken(Act(p, Expire))
  {
    hide LinkInv, FlowInv, Coherent, EdgeInv, Terminate, HoldPeer, ReleasePeer, Hold, OnTimeout;
    if p.me.registered && p.me.deadline <= p.clock {
      ListedFacts(p);
      HoldSafe(p);
      OnTimeoutTerminates(Hold(p));
    }
  }

  lemma OnTimeoutTerminates(p: Pair)
    requires SafeInv(p) && p.me.registered && p.me.temps > 0
    ensures OnTimeout(p).terminated
  {
    HoldPeerSafe(p);
    hide Splits, Carried, SentPrefix;
    TerminateSafe(HoldPeer(p));
    hide Terminate, HoldPeer;
  }

  /** Some step of `ls` handles an error event or an expiry. */
  predicate Abnormally(p: Pair, ls: seq<Label>)
    decreases |ls|
  {
    ls != [] &&
    var k := |ls| - 1;
    var q := Run(p, ls[..k]);
    Abnormally(p, ls[..k]) || Abnormal(if ls[k].onMe then q else Swap(q), ls[k].a)
  }

  lemma {:induction false} RunTerminates(p: Pair, ls: seq<Label>)
    requires Inv(p) && !p.terminated
    ensures Run(p, ls).terminated <==> HasBroken(Run(p, ls)) || Abnormally(p, ls)
    decreases |ls|
  {
    if ls == [] {
      NotBrokenYet(p);
    } else {
      var k := |ls| - 1;
      var q := Run(p, ls[..k]);
      RunKeeps(p, ls[..k]);
      RunTerminates(p, ls[..k]);
      InvSwaps(q);
      hide Inv, Act, Abnormal;
      var q1 := if ls[k].onMe then q else Swap(q);
      ActTerminates(q1, ls[k].a);
      if q1.terminated { AfterTheEnd(q1, ls[k].a); }
    }
  }

  /** After the end nothing more is reported. */
  lemma AfterTheEnd(p: Pair, a: Action)
    requires Inv(p) && p.terminated
    ensures HasBroken(Act(p, a)) == HasBroken(p)
  {
    hide Splits, Carried, SentPrefix, FlowInv, Coherent, EdgeInv, OnEvent, OnTimeout;
  }

  /** Over every run: a connection is terminated, which discards what is buffered, only because splice()
      has reported an error, or epoll one, or a link has expired; and each of these terminates it. */
  lemma TerminatedIff(s: Setup, ls: seq<Label>)
    requires ValidSetup(s)
    ensures var p := Reach(s, ls);
            p.terminated <==> p.me.out.broke || p.peer.out.broke || Abnormally(Reach(s, []), ls)
  {
    ReachInv(s, []);
    assert !Reach(s, []).terminated;
    hide Inv;
    RunTerminates(Reach(s, []), ls);
  }
}
