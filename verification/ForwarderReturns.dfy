/** What LinkEventHandler's Process returns, against what is said of it, and how much work a connection
    can cause. */
module ForwarderReturns {
  import opened Common
  import opened ForwarderModel
  import opened ForwarderProofs

  // ---------------------------------------------------------------------------------------------
  // What Process returns

  lemma {:induction false} EnvTerminates(p: Pair, es: seq<SideEnv>)
    ensures ExecEnv(p, es).terminated == p.terminated
    decreases |es|
  {
    hide LinkEnv;
    if es != [] { EnvTerminates(p, es[..|es| - 1]); }
  }

  lemma CloseTerminates(p: Pair)
    ensures Close(p).terminated == p.terminated
  {
    hide Unref, Unlisted;
  }

  lemma FillTerminates(p: Pair, c: InChoice)
    ensures Fill(p, c).1 != Broken ==> Fill(p, c).0.terminated == p.terminated
  {
    hide Close, Arm, WriteFrom;
    forall q: Pair ensures Close(q).terminated == q.terminated { CloseTerminates(q); }
  }

  lemma FlushTerminates(p: Pair, c: OutChoice)
    ensures Flush(p, c).1 != Broken ==> Flush(p, c).0.terminated == p.terminated
  {
    hide Close, Arm, ReadTo;
    forall q: Pair ensures Close(q).terminated == q.terminated { CloseTerminates(q); }
  }

  lemma {:induction false} ForwardTerminates(p: Pair, ios: seq<Io>)
    ensures !Forward(p, ios).broken ==> Forward(p, ios).p.terminated == p.terminated
    decreases |ios|
  {
    if ios != [] {
      hide Fill, Flush, ExecEnv;
      var io := ios[0];
      var p1 := Fill(ExecEnv(p, io.envIn), io.in_).0;
      EnvTerminates(p, io.envIn);
      FillTerminates(ExecEnv(p, io.envIn), io.in_);
      EnvTerminates(p1, io.envOut);
      FlushTerminates(ExecEnv(p1, io.envOut), io.out);
      ForwardTerminates(ForwardStep(p, io).0, ios[1..]);
    }
  }

  /** On a pair that has been terminated there is nothing to forward. */
  lemma ForwardAfterEnd(p: Pair, ios: seq<Io>)
    requires SafeInv(p) && Held(p) && p.terminated
    ensures var r := Forward(p, ios); !r.moved && !r.broken && r.p.terminated
  {
    if ios != [] {
      var io := ios[0];
      var p0 := ExecEnv(p, io.envIn);
      ExecEnvSafe(p, io.envIn);
      EnvTerminates(p, io.envIn);
      assert !p0.peer.readable && Fill(p0, io.in_) == (Check(p0, !p0.me.freed && !p0.peer.freed), Quiet);
      FillSafe(p0, io.in_);
      var p1 := Fill(p0, io.in_).0;
      var p2 := ExecEnv(p1, io.envOut);
      ExecEnvSafe(p1, io.envOut);
      EnvTerminates(p1, io.envOut);
      hide ExecEnv, Fill, LinkInv, FlowInv, Coherent;
      assert !p2.me.writable;
    }
  }

  /** The two forwarding calls of an event for both directions, in the order in which they run. */
  function FirstCall(p: Pair, o: Oracle): Forwarded {
    if o.inFirst then Forward(Swap(p), o.toPeer) else Forward(p, o.toMe)
  }

  function SecondCall(p: Pair, o: Oracle): Forwarded {
    Forward(Swap(FirstCall(p, o).p), if o.inFirst then o.toMe else o.toPeer)
  }

  /** Process is said to return true only if the link is not broken.  It returns true of a broken pair
      exactly when the event is for both directions, the first call has moved something, and the second
      one has then broken the pair. */
  lemma TrueThoughBroken(p: Pair, ev: Events, o: Oracle)
    requires SafeInv(p) && Held(p) && !p.terminated && Process(p, ev, o).done
    ensures Process(p, ev, o).moved && Process(p, ev, o).p.terminated
            <==> !ev.err && ev.in_ && ev.out && FirstCall(p, o).moved && SecondCall(p, o).broken
  {
    hide Splits, Carried, SentPrefix, SafeInv, Forward, Terminate;
    if !ev.err {
      var c1, c2 := if o.inFirst then ev.in_ else ev.out, if o.inFirst then ev.out else ev.in_;
      var p1 := if o.inFirst then Swap(p) else p;
      var ios1, ios2 := if o.inFirst then o.toPeer else o.toMe, if o.inFirst then o.toMe else o.toPeer;
      SwapSafe(p);
      ForwardSafe(p1, ios1);
      ForwardTerminates(p1, ios1);
      var r1 := ForwardIf(c1, p1, ios1);
      SwapSafe(r1.p);
      ForwardSafe(Swap(r1.p), ios2);
      ForwardTerminates(Swap(r1.p), ios2);
      if r1.p.terminated { ForwardAfterEnd(Swap(r1.p), ios2); }
      BrokenIsFalse(p1, ios1);
      BrokenIsFalse(Swap(r1.p), ios2);
    }
  }

  lemma {:induction false} BrokenIsFalse(p: Pair, ios: seq<Io>)
    ensures Forward(p, ios).broken ==> !Forward(p, ios).moved
    decreases |ios|
  {
    hide ForwardStep;
    if ios != [] { BrokenIsFalse(ForwardStep(p, ios[0]).0, ios[1..]); }
  }

  // ---------------------------------------------------------------------------------------------
  // When it can happen

  /** A flow whose sink is closed neither moves nor breaks: its source is closed, too. */
  lemma ClosedSinkIdle(p: Pair, ios: seq<Io>)
    requires SafeInv(p) && Held(p) && !p.terminated && !p.me.writable
    ensures var r := Forward(p, ios); !r.moved && !r.broken
  {
    if ios != [] {
      var io := ios[0];
      var p0 := ExecEnv(p, io.envIn);
      ExecEnvSafe(p, io.envIn);
      SameFlags(p, io.envIn);
      assert !p0.peer.readable && Fill(p0, io.in_) == (Check(p0, !p0.me.freed && !p0.peer.freed), Quiet);
      var p1 := Fill(p0, io.in_).0;
      SameFlags(p1, io.envOut);
      hide ExecEnv, Fill, LinkInv, FlowInv, Coherent;
      assert !ExecEnv(p1, io.envOut).me.writable;
    }
  }

  /** The kernel changes nothing but the sockets. */
  lemma {:induction false} SameFlags(p: Pair, es: seq<SideEnv>)
    ensures var q := ExecEnv(p, es);
            && q == p.(me := p.me.(sock := q.me.sock), peer := p.peer.(sock := q.peer.sock))
    decreases |es|
  {
    hide PairEnv;
    if es != [] {
      SameFlags(p, es[..|es| - 1]);
      StepSameFlags(ExecEnv(p, es[..|es| - 1]), es[|es| - 1]);
    }
  }

  lemma StepSameFlags(p: Pair, e: SideEnv)
    ensures var q := PairEnv(p, e);
            && q == p.(me := p.me.(sock := q.me.sock), peer := p.peer.(sock := q.peer.sock))
  {
    hide SockEnv;
  }

  /** Forwarding in one direction never closes the other direction's sink, unless it breaks the pair;
      and it opens nothing. */
  predicate OtherSink(p: Pair, q: Pair, f: Flow) {
    (f != Broken ==> q.peer.writable == p.peer.writable)
  }

  lemma CloseKeepsPeer(p: Pair)
    ensures Close(p).peer.writable == p.peer.writable && Close(p).peer.readable == p.peer.readable
  {
    hide Unlisted, DestroyBuf;
  }

  lemma CloseForReadingKeepsSink(p: Pair)
    ensures CloseForReading(p).me.writable == p.me.writable
  {
    hide DestroyBuf;
  }

  lemma FillOtherSink(p: Pair, c: InChoice)
    ensures OtherSink(p, Fill(p, c).0, Fill(p, c).1)
  {
    hide CloseForReading, WriteFrom, Terminate;
    forall q: Pair ensures CloseForReading(q).me.writable == q.me.writable { CloseForReadingKeepsSink(q); }
  }

  lemma FlushOtherSink(p: Pair, c: OutChoice)
    ensures OtherSink(p, Flush(p, c).0, Flush(p, c).1)
  {
    hide Close, ReadTo, Terminate, Arm;
    forall q: Pair ensures Close(q).peer.writable == q.peer.writable { CloseKeepsPeer(q); }
  }

  lemma {:induction false} ForwardOtherSink(p: Pair, ios: seq<Io>)
    ensures !Forward(p, ios).broken ==> Forward(p, ios).p.peer.writable == p.peer.writable
    decreases |ios|
  {
    if ios != [] {
      hide Fill, Flush, ExecEnv;
      var io := ios[0];
      var p1 := Fill(ExecEnv(p, io.envIn), io.in_).0;
      SameFlags(p, io.envIn);
      FillOtherSink(ExecEnv(p, io.envIn), io.in_);
      SameFlags(p1, io.envOut);
      FlushOtherSink(ExecEnv(p1, io.envOut), io.out);
      ForwardOtherSink(ForwardStep(p, io).0, ios[1..]);
    }
  }

  /** A kernel that reports no error: it says EAGAIN where it can. */
  function PoliteIn(b: Buf, s: Sock): InChoice {
    if InPossible(b, s, InAgain) then InAgain
    else if s.avail != [] && b.size < b.capacity then
      InData(if |s.avail| <= b.capacity - b.size then |s.avail| else b.capacity - b.size, false)
    else InEof
  }

  function PoliteOut(b: Buf, s: Sock): OutChoice { if s.roomy then OutData(|b.content|, false, true) else OutAgain }

  lemma FillPolite(p: Pair)
    requires SafeInv(p) && Held(p)
    ensures Fill(p, PoliteIn(p.me.out, p.peer.sock)).1 != Broken
  {
    hide Splits, Carried, SentPrefix, Terminate, CloseForReading;
  }

  lemma FlushPolite(p: Pair)
    requires SafeInv(p) && Held(p)
    ensures Flush(p, PoliteOut(p.me.out, p.me.sock)).1 != Broken
    ensures p.me.writable && p.me.sock.roomy && (p.me.out.size > 0 || !p.me.out.wr) ==>
              Flush(p, PoliteOut(p.me.out, p.me.sock)).1 == Moved
  {
    hide Splits, Carried, SentPrefix, Terminate, CloseForWriting;
  }

  /** An iteration in which the kernel does `envIn` and `envOut` and reports no error. */
  function PoliteIo(p: Pair, envIn: seq<SideEnv>, envOut: seq<SideEnv>): Io {
    var p0 := ExecEnv(p, envIn);
    var in_ := PoliteIn(p0.me.out, p0.peer.sock);
    var p2 := ExecEnv(Fill(p0, in_).0, envOut);
    Io(envIn, in_, envOut, PoliteOut(p2.me.out, p2.me.sock))
  }

  lemma StepPolite(p: Pair, envIn: seq<SideEnv>, envOut: seq<SideEnv>)
    requires SafeInv(p) && Held(p)
    ensures ForwardStep(p, PoliteIo(p, envIn, envOut)).1 != Broken
  {
    hide SafeInv, Fill, Flush, ExecEnv, PoliteIn, PoliteOut, EnvRel, StepRel;
    var p0 := ExecEnv(p, envIn);
    PoliteMiddle(p, envIn, envOut);
    FillPolite(p0);
    var p1 := Fill(p0, PoliteIn(p0.me.out, p0.peer.sock)).0;
    FlushPolite(ExecEnv(p1, envOut));
  }

  lemma PoliteMiddle(p: Pair, envIn: seq<SideEnv>, envOut: seq<SideEnv>)
    requires SafeInv(p) && Held(p)
    ensures var p0 := ExecEnv(p, envIn);
            var p2 := ExecEnv(Fill(p0, PoliteIn(p0.me.out, p0.peer.sock)).0, envOut);
            SafeInv(p0) && Held(p0) && SafeInv(p2) && Held(p2)
  {
    hide SafeInv, Fill, ExecEnv, PoliteIn;
    var p0 := ExecEnv(p, envIn);
    ExecEnvSafe(p, envIn);
    SameFlags(p, envIn);
    FillSafe(p0, PoliteIn(p0.me.out, p0.peer.sock));
    var p1 := Fill(p0, PoliteIn(p0.me.out, p0.peer.sock)).0;
    ExecEnvSafe(p1, envOut);
    SameFlags(p1, envOut);
  }

  /** From any state the loop can come to its end without an error. */
  lemma {:induction false} CanEnd(p: Pair) returns (ios: seq<Io>)
    requires SafeInv(p) && Held(p)
    ensures Forward(p, ios).done && !Forward(p, ios).broken
    decreases Measure(p)
  {
    var io := PoliteIo(p, [], []);
    StepPolite(p, [], []);
    ForwardStepSafe(p, io);
    MeasureNonNegative(ForwardStep(p, io).0);
    hide SafeInv, ForwardStep, PoliteIo, Measure;
    if ForwardStep(p, io).1 == Moved {
      ios := CanEnd(ForwardStep(p, io).0);
      ios := [io] + ios;
    } else {
      ios := [io];
    }
  }

  /** What the kernel can do to make a flow move: let something arrive at its source, drain its sink. */
  function Wake(p: Pair): seq<SideEnv> {
    var s := p.peer.sock;
    if InReady(s) then [] else [SideEnv(false, if s.net != [] then Arrive(|s.net|) else PeerEof)]
  }

  const DRAIN: seq<SideEnv> := [SideEnv(true, Drain)]

  lemma WakeReadies(p: Pair)
    ensures InReady(ExecEnv(p, Wake(p)).peer.sock)
  {
    assert ExecEnv(p, []) == p;
  }

  lemma DrainReadies(p: Pair)
    ensures ExecEnv(p, DRAIN).me.sock.roomy
  {
    assert ExecEnv(p, []) == p && DRAIN[..0] == [];
  }

  lemma FillMoves(p: Pair)
    requires SafeInv(p) && Held(p) && p.peer.readable && InReady(p.peer.sock) && p.me.out.size == 0
    ensures Fill(p, PoliteIn(p.me.out, p.peer.sock)).1 == Moved
  {
    hide Splits, Carried, SentPrefix, Terminate, CloseForReading;
    assert !p.terminated;
  }

  lemma FillKeepsSink(p: Pair, c: InChoice)
    requires SafeInv(p) && Held(p)
    ensures var (q, f) := Fill(p, c);
            f == Quiet ==> q.me == p.me && q.terminated == p.terminated && q.peer.readable == p.peer.readable
    ensures var (q, f) := Fill(p, c); f == Quiet && !p.terminated ==> q.me.out.wr == p.peer.readable
  {
    hide Splits, Carried, SentPrefix, Terminate, CloseForReading;
  }

  /** If its sink is open, a flow can always be made to move. */
  lemma StepMoves(p: Pair)
    requires SafeInv(p) && Held(p) && !p.terminated && p.me.writable
    ensures ForwardStep(p, PoliteIo(p, Wake(p), DRAIN)).1 == Moved
  {
    hide SafeInv, Fill, Flush, ExecEnv, PoliteIn, PoliteOut, EnvRel, StepRel, Wake;
    StepPolite(p, Wake(p), DRAIN);
    var p0 := ExecEnv(p, Wake(p));
    SameFlags(p, Wake(p));
    WakeReadies(p);
    PoliteMiddle(p, Wake(p), DRAIN);
    var c := PoliteIn(p0.me.out, p0.peer.sock);
    FillPolite(p0);
    FillKeepsSink(p0, c);
    var p1 := Fill(p0, c).0;
    if p0.peer.readable && p0.me.out.size == 0 { FillMoves(p0); }
    SameFlags(p1, DRAIN);
    DrainReadies(p1);
    FlushPolite(ExecEnv(p1, DRAIN));
    SizeNonNegative(p0);
  }

  lemma SizeNonNegative(p: Pair)
    requires SafeInv(p)
    ensures p.me.out.size >= 0
  {
  }

  lemma CanMove(p: Pair) returns (ios: seq<Io>)
    requires SafeInv(p) && Held(p) && !p.terminated && p.me.writable
    ensures var r := Forward(p, ios); r.done && r.moved && !r.broken
  {
    var io := PoliteIo(p, Wake(p), DRAIN);
    StepMoves(p);
    ForwardStepSafe(p, io);
    hide SafeInv, ForwardStep, PoliteIo, Wake;
    var rest := CanEnd(ForwardStep(p, io).0);
    ios := [io] + rest;
    assert ios[1..] == rest;
  }

  /** Between events, a flow whose sink is open can always break. */
  lemma CanBreak(p: Pair)
    requires SafeInv(p) && Held(p) && !p.terminated && p.me.writable && EdgeInv(p)
    ensures var r := Forward(p, [Io([], InError, [], OutError(false))]); r.done && r.broken
  {
    hide SafeInv, EdgeInv, Fill, Flush;
    var io := Io([], InError, [], OutError(false));
    assert ExecEnv(p, []) == p && ExecEnv(Fill(p, InError).0, []) == Fill(p, InError).0;
    FillBreaks(p);
    FlushBreaks(p);
    assert ForwardStep(p, io).1 == Broken;
  }

  /** A failing read breaks the pair, unless there is nothing to read into or from. */
  lemma FillBreaks(p: Pair)
    requires SafeInv(p) && Held(p) && !p.terminated && p.me.writable && EdgeInv(p)
    ensures Fill(p, InError).1 == Broken || (Fill(p, InError) == (p, Quiet) && p.me.out.size > 0)
  {
    hide Splits, Carried, SentPrefix, Terminate;
  }

  lemma FlushBreaks(p: Pair)
    requires SafeInv(p) && Held(p) && p.me.writable
    ensures p.me.out.size > 0 ==> Flush(p, OutError(false)).1 == Broken
  {
    hide Splits, Carried, SentPrefix, Terminate;
  }

  lemma BothCallsCan(p: Pair) returns (o: Oracle)
    requires SafeInv(p) && Held(p) && !p.terminated && EdgeInv(Swap(p)) && p.me.writable && p.peer.writable
    ensures !o.inFirst && FirstCall(p, o).done && FirstCall(p, o).moved && SecondCall(p, o).done && SecondCall(p, o).broken
  {
    hide SafeInv, EdgeInv, Forward, StrictEdge;
    var ios := CanMove(p);
    var r := Forward(p, ios);
    ForwardSafe(p, ios);
    ForwardTerminates(p, ios);
    ForwardOtherSink(p, ios);
    SwapSafe(r.p);
    CanBreak(Swap(r.p));
    o := Oracle(false, ios, [Io([], InError, [], OutError(false))]);
  }

  /** An event of a reachable pair is being handled; some behaviour of the kernel makes Process return
      true although it has broken the pair, if and only if the event is for both directions and both
      links are still open for writing. */
  lemma TrueThoughBrokenIff(s: Setup, ls: seq<Label>, client: bool)
    requires ValidSetup(s)
    requires var p := if client then Reach(s, ls) else Swap(Reach(s, ls)); p.me.batch.Some? && p.me.registered
    ensures var p := if client then Reach(s, ls) else Swap(Reach(s, ls));
            var ev := p.me.batch.value;
            (exists o :: ReturnsTrueBroken(HoldPeer(p), ev, o)) <==> !ev.err && ev.in_ && ev.out && p.me.writable && p.peer.writable
  {
    ReachInv(s, ls);
    hide Reach;
    HandlingIff(if client then Reach(s, ls) else Swap(Reach(s, ls)));
  }

  predicate ReturnsTrueBroken(p: Pair, ev: Events, o: Oracle) {
    var r := Process(p, ev, o); r.done && r.moved && r.p.terminated
  }

  lemma HandlingIff(q: Pair)
    requires Inv(q) && q.me.batch.Some? && q.me.registered
    ensures var ev := q.me.batch.value;
            (exists o :: ReturnsTrueBroken(HoldPeer(q), ev, o)) <==> !ev.err && ev.in_ && ev.out && q.me.writable && q.peer.writable
  {
    var ev, p := q.me.batch.value, HoldPeer(q);
    HandlingFacts(q);
    hide SafeInv, Inv, EdgeInv, HoldPeer, Process, Forward, FirstCall, SecondCall;
    if !ev.err && ev.in_ && ev.out && q.me.writable && q.peer.writable {
      var o := BothCallsCan(p);
      BothCalls(p, ev, o);
      TrueThoughBroken(p, ev, o);
      assert ReturnsTrueBroken(p, ev, o);
    } else {
      forall o ensures !ReturnsTrueBroken(p, ev, o) { NotTrueBroken(p, ev, o); }
    }
  }

  lemma HandlingFacts(q: Pair)
    requires Inv(q) && q.me.batch.Some? && q.me.registered
    ensures var p := HoldPeer(q);
            && SafeInv(p) && Held(p) && !p.terminated && EdgeInv(p) && EdgeInv(Swap(p))
            && p.me.writable == q.me.writable && p.peer.writable == q.peer.writable
  {
    hide Splits, Carried, SentPrefix, EdgeInv;
    HoldPeerSafe(q);
  }

  lemma BothCalls(p: Pair, ev: Events, o: Oracle)
    requires !o.inFirst && !ev.err && ev.in_ && ev.out
    ensures Process(p, ev, o).done == (FirstCall(p, o).done && SecondCall(p, o).done)
  {
    hide Forward;
  }

  lemma NotTrueBroken(p: Pair, ev: Events, o: Oracle)
    requires SafeInv(p) && Held(p) && !p.terminated
    requires ev.err || !ev.in_ || !ev.out || !p.me.writable || !p.peer.writable
    ensures !ReturnsTrueBroken(p, ev, o)
  {
    hide SafeInv, Process, Forward;
    if Process(p, ev, o).done {
      TrueThoughBroken(p, ev, o);
      var p1 := if o.inFirst then Swap(p) else p;
      var ios1 := if o.inFirst then o.toPeer else o.toMe;
      var ios2 := if o.inFirst then o.toMe else o.toPeer;
      SwapSafe(p);
      ForwardSafe(p1, ios1);
      ForwardTerminates(p1, ios1);
      ForwardOtherSink(p1, ios1);
      if !p1.me.writable { ClosedSinkIdle(p1, ios1); }
      var r := Forward(p1, ios1);
      BrokenIsFalse(p1, ios1);
      SwapSafe(r.p);
      if !r.broken && !p1.peer.writable { ClosedSinkIdle(Swap(r.p), ios2); }
    }
  }

  /** It happens in practice: the response goes out to the client, and then reading from it fails. */
  lemma TrueThoughBrokenHappens()
    ensures ReturnsTrueBroken(Greeted(), Events(false, true, true), Unlucky())
  {
    hide SafeInv, Held, Forward, Greeted, Process;
    var p, o, ev := Greeted(), Unlucky(), Events(false, true, true);
    GreetedSafe();
    GreetingGoesOut(p, o.toMe);
    ReadFails(Swap(FirstCall(p, o).p), o.toPeer);
    BothCalls(p, ev, o);
    TrueThoughBroken(p, ev, o);
  }

  function Unlucky(): Oracle {
    Oracle(false,
           [Io([], InAgain, [], OutData(19, false, true)), Io([], InAgain, [], OutAgain)],
           [Io([], InError, [], OutAgain)])
  }

  const SILENT := Sock([], [], [], false, true, false, false, [], [], false, false, 0)

  /** A new pair of silent sockets, for the client's of which epoll has just reported both events. */
  function Greeted(): Pair {
    HoldPeer(Reach(Setup(SILENT, SILENT, 0, 1, 19, 1), [Label(true, Collect(Events(false, true, true)))]))
  }

  lemma GreetedSafe()
    ensures var p := Greeted();
            && SafeInv(p) && Held(p) && !p.terminated && p.me.readable && p.me.writable && p.peer.readable
            && p.me.out.size == p.me.out.capacity == 19 && p.me.out.content == RESPONSE && p.me.out.wr && p.me.sock.roomy
            && p.peer.sock.avail == [] && !p.peer.sock.eof && p.peer.out.size == 0 && p.peer.out.capacity == 1
  {
    var s, l := Setup(SILENT, SILENT, 0, 1, 19, 1), Label(true, Collect(Events(false, true, true)));
    var q := Reach(s, [l]);
    hide Inv, SafeInv, Held, EdgeInv, Reach, HoldPeer;
    CollectedFacts(q);
    ReachInv(s, [l]);
    HandlingFacts(q);
  }

  /** The pair that Greeted() is about, before its event is handled. */
  lemma CollectedFacts(q: Pair)
    requires q == Reach(Setup(SILENT, SILENT, 0, 1, 19, 1), [Label(true, Collect(Events(false, true, true)))])
    ensures q.me.batch == Some(Events(false, true, true)) && q.me.registered
    ensures q.me.readable && q.me.writable && q.peer.readable
    ensures q.me.out.size == q.me.out.capacity == 19 && q.me.out.content == RESPONSE && q.me.out.wr && q.me.sock.roomy
    ensures q.peer.sock.avail == [] && !q.peer.sock.eof && q.peer.out.size == 0 && q.peer.out.capacity == 1
    ensures var p := HoldPeer(q);
            p == Check(Check(q, !q.peer.freed && q.peer.refs >= 0), true)
                 .(peer := q.peer.(refs := q.peer.refs + 1, temps := q.peer.temps + 1))
    ensures ValidSetup(Setup(SILENT, SILENT, 0, 1, 19, 1))
  {
    OneStep(Setup(SILENT, SILENT, 0, 1, 19, 1), Label(true, Collect(Events(false, true, true))));
  }

  lemma OneStep(s: Setup, l: Label)
    ensures Reach(s, [l]) == Step(Reach(s, []), l)
  {
    assert [l][..0] == [];
    hide Step;
  }

  lemma GreetingGoesOut(p: Pair, ios: seq<Io>)
    requires p.peer.readable && p.me.writable && p.me.readable
    requires p.me.out.size == p.me.out.capacity == 19 && p.me.out.content == RESPONSE && p.me.out.wr && p.me.sock.roomy
    requires p.peer.sock.avail == [] && !p.peer.sock.eof
    requires ios == [Io([], InAgain, [], OutData(19, false, true)), Io([], InAgain, [], OutAgain)]
    ensures var r := Forward(p, ios);
            r.done && r.moved && r.p.me.readable && r.p.peer.out == p.peer.out
  {
    hide Terminate, CloseForReading, CloseForWriting;
    var (q, f) := ForwardStep(p, ios[0]);
    assert f == Moved && q.me.out.size == 0 && q.me.out.wr && q.peer.out == p.peer.out && q.me.readable;
    var last := ios[1..];
    assert last == [Io([], InAgain, [], OutAgain)];
    assert ForwardStep(q, last[0]).1 == Quiet;
    assert Forward(q, last).done && !Forward(q, last).broken;
  }

  lemma ReadFails(p: Pair, ios: seq<Io>)
    requires p.peer.readable && p.me.out.size == 0 && p.me.out.capacity == 1
    requires ios == [Io([], InError, [], OutAgain)]
    ensures Forward(p, ios).done && Forward(p, ios).broken
  {
    hide Terminate;
    assert Fill(p, InError).1 == Broken;
    assert ForwardStep(p, ios[0]).1 == Broken;
  }

  // ---------------------------------------------------------------------------------------------
  // How much work a connection can cause

  /** Bytes are read and written but never taken back, and pipe ends are closed but never opened. */
  predicate Onward(l: Link, l': Link) {
    && |l.sock.received| <= |l'.sock.received| && |l.sock.sent| <= |l'.sock.sent|
    && (l'.out.wr ==> l.out.wr) && (l'.out.rd ==> l.out.rd)
  }

  predicate BothOnward(p: Pair, q: Pair) { Onward(p.me, q.me) && Onward(p.peer, q.peer) }

  function Total(p: Pair): int { Progress(p) + Progress(Swap(p)) }

  lemma UnrefOnward(l: Link)
    ensures Onward(l, Unref(l))
  {
  }

  lemma CloseOnward(p: Pair)
    ensures BothOnward(p, Close(p))
  {
    hide Unref;
    forall l ensures Onward(l, Unref(l)) { UnrefOnward(l); }
  }

  lemma TerminateOnward(p: Pair)
    ensures BothOnward(p, Terminate(p))
  {
    hide Close;
    forall q ensures BothOnward(q, Close(q)) { CloseOnward(q); }
  }

  lemma CloseForReadingOnward(p: Pair)
    ensures BothOnward(p, CloseForReading(p))
  {
    hide Close;
    forall q ensures BothOnward(q, Close(q)) { CloseOnward(q); }
  }

  lemma CloseForWritingOnward(p: Pair)
    ensures BothOnward(p, CloseForWriting(p))
  {
    hide Close;
    forall q ensures BothOnward(q, Close(q)) { CloseOnward(q); }
  }

  lemma OnwardOnward(p: Pair, q: Pair, r: Pair)
    requires BothOnward(p, q) && BothOnward(q, r)
    ensures BothOnward(p, r)
  {
  }

  /** The pair when WriteFrom has returned. */
  function Written(p: Pair, c: InChoice): Pair {
    var r := WriteFrom(p.me.out, p.peer.sock, c);
    Check(Check(p, !p.me.freed && !p.peer.freed), r.ok && p.peer.sock.closes == 0)
      .(me := p.me.(out := r.buf), peer := p.peer.(sock := r.sock))
  }

  lemma WrittenOnward(p: Pair, c: InChoice)
    ensures BothOnward(p, Written(p, c))
  {
  }

  lemma FillOnward(p: Pair, c: InChoice)
    ensures BothOnward(p, Fill(p, c).0)
  {
    hide Terminate, CloseForReading, WriteFrom, Onward;
    var p1 := Written(p, c);
    WrittenOnward(p, c);
    TerminateOnward(p1);
    CloseForReadingOnward(Swap(p1));
    OnwardOnward(p, p1, Terminate(p1));
    OnwardOnward(p, p1, Swap(CloseForReading(Swap(p1))));
    OnwardSelf(p, Check(p, !p.me.freed && !p.peer.freed));
  }

  lemma OnwardSelf(p: Pair, q: Pair)
    requires q.me == p.me && q.peer == p.peer
    ensures BothOnward(p, q)
  {
  }

  /** The pair when ReadTo has returned. */
  function ReadOut(p: Pair, c: OutChoice): Pair {
    var r := ReadTo(p.me.out, p.me.sock, c);
    Check(Check(p, !p.me.freed && !p.peer.freed), r.ok && p.me.sock.closes == 0)
      .(me := p.me.(out := r.buf, sock := r.sock))
  }

  lemma ReadOutOnward(p: Pair, c: OutChoice)
    ensures BothOnward(p, ReadOut(p, c))
  {
  }

  lemma FlushOnward(p: Pair, c: OutChoice)
    ensures BothOnward(p, Flush(p, c).0)
  {
    hide Terminate, CloseForWriting, ReadTo, Onward;
    var p1 := ReadOut(p, c);
    ReadOutOnward(p, c);
    TerminateOnward(p1);
    CloseForWritingOnward(p1);
    OnwardOnward(p, p1, Terminate(p1));
    OnwardOnward(p, p1, CloseForWriting(p1));
    OnwardSelf(p, Check(p, !p.me.freed && !p.peer.freed));
  }

  lemma EnvStepOnward(p: Pair, e: SideEnv)
    ensures BothOnward(p, PairEnv(p, e))
  {
    hide SockEnv;
    var l := if e.onMe then p.me else p.peer;
    EnvKeepsBytes(l.sock, l.registered && l.maskIn, l.registered && l.maskOut, e.e);
  }

  lemma {:induction false} EnvOnward(p: Pair, es: seq<SideEnv>)
    ensures BothOnward(p, ExecEnv(p, es))
    decreases |es|
  {
    hide PairEnv;
    if es != [] {
      EnvOnward(p, es[..|es| - 1]);
      EnvStepOnward(ExecEnv(p, es[..|es| - 1]), es[|es| - 1]);
    }
  }

  lemma StepOnward(p: Pair, io: Io)
    ensures BothOnward(p, ForwardStep(p, io).0)
  {
    hide Fill, Flush, ExecEnv, BothOnward;
    var p0 := ExecEnv(p, io.envIn);
    EnvOnward(p, io.envIn);
    FillOnward(p0, io.in_);
    var p1 := Fill(p0, io.in_).0;
    OnwardOnward(p, p0, p1);
    var p2 := ExecEnv(p1, io.envOut);
    EnvOnward(p1, io.envOut);
    OnwardOnward(p, p1, p2);
    FlushOnward(p2, io.out);
    OnwardOnward(p, p2, Flush(p2, io.out).0);
  }

  lemma {:induction false} ForwardOnward(p: Pair, ios: seq<Io>)
    ensures BothOnward(p, Forward(p, ios).p)
    decreases |ios|
  {
    if ios != [] {
      var q := ForwardStep(p, ios[0]).0;
      StepOnward(p, ios[0]);
      hide ForwardStep, Onward;
      ForwardOnward(q, ios[1..]);
      OnwardOnward(p, q, Forward(q, ios[1..]).p);
    }
  }

  lemma ProcessOnward(p: Pair, ev: Events, o: Oracle)
    ensures BothOnward(p, Process(p, ev, o).p)
  {
    hide Terminate, Forward;
    TerminateOnward(p);
    forall q, ios ensures BothOnward(q, Forward(q, ios).p) { ForwardOnward(q, ios); }
  }

  lemma ReleaseOnward(p: Pair)
    ensures BothOnward(p, Release(p)) && BothOnward(p, ReleasePeer(p))
  {
    hide Unref;
    forall l ensures Onward(l, Unref(l)) { UnrefOnward(l); }
  }

  lemma HoldOnward(p: Pair)
    ensures BothOnward(p, HoldPeer(Check(p, !p.me.freed)))
  {
  }

  lemma RefreshOnward(p: Pair)
    ensures var q := RefreshBoth(p); BothOnward(p, Check(q, !q.me.freed))
    ensures BothOnward(p, Check(p, !p.me.freed))
  {
    var q := RefreshIfOpen(p);
    RefreshOneOnward(p);
    RefreshOneOnward(Swap(q));
    hide RefreshIfOpen;
    OnwardOnward(p, q, RefreshBoth(p));
  }

  lemma RefreshOneOnward(p: Pair)
    ensures BothOnward(p, RefreshIfOpen(p))
  {
  }

  lemma OnEventOnward(p: Pair, ev: Events, o: Oracle)
    ensures BothOnward(p, OnEvent(p, ev, o).p)
  {
    hide Process, ReleasePeer, HoldPeer, RefreshBoth, BothOnward, Check;
    var p1 := HoldPeer(Check(p, !p.me.freed));
    HoldOnward(p);
    ProcessOnward(p1, ev, o);
    var r := Process(p1, ev, o);
    var q := if r.moved then RefreshBoth(r.p) else r.p;
    var q1 := Check(q, !q.me.freed);
    RefreshOnward(r.p);
    ReleaseOnward(q1);
    OnwardOnward(p, p1, r.p);
    OnwardOnward(p, r.p, q1);
    OnwardOnward(p, q1, ReleasePeer(q1));
  }

  lemma OnTimeoutOnward(p: Pair)
    ensures BothOnward(p, OnTimeout(p))
  {
    hide Terminate, ReleasePeer;
    var p1 := HoldPeer(Check(p, !p.me.freed));
    TerminateOnward(p1);
    ReleaseOnward(Check(Terminate(p1), !Terminate(p1).me.freed));
  }

  lemma ActOnward(p: Pair, a: Action)
    ensures BothOnward(p, Act(p, a))
  {
    hide OnEvent, OnTimeout, Release, Unref;
    forall l ensures Onward(l, Unref(l)) { UnrefOnward(l); }
    match a
    case Kernel(e) => EnvStepOnward(p, SideEnv(true, e));
    case Deliver(o) => if p.me.batch.Some? { OnEventOnward(Check(p, !p.me.freed), p.me.batch.value, o); }
    case Expire =>
      var q := OnTimeout(Hold(p));
      OnTimeoutOnward(Hold(p));
      ReleaseOnward(if q.me.registered then LoopRefresh(q) else Check(q, !q.me.freed));
    case _ =>
  }

  /** The step handles an event of `me`, with result true. */
  predicate Moves(p: Pair, a: Action) {
    a.Deliver? && p.me.batch.Some? && p.me.registered
    && var r := OnEvent(p, p.me.batch.value, a.o); r.done && r.moved
  }

  lemma ProcessAdvances(p: Pair, ev: Events, o: Oracle)
    requires SafeInv(p) && Held(p)
    ensures var r := Process(p, ev, o); r.done && r.moved ==> Total(r.p) > Total(p)
  {
    hide SafeInv, Forward, Terminate, Progress, StrictEdge, EdgeInv;
    if !ev.err {
      var p1 := if o.inFirst then Swap(p) else p;
      var c1, c2 := if o.inFirst then ev.in_ else ev.out, if o.inFirst then ev.out else ev.in_;
      var ios1 := if o.inFirst then o.toPeer else o.toMe;
      var ios2 := if o.inFirst then o.toMe else o.toPeer;
      SwapSafe(p);
      CallAdvances(c1, p1, ios1);
      ForwardIfSafe(c1, p1, ios1);
      var r1 := ForwardIf(c1, p1, ios1);
      SwapSafe(r1.p);
      CallAdvances(c2, Swap(r1.p), ios2);
      TotalSwaps(p);
      TotalSwaps(r1.p);
      TotalSwaps(ForwardIf(c2, Swap(r1.p), ios2).p);
    }
  }

  lemma TotalSwaps(p: Pair)
    ensures Total(Swap(p)) == Total(p)
  {
  }

  lemma CallAdvances(c: bool, p: Pair, ios: seq<Io>)
    requires SafeInv(p) && Held(p)
    ensures var r := ForwardIf(c, p, ios); Total(r.p) >= Total(p) && (r.done && r.moved ==> Total(r.p) > Total(p))
  {
    hide SafeInv, Forward;
    ForwardOnward(p, ios);
    ForwardResult(p, ios);
    BrokenIsFalse(p, ios);
  }

  lemma OnwardTotal(p: Pair, q: Pair)
    requires BothOnward(p, q)
    ensures Total(q) >= Total(p)
  {
  }

  lemma ActAdvances(p: Pair, a: Action)
    requires Inv(p)
    ensures Total(Act(p, a)) >= Total(p) + if Moves(p, a) then 1 else 0
  {
    ActOnward(p, a);
    OnwardTotal(p, Act(p, a));
    if Moves(p, a) {
      var ev := p.me.batch.value;
      HandlingFacts(p);
      hide SafeInv, Inv, Process, EdgeInv, Total, Onward;
      var p1 := HoldPeer(p);
      ProcessAdvances(p1, ev, a.o);
      DeliverTotal(p, a.o);
    }
  }

  /** Around Process nothing of the flows changes back. */
  lemma DeliverTotal(p: Pair, o: Oracle)
    requires Inv(p) && Moves(p, Deliver(o))
    ensures var r := Process(HoldPeer(p), p.me.batch.value, o);
            r.done && r.moved && Total(Act(p, Deliver(o))) >= Total(r.p) && Total(HoldPeer(p)) == Total(p)
  {
    var r := Process(HoldPeer(p), p.me.batch.value, o);
    AliveWhileRegistered(p);
    hide Inv, Process, ReleasePeer, RefreshBoth, DecRef, Total;
    assert Check(p, !p.me.freed) == p;
    AfterProcess(p, r);
    HoldTotal(p);
  }

  lemma HoldTotal(p: Pair)
    ensures Total(HoldPeer(p)) == Total(p)
  {
  }

  lemma AliveWhileRegistered(p: Pair)
    requires Inv(p) && p.me.registered
    ensures !p.me.freed && !p.failed
  {
    hide FlowInv, Coherent, EdgeInv;
  }

  lemma AfterProcess(p: Pair, r: Processed)
    ensures var q := if r.moved then RefreshBoth(r.p) else r.p;
            var q1 := ReleasePeer(Check(q, !q.me.freed));
            Total(DecRef(q1.(me := q1.me.(batch := None)))) >= Total(r.p)
  {
    var q := if r.moved then RefreshBoth(r.p) else r.p;
    var q1 := ReleasePeer(Check(q, !q.me.freed));
    assert BothOnward(r.p, q);
    ReleaseOnward(Check(q, !q.me.freed));
    UnrefOnward(q1.me.(batch := None));
    hide Unref, ReleasePeer, RefreshBoth;
    OnwardTotal(r.p, DecRef(q1.(me := q1.me.(batch := None))));
  }

  /** How many of the steps handle an event with result true. */
  function MoveCount(p: Pair, ls: seq<Label>): nat
    decreases |ls|
  {
    if ls == [] then 0 else
    var k := |ls| - 1;
    var q := Run(p, ls[..k]);
    MoveCount(p, ls[..k]) + if Moves(if ls[k].onMe then q else Swap(q), ls[k].a) then 1 else 0
  }

  lemma {:induction false} RunAdvances(p: Pair, ls: seq<Label>)
    requires Inv(p)
    ensures Total(Run(p, ls)) >= Total(p) + MoveCount(p, ls)
    decreases |ls|
  {
    if ls != [] {
      var k := |ls| - 1;
      var q := Run(p, ls[..k]);
      RunKeeps(p, ls[..k]);
      RunAdvances(p, ls[..k]);
      InvSwaps(q);
      hide Inv, Act, Total, Moves;
      ActAdvances(if ls[k].onMe then q else Swap(q), ls[k].a);
      TotalSwaps(q);
      TotalSwaps(Act(Swap(q), ls[k].a));
    }
  }

  lemma InvSwaps(p: Pair)
    requires Inv(p)
    ensures Inv(Swap(p))
  {
    hide Splits, Carried, SentPrefix, EdgeInv;
  }

  lemma ReceivedFits(s: Sock)
    requires Splits(s.received, s.avail, s.net, s.stream)
    ensures |s.received| <= |s.stream|
  {
    assert |s.received + s.avail + s.net| == |s.stream|;
  }

  /** Over its whole life a connection causes a bounded number of events that move something, whatever
      the order of events, however small the pieces: two for each byte of either stream, one for each
      byte of the response, and one for each pipe end. */
  lemma WorkIsBounded(s: Setup, ls: seq<Label>)
    requires ValidSetup(s)
    ensures MoveCount(Reach(s, []), ls) <= 2 * (|s.client.stream| + |s.server.stream|) + |RESPONSE| + 4
  {
    var p0, p := Reach(s, []), Reach(s, ls);
    ReachInv(s, []);
    ReachInv(s, ls);
    EndToEnd(s, ls);
    TotalFits(p);
    hide Inv, SafeInv, Total;
    assert p == Run(p0, ls);
    RunAdvances(p0, ls);
    TotalNonNegative(p0);
    assert |p.me.sock.sent| <= |RESPONSE + s.server.stream| && |p.peer.sock.sent| <= |s.client.stream|;
  }

  lemma TotalNonNegative(p: Pair)
    ensures Total(p) >= 0
  {
  }

  lemma TotalFits(p: Pair)
    requires Inv(p)
    ensures Total(p) <= |p.me.sock.stream| + |p.peer.sock.stream| + |p.me.sock.sent| + |p.peer.sock.sent| + 4
  {
    hide Splits, FlowInv, Coherent, EdgeInv;
    ReceivedFits(p.me.sock);
    ReceivedFits(p.peer.sock);
  }
}
