/** What holds in every reachable state of a forwarded connection. */
module ForwarderProofs {
  import opened Common
  import opened ForwarderModel

  function B(b: bool): nat { if b then 1 else 0 }

  // ---------------------------------------------------------------------------------------------
  // The invariant

  /** Exact reference accounting, registration and descriptors of `me`. */
  predicate LinkInv(p: Pair) {
    && p.me.registered == Open(p.me)
    && (p.me.registered ==> p.me.maskIn == p.me.readable && p.me.maskOut == p.me.writable)
    && p.me.refs == B(Open(p.me)) + B(Open(p.peer)) + p.me.temps + B(p.me.batch.Some?)
    && p.me.freed == (p.me.refs == 0)
    && p.me.sock.closes == B(!Open(p.me))
    && p.me.out.made
    && p.me.out.rdCloses == B(!p.me.out.rd) && p.me.out.wrCloses == B(!p.me.out.wr)
    && (p.me.freed ==> !p.me.out.rd && !p.me.out.wr)
    && Splits(p.me.sock.received, p.me.sock.avail, p.me.sock.net, p.me.sock.stream)
    && (p.me.sock.eof ==> p.me.sock.net == [])
    && ShutInv(p.me)
  }

  /** The remote end has been told of a half-closed direction, and of no other; nothing of what it sent
      has been left unread. */
  predicate ShutInv(l: Link) {
    && (l.sock.shutRd ==> !l.readable && l.sock.received == l.sock.stream)
    && (l.sock.shutWr ==> !l.writable && l.out.finished)
    && (Open(l) ==> l.sock.shutRd == !l.readable && l.sock.shutWr == !l.writable)
  }

  /** A stream is what has been read, what can be read, and what is still in the network. */
  predicate Splits(received: string, avail: string, net: string, stream: string) {
    received + avail + net == stream
  }

  /** What has been sent and what is buffered is the greeting and everything read, in order. */
  predicate Carried(greeting: string, received: string, sent: string, content: string) {
    sent + content == greeting + received
  }

  predicate SentPrefix(greeting: string, received: string, sent: string) {
    sent <= greeting + received
  }

  /** The flow peer's socket -> me.out -> my socket: the buffer's bounds and byte fidelity. */
  predicate FlowInv(p: Pair) {
    && 0 <= p.me.out.size <= p.me.out.capacity && 0 < p.me.out.capacity
    && (p.me.out.rd ==> |p.me.out.content| == p.me.out.size
                        && Carried(p.me.greeting, p.peer.sock.received, p.me.sock.sent, p.me.out.content))
    && SentPrefix(p.me.greeting, p.peer.sock.received, p.me.sock.sent)
    && (p.me.out.finished ==> !p.me.out.rd && Carried(p.me.greeting, p.peer.sock.stream, p.me.sock.sent, []))
    && (p.me.out.slotsFull && p.me.out.rd ==> p.me.out.size > 0)
  }

  /** Half-close coherence of that flow, unless the pair has been terminated. */
  predicate Coherent(p: Pair) {
    !p.terminated ==>
      && p.peer.readable == p.me.out.wr
      && p.me.writable == p.me.out.rd
      && (!p.me.out.wr ==> p.peer.sock.received == p.peer.sock.stream)
      && (!p.me.writable ==> p.me.out.finished && !p.me.out.wr && p.me.out.size == 0)
  }

  /** What holds even while Terminate has closed only one of the two links. */
  predicate CoreInv(p: Pair) {
    !p.failed && LinkInv(p) && LinkInv(Swap(p)) && FlowInv(p) && FlowInv(Swap(p))
  }

  /** Holds at every moment between the statements of ForwardFromOther. */
  predicate SafeInv(p: Pair) {
    && CoreInv(p) && Coherent(p) && Coherent(Swap(p))
    && (p.terminated ==> !Open(p.me) && !Open(p.peer))
    && (p.me.out.broke || p.peer.out.broke ==> p.terminated)
  }

  /** WriteFrom would move bytes or see the end of file. */
  predicate CanRead(p: Pair) {
    p.peer.readable && InReady(p.peer.sock) && p.me.out.size < p.me.out.capacity && !p.me.out.slotsFull
  }

  predicate CanWrite(p: Pair) {
    p.me.writable && ((p.me.out.size > 0 && p.me.sock.roomy) || (p.me.out.size == 0 && !p.me.out.wr))
  }

  /** An EPOLLIN (EPOLLOUT) notification for `l` is on its way: queued, or in the current batch. */
  predicate PendingIn(l: Link) { l.sock.inEdge || (l.batch.Some? && l.batch.value.in_) }

  predicate PendingOut(l: Link) { l.sock.outEdge || (l.batch.Some? && l.batch.value.out) }

  /** No lost edge: whatever could move now, a notification that will move it is pending. */
  predicate EdgeInv(p: Pair) {
    (CanRead(p) ==> PendingIn(p.peer)) && (CanWrite(p) ==> p.me.out.size > 0 && PendingOut(p.me))
  }

  /** Holds between events. */
  predicate Inv(p: Pair) {
    SafeInv(p) && EdgeInv(p) && EdgeInv(Swap(p)) && p.me.temps == 0 && p.peer.temps == 0
  }

  /** Both links are referenced by the calls that are running. */
  predicate Held(p: Pair) {
    (p.me.temps > 0 || p.me.batch.Some?) && (p.peer.temps > 0 || p.peer.batch.Some?)
  }

  /** What no code running on behalf of the two links changes. */
  predicate Frame(p: Pair, q: Pair) {
    && q.me.temps == p.me.temps && q.peer.temps == p.peer.temps
    && q.me.batch == p.me.batch && q.peer.batch == p.peer.batch
    && q.clock == p.clock && q.timeout == p.timeout && (p.terminated ==> q.terminated)
    && q.me.deadline == p.me.deadline && q.peer.deadline == p.peer.deadline
    && q.me.greeting == p.me.greeting && q.peer.greeting == p.peer.greeting
    && q.me.sock.stream == p.me.sock.stream && q.peer.sock.stream == p.peer.sock.stream
    && (Open(q.me) ==> Open(p.me)) && (Open(q.peer) ==> Open(p.peer))
    && q.me.out.capacity == p.me.out.capacity && q.peer.out.capacity == p.peer.out.capacity
    && (p.me.out.broke ==> q.me.out.broke) && (p.peer.out.broke ==> q.peer.out.broke)
  }

  /** EdgeInv without the batch entries: what a handler that has run establishes. */
  predicate ReadEdge(p: Pair) { CanRead(p) ==> p.peer.sock.inEdge }

  predicate WriteEdge(p: Pair) { CanWrite(p) ==> p.me.out.size > 0 && p.me.sock.outEdge }

  predicate StrictEdge(p: Pair) { ReadEdge(p) && WriteEdge(p) }

  /** Bounds the iterations of ForwardFromOther that move something. */
  function Measure(p: Pair): int {
    2 * (|p.peer.sock.avail| + |p.peer.sock.net|) + p.me.out.size + B(p.me.out.wr) + B(p.me.out.rd)
  }

  lemma MeasureNonNegative(p: Pair)
    requires SafeInv(p)
    ensures Measure(p) >= 0
  {
  }

  // ---------------------------------------------------------------------------------------------
  // The kernel

  /** The kernel touches nothing but the two sockets, and what it makes ready it announces. */
  predicate EnvRel(p: Pair, q: Pair) {
    && q == p.(me := p.me.(sock := q.me.sock), peer := p.peer.(sock := q.peer.sock))
    && SockRel(p.me.sock, q.me.sock) && SockRel(p.peer.sock, q.peer.sock)
    && (EdgeInv(p) ==> EdgeInv(q)) && (EdgeInv(Swap(p)) ==> EdgeInv(Swap(q)))
    && (ReadEdge(p) ==> ReadEdge(q)) && (ReadEdge(Swap(p)) ==> ReadEdge(Swap(q)))
    && (WriteEdge(p) ==> WriteEdge(q)) && (WriteEdge(Swap(p)) ==> WriteEdge(Swap(q)))
  }

  predicate SockRel(s: Sock, t: Sock) {
    && t == s.(net := t.net, avail := t.avail, eof := t.eof, roomy := t.roomy,
               inEdge := t.inEdge, outEdge := t.outEdge)
    && |t.avail| + |t.net| == |s.avail| + |s.net|
  }

  lemma SockEnvKeeps(s: Sock, wantIn: bool, wantOut: bool, e: Env)
    requires Splits(s.received, s.avail, s.net, s.stream) && (s.eof ==> s.net == [])
    ensures var t := SockEnv(s, wantIn, wantOut, e);
            && Splits(t.received, t.avail, t.net, t.stream) && (t.eof ==> t.net == [])
            && |t.avail| + |t.net| == |s.avail| + |s.net|
            && t == s.(net := t.net, avail := t.avail, eof := t.eof, roomy := t.roomy,
                       inEdge := t.inEdge, outEdge := t.outEdge)
            && (InReady(t) && wantIn ==> t.inEdge || (InReady(s) && !s.inEdge))
            && (InReady(s) ==> InReady(t) && (wantIn && s.inEdge ==> t.inEdge))
            && (t.roomy && wantOut ==> t.outEdge || (s.roomy && !s.outEdge))
            && (s.roomy ==> t.roomy && (wantOut && s.outEdge ==> t.outEdge))
  {
    SockEnvFrame(s, wantIn, wantOut, e);
    SockEnvEdges(s, wantIn, wantOut, e);
    SockEnvStream(s, wantIn, wantOut, e);
    hide SockEnv, Splits;
  }

  lemma SockEnvFrame(s: Sock, wantIn: bool, wantOut: bool, e: Env)
    ensures var t := SockEnv(s, wantIn, wantOut, e);
            t == s.(net := t.net, avail := t.avail, eof := t.eof, roomy := t.roomy, inEdge := t.inEdge, outEdge := t.outEdge)
  {
    hide SockEnv;
    if e.Arrive? { ArriveFrame(s, wantIn, wantOut, e.n); }
    else if e.PeerEof? || e.Drain? { ReadyFrame(s, wantIn, wantOut, e); }
    else { DropFrame(s, wantIn, wantOut, e); }
  }

  lemma ArriveFrame(s: Sock, wantIn: bool, wantOut: bool, n: nat)
    ensures var t := SockEnv(s, wantIn, wantOut, Arrive(n)); t == s.(net := t.net, avail := t.avail, inEdge := t.inEdge)
  {
  }

  lemma ReadyFrame(s: Sock, wantIn: bool, wantOut: bool, e: Env)
    requires e.PeerEof? || e.Drain?
    ensures var t := SockEnv(s, wantIn, wantOut, e);
            t == s.(eof := t.eof, roomy := t.roomy, inEdge := t.inEdge, outEdge := t.outEdge)
  {
  }

  lemma DropFrame(s: Sock, wantIn: bool, wantOut: bool, e: Env)
    requires e.DropIn? || e.DropOut?
    ensures var t := SockEnv(s, wantIn, wantOut, e); t == s.(inEdge := t.inEdge, outEdge := t.outEdge)
  {
  }

  lemma SockEnvEdges(s: Sock, wantIn: bool, wantOut: bool, e: Env)
    ensures var t := SockEnv(s, wantIn, wantOut, e);
            && (InReady(t) && wantIn ==> t.inEdge || (InReady(s) && !s.inEdge))
            && (InReady(s) ==> InReady(t) && (wantIn && s.inEdge ==> t.inEdge))
            && (t.roomy && wantOut ==> t.outEdge || (s.roomy && !s.outEdge))
            && (s.roomy ==> t.roomy && (wantOut && s.outEdge ==> t.outEdge))
  {
  }

  lemma SockEnvStream(s: Sock, wantIn: bool, wantOut: bool, e: Env)
    requires Splits(s.received, s.avail, s.net, s.stream) && (s.eof ==> s.net == [])
    ensures var t := SockEnv(s, wantIn, wantOut, e);
            && Splits(t.received, t.avail, t.net, t.stream) && (t.eof ==> t.net == [])
            && |t.avail| + |t.net| == |s.avail| + |s.net|
  {
    if e.Arrive? && 1 <= e.n <= |s.net| {
      assert s.net[..e.n] + s.net[e.n..] == s.net;
      assert s.received + (s.avail + s.net[..e.n]) + s.net[e.n..] == s.received + s.avail + (s.net[..e.n] + s.net[e.n..]);
    }
  }

  lemma EnvOnMeSafe(p: Pair, e: Env)
    requires SafeInv(p)
    ensures SafeInv(PairEnv(p, SideEnv(true, e)))
  {
    hide Splits, Carried, SentPrefix;
    SockEnvKeeps(p.me.sock, p.me.registered && p.me.maskIn, p.me.registered && p.me.maskOut, e);
  }

  lemma EnvOnMeEdges(p: Pair, e: Env)
    requires SafeInv(p)
    ensures var q := PairEnv(p, SideEnv(true, e));
            && (ReadEdge(p) ==> ReadEdge(q)) && (ReadEdge(Swap(p)) ==> ReadEdge(Swap(q)))
            && (WriteEdge(p) ==> WriteEdge(q)) && (WriteEdge(Swap(p)) ==> WriteEdge(Swap(q)))
  {
    hide Splits, Carried, SentPrefix;
    SockEnvKeeps(p.me.sock, p.me.registered && p.me.maskIn, p.me.registered && p.me.maskOut, e);
  }

  lemma EnvOnMeBatchEdges(p: Pair, e: Env)
    requires SafeInv(p)
    ensures var q := PairEnv(p, SideEnv(true, e));
            (EdgeInv(p) ==> EdgeInv(q)) && (EdgeInv(Swap(p)) ==> EdgeInv(Swap(q)))
  {
    hide Splits, Carried, SentPrefix;
    SockEnvKeeps(p.me.sock, p.me.registered && p.me.maskIn, p.me.registered && p.me.maskOut, e);
  }

  lemma EnvOnMe(p: Pair, e: Env)
    requires SafeInv(p)
    ensures SafeInv(PairEnv(p, SideEnv(true, e))) && EnvRel(p, PairEnv(p, SideEnv(true, e)))
  {
    hide SafeInv, ReadEdge, WriteEdge, EdgeInv, SockEnv, SockRel;
    EnvOnMeSock(p, e);
    EnvOnMeSafe(p, e);
    EnvOnMeEdges(p, e);
    EnvOnMeBatchEdges(p, e);
  }

  lemma EnvOnMeSock(p: Pair, e: Env)
    requires SafeInv(p)
    ensures SockRel(p.me.sock, PairEnv(p, SideEnv(true, e)).me.sock) && SockRel(p.peer.sock, p.peer.sock)
  {
    hide Splits, Carried, SentPrefix;
    SockEnvKeeps(p.me.sock, p.me.registered && p.me.maskIn, p.me.registered && p.me.maskOut, e);
  }

  lemma EnvSafe(p: Pair, e: SideEnv)
    requires SafeInv(p)
    ensures SafeInv(PairEnv(p, e)) && EnvRel(p, PairEnv(p, e))
  {
    hide Splits, Carried, SentPrefix;
    EnvOnMe(if e.onMe then p else Swap(p), e.e);
    assert Swap(PairEnv(Swap(p), SideEnv(true, e.e))) == PairEnv(p, SideEnv(false, e.e));
  }

  lemma {:induction false} ExecEnvSafe(p: Pair, es: seq<SideEnv>)
    requires SafeInv(p)
    ensures SafeInv(ExecEnv(p, es)) && EnvRel(p, ExecEnv(p, es))
    decreases |es|
  {
    hide Splits, Carried, SentPrefix;
    if es != [] {
      ExecEnvSafe(p, es[..|es| - 1]);
      EnvSafe(ExecEnv(p, es[..|es| - 1]), es[|es| - 1]);
    }
  }

  // ---------------------------------------------------------------------------------------------
  // Closing

  /** An open link after Close: a reference on each link is gone, the link is off the loop, its descriptor
      is closed. */
  function Closed(p: Pair): Pair {
    var l := Unlisted(p.me.(readable := false, writable := false)).(refs := p.me.refs - 1);
    p.(peer := p.peer.(refs := p.peer.refs - 1), me := l.(sock := l.sock.(closes := l.sock.closes + 1)))
  }

  lemma CloseIs(p: Pair)
    requires CoreInv(p) && Held(p)
    ensures !p.me.freed && !p.peer.freed && p.me.refs > 0 && p.peer.refs > 0
    ensures Close(p) == if Open(p.me) then Closed(p) else p
    ensures Open(p.me) ==> p.me.registered && p.me.refs > 1 && p.peer.refs > 1
  {
    hide Splits, Carried, SentPrefix, FlowInv;
  }

  lemma ClosedCore(p: Pair)
    requires CoreInv(p) && Held(p) && Open(p.me)
    ensures CoreInv(Closed(p)) && Frame(p, Closed(p))
  {
    hide Splits, Carried, SentPrefix;
  }

  /** Closing an open link drops one reference to each link and closes the socket, nothing else. */
  lemma CloseEffect(p: Pair)
    requires CoreInv(p) && Held(p)
    ensures CoreInv(Close(p)) && Frame(p, Close(p)) && !Open(Close(p).me)
    ensures Close(p).peer == p.peer.(refs := Close(p).peer.refs)
    ensures Close(p).me.out == p.me.out
  {
    hide CoreInv, Close;
    CloseIs(p);
    if Open(p.me) { ClosedCore(p); }
  }

  lemma TerminateSafe(p: Pair)
    requires CoreInv(p) && Held(p)
    ensures SafeInv(Terminate(p)) && Frame(p, Terminate(p))
    ensures Terminate(p).terminated && Terminate(p).me.out == p.me.out && Terminate(p).peer.out == p.peer.out
  {
    hide Splits, Carried, SentPrefix;
    hide Close;
    var p0 := p.(terminated := true);
    CloseEffect(p0);
    var p1 := Close(p0);
    CloseEffect(Swap(p1));
    assert Terminate(p) == Swap(Close(Swap(p1)));
  }

  lemma TerminateNotFailed(p: Pair)
    requires SafeInv(p) && Held(p)
    ensures !Terminate(p).failed && SafeInv(Terminate(p)) && Frame(p, Terminate(p))
  {
    TerminateSafe(p);
    hide Terminate;
  }

  /** Half-closing: the flow into peer has reached end of file and its write end is closed. */
  lemma CloseForReadingSafe(p: Pair)
    requires CoreInv(p) && Held(p) && p.me.readable && !p.peer.out.wr && Coherent(p) && !p.terminated
    requires !p.me.out.broke && !p.peer.out.broke
    requires Coherent(Swap(p.(me := p.me.(readable := false))))
    ensures SafeInv(CloseForReading(p)) && Frame(p, CloseForReading(p))
    ensures StrictEdge(p) ==> StrictEdge(CloseForReading(p))
    ensures EdgeInv(p) ==> EdgeInv(CloseForReading(p))
    ensures Measure(Swap(CloseForReading(p))) == Measure(Swap(p))
  {
    hide Splits, Carried, SentPrefix;
    if !p.me.writable { CloseEffect(p); }
  }

  lemma CloseForWritingSafe(p: Pair)
    requires CoreInv(p) && Held(p) && p.me.writable && !p.me.out.rd && Coherent(Swap(p)) && !p.terminated
    requires !p.me.out.broke && !p.peer.out.broke
    requires Coherent(p.(me := p.me.(writable := false)))
    ensures SafeInv(CloseForWriting(p)) && Frame(p, CloseForWriting(p))
    ensures StrictEdge(Swap(p)) ==> StrictEdge(Swap(CloseForWriting(p)))
    ensures EdgeInv(Swap(p)) ==> EdgeInv(Swap(CloseForWriting(p)))
    ensures Measure(CloseForWriting(p)) == Measure(p)
  {
    hide Splits, Carried, SentPrefix;
    if !p.me.readable { CloseEffect(p); }
  }

  // ---------------------------------------------------------------------------------------------
  // ForwardFromOther

  /** What either half of an iteration guarantees. */
  predicate StepRel(p: Pair, q: Pair, f: Flow) {
    && SafeInv(q) && Frame(p, q)
    && (f == Broken ==> q.terminated && q.me.out.broke)
    && (f == Quiet ==> Measure(q) == Measure(p))
    && (f == Moved ==> Measure(q) < Measure(p))
    // The opposite flow keeps its notifications.
    && (EdgeInv(Swap(p)) ==> EdgeInv(Swap(q)))
    && (StrictEdge(Swap(p)) ==> StrictEdge(Swap(q)))
  }

  lemma FillSafe(p: Pair, c: InChoice)
    requires SafeInv(p) && Held(p)
    ensures var (q, f) := Fill(p, c); StepRel(p, q, f) && (f == Quiet ==> ReadEdge(q))
  {
    hide Splits, Carried, SentPrefix;
    if p.peer.readable {
      var r := WriteFrom(p.me.out, p.peer.sock, c);
      match r.status
      case NoOp =>
      case Data => FillData(p, c);
      case Eof => FillEof(p, c);
      case Error => FillError(p, c);
    }
  }

  /** Moving n bytes from a socket into a buffer. */
  lemma FillBytes(greeting: string, received: string, sent: string, content: string,
                  avail: string, net: string, stream: string, n: nat)
    requires n <= |avail| && Splits(received, avail, net, stream)
    requires Carried(greeting, received, sent, content) && SentPrefix(greeting, received, sent)
    ensures Splits(received + avail[..n], avail[n..], net, stream)
    ensures Carried(greeting, received + avail[..n], sent, content + avail[..n])
    ensures SentPrefix(greeting, received + avail[..n], sent)
  {
    assert avail == avail[..n] + avail[n..];
    assert (received + avail[..n]) + avail[n..] + net == received + avail + net;
    assert sent + (content + avail[..n]) == sent + content + avail[..n];
    assert greeting + (received + avail[..n]) == greeting + received + avail[..n];
  }

  lemma FillData(p: Pair, c: InChoice)
    requires SafeInv(p) && Held(p) && p.peer.readable
    requires WriteFrom(p.me.out, p.peer.sock, c).status == Data
    ensures StepRel(p, Fill(p, c).0, Moved)
  {
    hide Splits, Carried, SentPrefix;
    var s := p.peer.sock;
    FillBytes(p.me.greeting, s.received, p.me.sock.sent, p.me.out.content, s.avail, s.net, s.stream,
              PickIn(p.me.out, s, c).n);
  }

  lemma FillEof(p: Pair, c: InChoice)
    requires SafeInv(p) && Held(p) && p.peer.readable
    requires WriteFrom(p.me.out, p.peer.sock, c).status == Eof
    ensures StepRel(p, Fill(p, c).0, Moved)
  {
    assert p.peer.sock.avail == p.peer.sock.net == [];
    assert p.peer.sock.received == p.peer.sock.stream;
    hide Splits, Carried, SentPrefix, CloseForReading, Terminate;
    var p1 := p.(me := p.me.(out := CloseWr(p.me.out)));
    CloseForReadingSafe(Swap(p1));
    assert Fill(p, c).0 == Swap(CloseForReading(Swap(p1)));
  }

  /** Breaking the pair satisfies StepRel from any state with the same frame. */
  lemma BrokenRel(p: Pair, p1: Pair)
    requires CoreInv(p1) && Held(p1) && Frame(p, p1) && p1.me.out.broke
    ensures StepRel(p, Terminate(p1), Broken)
  {
    hide Splits, Carried, SentPrefix;
    TerminateSafe(p1);
  }

  lemma FillError(p: Pair, c: InChoice)
    requires SafeInv(p) && Held(p) && p.peer.readable
    requires WriteFrom(p.me.out, p.peer.sock, c).status == Error
    ensures StepRel(p, Fill(p, c).0, Broken)
  {
    hide Splits, Carried, SentPrefix;
    hide Terminate;
    var p1 := p.(me := p.me.(out := CloseWr(p.me.out).(broke := true)));
    BrokenRel(p, p1);
    assert Fill(p, c).0 == Terminate(p1);
  }

  lemma FlushSafe(p: Pair, c: OutChoice)
    requires SafeInv(p) && Held(p)
    ensures var (q, f) := Flush(p, c);
            StepRel(p, q, f) && (f == Quiet ==> WriteEdge(q) && (ReadEdge(p) ==> ReadEdge(q)))
  {
    hide Splits, Carried, SentPrefix;
    if p.me.writable {
      var r := ReadTo(p.me.out, p.me.sock, c);
      match r.status
      case NoOp =>
      case Data => FlushData(p, c);
      case Eof => FlushEof(p, c);
      case Error => FlushError(p, c);
    }
  }

  /** Moving n bytes from a buffer into a socket. */
  lemma FlushBytes(greeting: string, received: string, sent: string, content: string, n: nat)
    requires n <= |content| && Carried(greeting, received, sent, content)
    ensures Carried(greeting, received, sent + content[..n], content[n..])
    ensures SentPrefix(greeting, received, sent + content[..n])
  {
    assert content == content[..n] + content[n..];
    assert (sent + content[..n]) + content[n..] == sent + content;
  }

  lemma FlushData(p: Pair, c: OutChoice)
    requires SafeInv(p) && Held(p) && p.me.writable
    requires ReadTo(p.me.out, p.me.sock, c).status == Data
    ensures StepRel(p, Flush(p, c).0, Moved)
  {
    hide Splits, Carried, SentPrefix;
    FlushBytes(p.me.greeting, p.peer.sock.received, p.me.sock.sent, p.me.out.content,
               PickOut(p.me.out, p.me.sock, c).n);
  }

  lemma FlushEof(p: Pair, c: OutChoice)
    requires SafeInv(p) && Held(p) && p.me.writable
    requires ReadTo(p.me.out, p.me.sock, c).status == Eof
    ensures StepRel(p, Flush(p, c).0, Moved)
  {
    var p1 := p.(me := p.me.(out := CloseRd(p.me.out).(finished := true)));
    FlushEofReady(p, c);
    hide SafeInv, CoreInv, Coherent, CloseForWriting, EdgeInv, StrictEdge;
    CloseForWritingSafe(p1);
    FlushEofRel(p, p1, CloseForWriting(p1));
  }

  lemma FlushEofReady(p: Pair, c: OutChoice)
    requires SafeInv(p) && Held(p) && p.me.writable
    requires ReadTo(p.me.out, p.me.sock, c).status == Eof
    ensures var p1 := p.(me := p.me.(out := CloseRd(p.me.out).(finished := true)));
            && Flush(p, c).0 == CloseForWriting(p1) && p.me.out.rd
            && CoreInv(p1) && Held(p1) && Coherent(Swap(p1)) && !p1.terminated && !p1.me.out.broke && !p1.peer.out.broke
            && Coherent(p1.(me := p1.me.(writable := false)))
  {
    assert p.me.out.content == [] && p.peer.sock.received == p.peer.sock.stream;
    hide Splits, Carried, SentPrefix, CloseForWriting, Terminate;
  }

  lemma FlushEofRel(p: Pair, p1: Pair, q: Pair)
    requires p.me.out.rd && p1 == p.(me := p.me.(out := CloseRd(p.me.out).(finished := true)))
    requires SafeInv(q) && Frame(p1, q) && Measure(q) == Measure(p1)
    requires (StrictEdge(Swap(p1)) ==> StrictEdge(Swap(q))) && (EdgeInv(Swap(p1)) ==> EdgeInv(Swap(q)))
    ensures StepRel(p, q, Moved)
  {
    hide SafeInv;
  }

  lemma FlushError(p: Pair, c: OutChoice)
    requires SafeInv(p) && Held(p) && p.me.writable
    requires ReadTo(p.me.out, p.me.sock, c).status == Error
    ensures StepRel(p, Flush(p, c).0, Broken)
  {
    hide Splits, Carried, SentPrefix;
    var p1 := p.(me := p.me.(out := ReadTo(p.me.out, p.me.sock, c).buf));
    BrokenRel(p, p1);
    assert Flush(p, c).0 == Terminate(p1);
  }

  lemma StepAfterEnv(p: Pair, p0: Pair, q: Pair, f: Flow)
    requires EnvRel(p, p0) && StepRel(p0, q, f)
    ensures StepRel(p, q, f)
  {
    hide Splits, Carried, SentPrefix;
  }

  lemma StepAfterStep(p: Pair, p1: Pair, f1: Flow, q: Pair, f2: Flow)
    requires StepRel(p, p1, f1) && StepRel(p1, q, f2) && f1 != Broken
    ensures StepRel(p, q, if f2 == Quiet then f1 else f2)
  {
    hide Splits, Carried, SentPrefix;
  }

  lemma ForwardStepSafe(p: Pair, io: Io)
    requires SafeInv(p) && Held(p)
    ensures var (q, f) := ForwardStep(p, io); StepRel(p, q, f) && (f == Quiet ==> StrictEdge(q))
  {
    hide Splits, Carried, SentPrefix;
    hide Fill, Flush, ExecEnv, SafeInv, EdgeInv;
    var p0 := ExecEnv(p, io.envIn);
    ExecEnvSafe(p, io.envIn);
    FillSafe(p0, io.in_);
    var (p1, f1) := Fill(p0, io.in_);
    StepAfterEnv(p, p0, p1, f1);
    if f1 != Broken {
      var p2 := ExecEnv(p1, io.envOut);
      ExecEnvSafe(p1, io.envOut);
      FlushSafe(p2, io.out);
      var (q, f2) := Flush(p2, io.out);
      StepAfterEnv(p1, p2, q, f2);
      StepAfterStep(p, p1, f1, q, f2);
    }
  }

  /** The contract of ForwardFromOther: when it returns, nothing can move in its direction without
      a queued edge saying so, and the opposite direction has lost none of its notifications. */
  predicate ForwardRel(p: Pair, r: Forwarded) {
    && SafeInv(r.p) && Frame(p, r.p)
    && (r.broken ==> r.p.terminated && r.p.me.out.broke)
    && (r.done ==> StrictEdge(r.p))
    && (EdgeInv(Swap(p)) ==> EdgeInv(Swap(r.p)))
    && (StrictEdge(Swap(p)) ==> StrictEdge(Swap(r.p)))
  }

  lemma {:induction false} ForwardSafe(p: Pair, ios: seq<Io>)
    requires SafeInv(p) && Held(p)
    ensures ForwardRel(p, Forward(p, ios))
    ensures |ios| > Measure(p) ==> Forward(p, ios).done
    decreases |ios|
  {
    hide Splits, Carried, SentPrefix;
    if ios != [] {
      ForwardStepSafe(p, ios[0]);
      var (q, f) := ForwardStep(p, ios[0]);
      if f == Moved { ForwardSafe(q, ios[1..]); }
    }
  }

  /** How far the flow peer's socket -> me.out -> my socket has come: bytes read, bytes written, ends of
      the pipe closed. */
  function Progress(p: Pair): int {
    |p.peer.sock.received| + |p.me.sock.sent| + B(!p.me.out.wr) + B(!p.me.out.rd)
  }

  predicate ProgressRel(p: Pair, q: Pair, f: Flow) {
    (f == Moved ==> Progress(q) > Progress(p)) && (f == Quiet ==> Progress(q) == Progress(p))
  }

  lemma {:induction false} EnvProgress(p: Pair, es: seq<SideEnv>)
    ensures Progress(ExecEnv(p, es)) == Progress(p)
    decreases |es|
  {
    hide Progress, PairEnv;
    if es != [] {
      EnvProgress(p, es[..|es| - 1]);
      EnvStepProgress(ExecEnv(p, es[..|es| - 1]), es[|es| - 1]);
    }
  }

  lemma EnvStepProgress(p: Pair, e: SideEnv)
    ensures Progress(PairEnv(p, e)) == Progress(p)
  {
    hide SockEnv;
    var l := if e.onMe then p.me else p.peer;
    EnvKeepsBytes(l.sock, l.registered && l.maskIn, l.registered && l.maskOut, e.e);
  }

  lemma EnvKeepsBytes(s: Sock, wantIn: bool, wantOut: bool, e: Env)
    ensures var s' := SockEnv(s, wantIn, wantOut, e); s'.received == s.received && s'.sent == s.sent
  {
    SockEnvFrame(s, wantIn, wantOut, e);
    hide SockEnv;
  }

  lemma CloseKeepsBytes(p: Pair)
    requires CoreInv(p) && Held(p)
    ensures Close(p).me.sock.received == p.me.sock.received && Close(p).me.sock.sent == p.me.sock.sent
    ensures Close(p).me.out == p.me.out && Close(p).peer.sock == p.peer.sock && Close(p).peer.out == p.peer.out
  {
    hide CoreInv, Close, Held;
    CloseIs(p);
  }

  lemma FillProgress(p: Pair, c: InChoice)
    requires SafeInv(p) && Held(p)
    ensures var (q, f) := Fill(p, c); ProgressRel(p, q, f)
  {
    hide Splits, Carried, SentPrefix, CloseForReading, Terminate;
    if p.peer.readable && WriteFrom(p.me.out, p.peer.sock, c).status == Eof { FillEofProgress(p, c); }
  }

  lemma FillEofProgress(p: Pair, c: InChoice)
    requires SafeInv(p) && Held(p) && p.peer.readable && WriteFrom(p.me.out, p.peer.sock, c).status == Eof
    ensures Progress(Fill(p, c).0) > Progress(p)
  {
    hide Splits, Carried, SentPrefix, Close, Terminate;
    var p1 := Swap(p.(me := p.me.(out := CloseWr(p.me.out))));
    assert !p.failed && p.peer.sock.closes == 0 && p.me.out.wr && CoreInv(p1);
    hide CoreInv, SafeInv;
    if !p.peer.writable { CloseKeepsBytes(p1); }
  }

  lemma FlushProgress(p: Pair, c: OutChoice)
    requires SafeInv(p) && Held(p)
    ensures var (q, f) := Flush(p, c); ProgressRel(p, q, f)
  {
    hide Splits, Carried, SentPrefix, CloseForWriting, Terminate;
    if p.me.writable && ReadTo(p.me.out, p.me.sock, c).status == Eof { FlushEofProgress(p, c); }
  }

  lemma FlushEofProgress(p: Pair, c: OutChoice)
    requires SafeInv(p) && Held(p) && p.me.writable && ReadTo(p.me.out, p.me.sock, c).status == Eof
    ensures Progress(Flush(p, c).0) > Progress(p)
  {
    assert p.me.out.content == [] && p.peer.sock.received == p.peer.sock.stream;
    hide Splits, Carried, SentPrefix, Close, Terminate;
    var p1 := p.(me := p.me.(out := CloseRd(p.me.out).(finished := true)));
    assert !p.failed && p.me.sock.closes == 0 && p.me.out.rd && CoreInv(p1);
    hide CoreInv, SafeInv;
    if !p.me.readable { CloseKeepsBytes(p1); }
  }

  lemma StepProgress(p: Pair, io: Io)
    requires SafeInv(p) && Held(p)
    ensures var (q, f) := ForwardStep(p, io); ProgressRel(p, q, f)
  {
    hide SafeInv, Fill, Flush, Progress;
    var p0 := ExecEnv(p, io.envIn);
    EnvProgress(p, io.envIn);
    ExecEnvSafe(p, io.envIn);
    FillSafe(p0, io.in_);
    FillProgress(p0, io.in_);
    var (p1, f1) := Fill(p0, io.in_);
    if f1 != Broken {
      EnvProgress(p1, io.envOut);
      ExecEnvSafe(p1, io.envOut);
      FlushProgress(ExecEnv(p1, io.envOut), io.out);
    }
  }

  /** What ForwardFromOther returns: whether its flow has come any further, unless the link broke. */
  lemma {:induction false} ForwardResult(p: Pair, ios: seq<Io>)
    requires SafeInv(p) && Held(p)
    ensures var r := Forward(p, ios);
            r.done ==> (r.moved <==> !r.broken && Progress(r.p) != Progress(p)) && (!r.broken ==> Progress(r.p) >= Progress(p))
    decreases |ios|
  {
    hide SafeInv, ForwardStep, Progress;
    if ios != [] {
      ForwardStepSafe(p, ios[0]);
      StepProgress(p, ios[0]);
      var (q, f) := ForwardStep(p, ios[0]);
      if f == Moved { ForwardResult(q, ios[1..]); }
    }
  }

  lemma ForwardIfSafe(c: bool, p: Pair, ios: seq<Io>)
    requires SafeInv(p) && Held(p)
    ensures var r := ForwardIf(c, p, ios);
            && SafeInv(r.p) && Frame(p, r.p)
            && (c && r.done ==> StrictEdge(r.p))
            && (!c ==> r.p == p)
            && (EdgeInv(Swap(p)) ==> EdgeInv(Swap(r.p)))
            && (StrictEdge(Swap(p)) ==> StrictEdge(Swap(r.p)))
  {
    hide Splits, Carried, SentPrefix;
    if c { ForwardSafe(p, ios); }
  }

  // ---------------------------------------------------------------------------------------------
  // OnEvent and OnTimeout

  function WithDeadlines(p: Pair, mine: int, peers: int): Pair {
    p.(me := p.me.(deadline := mine), peer := p.peer.(deadline := peers))
  }

  /** What handling the events `ev` guarantees, apart from the references it takes and gives back. */
  predicate ProcessRel(p: Pair, ev: Events, r: Processed) {
    && SafeInv(r.p) && Frame(p, WithDeadlines(r.p, p.me.deadline, p.peer.deadline))
    && (r.done && ev.err ==> !Open(r.p.me) && !Open(r.p.peer))
    && (r.done && (ev.out || ev.err) ==> StrictEdge(r.p))
    && (r.done && (ev.in_ || ev.err) ==> StrictEdge(Swap(r.p)))
    && (r.done && EdgeInv(p) ==> EdgeInv(r.p))
    && (r.done && EdgeInv(Swap(p)) ==> EdgeInv(Swap(r.p)))
  }

  /** The two forwarding calls in either order, seen from the sink of the first one. */
  lemma BothSafe(c1: bool, c2: bool, p: Pair, ios1: seq<Io>, ios2: seq<Io>)
    requires SafeInv(p) && Held(p)
    ensures var r1 := ForwardIf(c1, p, ios1);
            var r2 := ForwardIf(c2, Swap(r1.p), ios2);
            && SafeInv(r2.p) && Frame(p, Swap(r2.p))
            && (r1.done && r2.done && c1 ==> StrictEdge(Swap(r2.p)))
            && (r1.done && r2.done && c2 ==> StrictEdge(r2.p))
            && (r1.done && r2.done && EdgeInv(p) ==> EdgeInv(Swap(r2.p)))
            && (r1.done && r2.done && EdgeInv(Swap(p)) ==> EdgeInv(r2.p))
  {
    hide Splits, Carried, SentPrefix;
    ForwardIfSafe(c1, p, ios1);
    ForwardIfSafe(c2, Swap(ForwardIf(c1, p, ios1).p), ios2);
  }

  lemma SwapSafe(p: Pair)
    requires SafeInv(p)
    ensures SafeInv(Swap(p))
  {
    hide Splits, Carried, SentPrefix;
  }

  lemma ClosedEdges(p: Pair)
    requires !Open(p.me) && !Open(p.peer)
    ensures StrictEdge(p) && StrictEdge(Swap(p)) && EdgeInv(p) && EdgeInv(Swap(p))
  {
    hide Splits, Carried, SentPrefix;
  }

  lemma ProcessSafe(p: Pair, ev: Events, o: Oracle)
    requires SafeInv(p) && Held(p)
    ensures ProcessRel(p, ev, Process(p, ev, o))
    ensures var q := Process(p, ev, o).p; q.me.deadline == p.me.deadline && q.peer.deadline == p.peer.deadline
  {
    hide Splits, Carried, SentPrefix;
    hide ForwardIf, Terminate, StrictEdge, EdgeInv;
    if ev.err {
      TerminateSafe(p);
      ClosedEdges(Terminate(p));
    } else if o.inFirst {
      BothSafe(ev.in_, ev.out, Swap(p), o.toPeer, o.toMe);
    } else {
      BothSafe(ev.out, ev.in_, p, o.toMe, o.toPeer);
      var r2 := ForwardIf(ev.in_, Swap(ForwardIf(ev.out, p, o.toMe).p), o.toPeer);
      SwapSafe(r2.p);
    }
  }

  lemma HoldSafe(p: Pair)
    requires SafeInv(p) && !p.me.freed
    ensures SafeInv(Hold(p)) && Hold(p) == p.(me := p.me.(refs := p.me.refs + 1, temps := p.me.temps + 1))
    ensures EdgeInv(p) ==> EdgeInv(Hold(p))
    ensures EdgeInv(Swap(p)) ==> EdgeInv(Swap(Hold(p)))
  {
    hide Splits, Carried, SentPrefix;
  }

  /** `l` is `me` after a running call or the current batch has given up one reference. */
  predicate GivesUpOne(p: Pair, l: Link) {
    && l == p.me.(temps := l.temps, batch := l.batch)
    && l.temps + B(l.batch.Some?) + 1 == p.me.temps + B(p.me.batch.Some?)
  }

  /** Giving a reference back destroys the link exactly when it was the last one. */
  lemma DropSafe(p: Pair, l: Link)
    requires SafeInv(p) && GivesUpOne(p, l)
    ensures var q := DecRef(p.(me := l));
            && SafeInv(q)
            && q == p.(me := l.(refs := p.me.refs - 1, freed := q.me.freed, out := q.me.out))
            && (Open(p.me) || Open(p.peer) ==> q.me.out == p.me.out) && q.me.out.broke == p.me.out.broke
            && (StrictEdge(p) ==> StrictEdge(q)) && (StrictEdge(Swap(p)) ==> StrictEdge(Swap(q)))
            && (EdgeInv(p.(me := l)) ==> EdgeInv(q)) && (EdgeInv(Swap(p.(me := l))) ==> EdgeInv(Swap(q)))
  {
    hide Splits, Carried, SentPrefix;
    if p.me.refs == 1 {
      assert !Open(p.me) && !Open(p.peer);
    } else {
      assert DecRef(p.(me := l)) == p.(me := l.(refs := p.me.refs - 1));
    }
  }

  /** Moving data restarts the timers of the links that are still open; nothing else does. */
  predicate TimerRel(p: Pair, r: Processed) {
    && (Open(r.p.me) ==> r.p.me.deadline == if r.moved then p.clock + p.timeout else p.me.deadline)
    && (Open(r.p.peer) ==> r.p.peer.deadline == if r.moved then p.clock + p.timeout else p.peer.deadline)
  }

  function Deadline(p: Pair, l: Link): int { if Open(l) then p.clock + p.timeout else l.deadline }

  lemma RefreshBothEffect(p: Pair)
    requires SafeInv(p) && !p.me.freed && !p.peer.freed
    ensures RefreshBoth(p) == WithDeadlines(p, Deadline(p, p.me), Deadline(p, p.peer))
  {
    hide Splits, Carried, SentPrefix;
  }

  lemma DeadlineSafe(p: Pair, mine: int, peers: int)
    requires SafeInv(p)
    ensures SafeInv(WithDeadlines(p, mine, peers))
  {
  }

  /** A new deadline matters to no invariant. */
  lemma DeadlineIrrelevant(p: Pair, ev: Events, r: Processed, mine: int, peers: int)
    requires ProcessRel(p, ev, r)
    ensures ProcessRel(p, ev, r.(p := WithDeadlines(r.p, mine, peers)))
  {
    hide SafeInv;
    DeadlineSafe(r.p, mine, peers);
  }

  lemma HoldPeerSafe(p: Pair)
    requires SafeInv(p) && !p.peer.freed
    ensures var q := HoldPeer(p);
            && SafeInv(q)
            && q == p.(peer := p.peer.(refs := p.peer.refs + 1, temps := p.peer.temps + 1))
            && (EdgeInv(p) ==> EdgeInv(q)) && (EdgeInv(Swap(p)) ==> EdgeInv(Swap(q)))
  {
    hide Splits, Carried, SentPrefix;
    HoldSafe(Swap(p));
  }

  lemma ReleaseSafe(p: Pair)
    requires SafeInv(p) && p.me.temps > 0
    ensures var q := Release(p);
            && SafeInv(q)
            && q == p.(me := p.me.(temps := p.me.temps - 1, refs := p.me.refs - 1, freed := q.me.freed, out := q.me.out))
            && q.me.out.capacity == p.me.out.capacity && q.me.out.broke == p.me.out.broke
            && (Open(p.me) || Open(p.peer) ==> q.me.out == p.me.out)
            && (StrictEdge(p) ==> StrictEdge(q)) && (StrictEdge(Swap(p)) ==> StrictEdge(Swap(q)))
            && (EdgeInv(p) ==> EdgeInv(q)) && (EdgeInv(Swap(p)) ==> EdgeInv(Swap(q)))
  {
    hide Splits, Carried, SentPrefix;
    DropSafe(p, p.me.(temps := p.me.temps - 1));
  }

  lemma ReleasePeerSafe(p: Pair)
    requires SafeInv(p) && p.peer.temps > 0
    ensures var q := ReleasePeer(p);
            && SafeInv(q)
            && q == p.(peer := p.peer.(temps := p.peer.temps - 1, refs := p.peer.refs - 1,
                                       freed := q.peer.freed, out := q.peer.out))
            && q.peer.out.capacity == p.peer.out.capacity && q.peer.out.broke == p.peer.out.broke
            && (Open(p.me) || Open(p.peer) ==> q.peer.out == p.peer.out)
            && (StrictEdge(p) ==> StrictEdge(q)) && (StrictEdge(Swap(p)) ==> StrictEdge(Swap(q)))
            && (EdgeInv(p) ==> EdgeInv(q)) && (EdgeInv(Swap(p)) ==> EdgeInv(Swap(q)))
  {
    hide Splits, Carried, SentPrefix;
    ReleaseSafe(Swap(p));
  }

  /** Process and the refreshes after it. */
  lemma ProcessAndRefresh(p: Pair, ev: Events, o: Oracle)
    requires SafeInv(p) && Held(p)
    ensures var r := Process(p, ev, o);
            var q := if r.moved then RefreshBoth(r.p) else r.p;
            ProcessRel(p, ev, r.(p := q)) && !q.me.freed && TimerRel(p, r.(p := q))
  {
    hide Splits, Carried, SentPrefix;
    ProcessSafe(p, ev, o);
    var r := Process(p, ev, o);
    if r.moved {
      RefreshBothEffect(r.p);
      DeadlineIrrelevant(p, ev, r, Deadline(r.p, r.p.me), Deadline(r.p, r.p.peer));
    }
  }

  lemma BracketRel(p: Pair, ev: Events, r: Processed)
    requires SafeInv(p) && !p.peer.freed && ProcessRel(HoldPeer(p), ev, r) && TimerRel(HoldPeer(p), r)
    ensures ProcessRel(p, ev, r.(p := ReleasePeer(r.p))) && TimerRel(p, r.(p := ReleasePeer(r.p)))
    ensures !r.p.failed
  {
    hide Splits, Carried, SentPrefix;
    HoldPeerSafe(p);
    ReleasePeerSafe(r.p);
    hide LinkInv, FlowInv, Coherent;
  }

  lemma OnEventSafe(p: Pair, ev: Events, o: Oracle)
    requires SafeInv(p) && p.me.registered && (p.me.temps > 0 || p.me.batch.Some?)
    ensures ProcessRel(p, ev, OnEvent(p, ev, o)) && TimerRel(p, OnEvent(p, ev, o))
  {
    assert !p.me.freed && !p.peer.freed && !p.failed;
    hide Splits, Carried, SentPrefix, SafeInv, Process, RefreshBoth, HoldPeer, ReleasePeer, ProcessRel, TimerRel;
    HoldPeerSafe(p);
    var p1 := HoldPeer(p);
    ProcessAndRefresh(p1, ev, o);
    var r := Process(p1, ev, o);
    var q := if r.moved then RefreshBoth(r.p) else r.p;
    BracketRel(p, ev, r.(p := q));
    assert OnEvent(p, ev, o) == r.(p := ReleasePeer(q));
  }

  lemma OnTimeoutSafe(p: Pair)
    requires SafeInv(p) && p.me.registered && (p.me.temps > 0 || p.me.batch.Some?)
    ensures SafeInv(OnTimeout(p)) && Frame(p, OnTimeout(p))
    ensures !Open(OnTimeout(p).me) && !Open(OnTimeout(p).peer)
  {
    hide Splits, Carried, SentPrefix;
    HoldPeerSafe(p);
    var p1 := HoldPeer(p);
    TerminateSafe(p1);
    ReleasePeerSafe(Terminate(p1));
    assert OnTimeout(p) == ReleasePeer(Terminate(p1));
  }

  // ---------------------------------------------------------------------------------------------
  // Every action

  lemma KernelKeeps(p: Pair, e: Env)
    requires Inv(p)
    ensures Inv(Act(p, Kernel(e)))
  {
    hide Splits, Carried, SentPrefix;
    EnvOnMe(p, e);
  }

  lemma CollectKeeps(p: Pair, ev: Events)
    requires Inv(p)
    ensures Inv(Act(p, Collect(ev)))
  {
    hide Act, SafeInv, EdgeInv;
    CollectSafe(p, ev);
    CollectEdges(p, ev);
    CollectTemps(p, ev);
  }

  lemma CollectTemps(p: Pair, ev: Events)
    requires p.me.temps == 0 && p.peer.temps == 0
    ensures var q := Act(p, Collect(ev)); q.me.temps == 0 && q.peer.temps == 0
  {
  }

  lemma CollectSafe(p: Pair, ev: Events)
    requires SafeInv(p)
    ensures SafeInv(Act(p, Collect(ev)))
  {
    if p.me.registered && p.me.batch.None? {
      ListedFacts(p);
      hide SafeInv;
      TakesEntry(p, Act(p, Collect(ev)).me);
    }
  }

  lemma TakesEntry(p: Pair, l: Link)
    requires SafeInv(p) && p.me.batch.None? && !p.me.freed && l.batch.Some?
    requires l == p.me.(refs := p.me.refs + 1, batch := l.batch, sock := p.me.sock.(inEdge := l.sock.inEdge, outEdge := l.sock.outEdge))
    ensures SafeInv(p.(me := l))
  {
    hide Splits, Carried, SentPrefix;
  }

  lemma CollectEdges(p: Pair, ev: Events)
    requires EdgeInv(p) && EdgeInv(Swap(p))
    ensures EdgeInv(Act(p, Collect(ev))) && EdgeInv(Swap(Act(p, Collect(ev))))
  {
  }

  /** Once its events have been handled the batch entry is no longer needed as a notification. */
  lemma BatchEntryUsed(p: Pair, q: Pair)
    requires SafeInv(q) && q.me.batch == p.me.batch && p.me.batch.Some?
    requires ProcessRel(p, p.me.batch.value, Processed(q, true, false)) || (q == p && !p.me.registered)
    requires EdgeInv(p) && EdgeInv(Swap(p))
    ensures var l := q.me.(batch := None); EdgeInv(q.(me := l)) && EdgeInv(Swap(q.(me := l)))
  {
    hide Splits, Carried, SentPrefix;
  }

  lemma DeliverKeeps(p: Pair, o: Oracle)
    requires Inv(p)
    ensures Inv(Act(p, Deliver(o)))
  {
    hide Splits, Carried, SentPrefix;
    if p.me.batch.Some? {
      var ev := p.me.batch.value;
      var r := if p.me.registered then OnEvent(p, ev, o) else Processed(p, true, false);
      if p.me.registered { OnEventSafe(p, ev, o); }
      if r.done {
        DeliverEnd(p, r);
      }
      assert Act(p, Deliver(o)) == if r.done then DecRef(r.p.(me := r.p.me.(batch := None))) else p;
    }
  }

  lemma DeliverEnd(p: Pair, r: Processed)
    requires Inv(p) && p.me.batch.Some? && r.done
    requires ProcessRel(p, p.me.batch.value, r) || (r.p == p && !p.me.registered)
    ensures Inv(DecRef(r.p.(me := r.p.me.(batch := None))))
  {
    hide Splits, Carried, SentPrefix;
    BatchEntryUsed(p, r.p);
    DropSafe(r.p, r.p.me.(batch := None));
  }

  lemma ExpireEnd(q: Pair)
    requires SafeInv(q) && !Open(q.me) && !Open(q.peer) && q.me.temps == 1 && q.peer.temps == 0
    ensures Inv(Release(q))
  {
    hide Splits, Carried, SentPrefix;
    ReleaseSafe(q);
  }

  lemma ExpireKeeps(p: Pair)
    requires Inv(p)
    ensures Inv(Act(p, Expire))
  {
    if p.me.registered && p.me.deadline <= p.clock {
      ListedFacts(p);
      hide SafeInv, EdgeInv, OnTimeout, Release;
      HoldSafe(p);
      hide Hold;
      var q := OnTimeout(Hold(p));
      OnTimeoutSafe(Hold(p));
      ClosedFacts(q);
      ExpireEnd(q);
    }
  }

  lemma ListedFacts(p: Pair)
    requires SafeInv(p) && p.me.registered
    ensures !p.me.freed && !p.failed
  {
  }

  lemma ClosedFacts(q: Pair)
    requires SafeInv(q) && !Open(q.me) && q.me.temps > 0
    ensures !q.me.registered && !q.me.freed && !q.failed
  {
  }

  lemma ActKeeps(p: Pair, a: Action)
    requires Inv(p)
    ensures Inv(Act(p, a))
  {
    hide Splits, Carried, SentPrefix;
    match a
    case Kernel(e) => KernelKeeps(p, e);
    case Tick(_) =>
    case Collect(ev) => CollectKeeps(p, ev);
    case Deliver(o) => DeliverKeeps(p, o);
    case Expire => ExpireKeeps(p);
  }

  /** Every state of every run satisfies the invariant: no CHECK fires, no destroyed link is touched,
      no closed descriptor is used, and no notification is lost. */
  lemma {:induction false} RunKeeps(p: Pair, ls: seq<Label>)
    requires Inv(p)
    ensures Inv(Run(p, ls))
    decreases |ls|
  {
    hide Splits, Carried, SentPrefix;
    if ls != [] {
      var q := Run(p, ls[..|ls| - 1]);
      var l := ls[|ls| - 1];
      RunKeeps(p, ls[..|ls| - 1]);
      ActKeeps(if l.onMe then q else Swap(q), l.a);
    }
  }

  // ---------------------------------------------------------------------------------------------
  // LinkEventHandler::New

  lemma NewEstablishes(client: Sock, server: Sock, clock: int, timeout: nat, clientCapacity: nat, serverCapacity: nat)
    requires FreshSock(client) && FreshSock(server)
    requires |RESPONSE| <= clientCapacity && 0 < serverCapacity
    ensures Inv(NewSucceeds(Connected(client, server, clock, timeout), clientCapacity, serverCapacity))
  {
    hide SafeInv, EdgeInv;
    NewIsSafe(client, server, clock, timeout, clientCapacity, serverCapacity);
    NewIsEdged(client, server, clock, timeout, clientCapacity, serverCapacity);
  }

  lemma NewIsSafe(client: Sock, server: Sock, clock: int, timeout: nat, clientCapacity: nat, serverCapacity: nat)
    requires FreshSock(client) && FreshSock(server)
    requires |RESPONSE| <= clientCapacity && 0 < serverCapacity
    ensures SafeInv(NewSucceeds(Connected(client, server, clock, timeout), clientCapacity, serverCapacity))
  {
    hide Splits, Carried, SentPrefix;
    StartsEmpty(RESPONSE);
    StartsEmpty([]);
    FreshSplits(client);
    FreshSplits(server);
    var p := NewSucceeds(Connected(client, server, clock, timeout), clientCapacity, serverCapacity);
    assert p.me.out.content == RESPONSE && p.peer.out.content == [];
  }

  lemma StartsEmpty(greeting: string)
    ensures Carried(greeting, [], [], greeting) && SentPrefix(greeting, [], [])
  {
    assert [] + greeting == greeting == greeting + [];
  }

  lemma FreshSplits(s: Sock)
    requires FreshSock(s)
    ensures Splits(s.received, s.avail, s.net, s.stream)
  {
    assert [] + s.avail + s.net == s.avail + s.net;
  }

  lemma NewIsEdged(client: Sock, server: Sock, clock: int, timeout: nat, clientCapacity: nat, serverCapacity: nat)
    requires FreshSock(client) && FreshSock(server)
    requires |RESPONSE| <= clientCapacity && 0 < serverCapacity
    ensures var p := NewSucceeds(Connected(client, server, clock, timeout), clientCapacity, serverCapacity);
            EdgeInv(p) && EdgeInv(Swap(p)) && p.me.temps == 0 && p.peer.temps == 0
  {
  }

  // ---------------------------------------------------------------------------------------------
  // What every run guarantees

  predicate SameConnection(p: Pair, q: Pair) {
    && q.me.greeting == p.me.greeting && q.peer.greeting == p.peer.greeting
    && q.me.sock.stream == p.me.sock.stream && q.peer.sock.stream == p.peer.sock.stream
  }

  lemma DeliverSameConnection(p: Pair, o: Oracle)
    requires Inv(p)
    ensures SameConnection(p, Act(p, Deliver(o)))
  {
    hide Splits, Carried, SentPrefix;
    if p.me.batch.Some? && p.me.registered {
      OnEventSafe(p, p.me.batch.value, o);
      hide OnEvent, SafeInv, EdgeInv, StrictEdge;
    }
  }

  lemma ExpireSameConnection(p: Pair)
    requires Inv(p)
    ensures SameConnection(p, Act(p, Expire))
  {
    hide Splits, Carried, SentPrefix, Hold, OnTimeout, Release, EdgeInv;
    if p.me.registered && p.me.deadline <= p.clock {
      var p1 := Hold(p);
      HoldSafe(p);
      OnTimeoutSafe(p1);
      var q := OnTimeout(p1);
      ReleaseSafe(q);
      assert Act(p, Expire) == Release(q);
    }
  }

  lemma ActSameConnection(p: Pair, a: Action)
    requires Inv(p)
    ensures SameConnection(p, Act(p, a))
  {
    hide Splits, Carried, SentPrefix;
    match a
    case Kernel(e) => EnvOnMe(p, e);
    case Tick(_) =>
    case Collect(_) =>
    case Deliver(o) => DeliverSameConnection(p, o);
    case Expire => ExpireSameConnection(p);
  }

  lemma {:induction false} RunSameConnection(p: Pair, ls: seq<Label>)
    requires Inv(p)
    ensures SameConnection(p, Run(p, ls))
    decreases |ls|
  {
    hide Splits, Carried, SentPrefix;
    if ls != [] {
      var q := Run(p, ls[..|ls| - 1]);
      var l := ls[|ls| - 1];
      RunKeeps(p, ls[..|ls| - 1]);
      RunSameConnection(p, ls[..|ls| - 1]);
      ActSameConnection(if l.onMe then q else Swap(q), l.a);
    }
  }

  /** What New is given: two connected sockets, the clock, the timeout, and the two capacities that
      the kernel grants. */
  datatype Setup = Setup(client: Sock, server: Sock, clock: int, timeout: nat,
                         clientCapacity: nat, serverCapacity: nat)

  predicate ValidSetup(s: Setup) {
    FreshSock(s.client) && FreshSock(s.server) && |RESPONSE| <= s.clientCapacity && 0 < s.serverCapacity
  }

  /** The state that New and then the steps `ls` lead to, seen from the client. */
  function Reach(s: Setup, ls: seq<Label>): Pair {
    Run(NewSucceeds(Connected(s.client, s.server, s.clock, s.timeout), s.clientCapacity, s.serverCapacity), ls)
  }

  /** No CHECK fires and every half of the invariant holds, in every state of every run. */
  lemma ReachInv(s: Setup, ls: seq<Label>)
    requires ValidSetup(s)
    ensures var p := Reach(s, ls);
            && Inv(p)
            && p.me.greeting == RESPONSE && p.peer.greeting == []
            && p.me.sock.stream == s.client.stream && p.peer.sock.stream == s.server.stream
  {
    hide Splits, Carried, SentPrefix, Inv;
    NewEstablishes(s.client, s.server, s.clock, s.timeout, s.clientCapacity, s.serverCapacity);
    RunKeeps(Reach(s, []), ls);
    RunSameConnection(Reach(s, []), ls);
  }

  /** Byte-stream fidelity, end to end.  At every moment the client has been sent a prefix of the
      response followed by the server's stream, and the server a prefix of the client's stream.
      What has been read and not yet sent is in the buffer.  A direction that shuts down other than
      by an IO error or a timeout has delivered its stream completely. */
  lemma EndToEnd(s: Setup, ls: seq<Label>)
    requires ValidSetup(s)
    ensures var p := Reach(s, ls);
            && p.me.sock.sent <= RESPONSE + s.server.stream
            && p.peer.sock.sent <= s.client.stream
            && (p.me.out.rd ==> p.me.sock.sent + p.me.out.content == RESPONSE + p.peer.sock.received)
            && (p.peer.out.rd ==> p.peer.sock.sent + p.peer.out.content == p.me.sock.received)
            && (!p.terminated && !p.me.writable ==> p.me.sock.sent == RESPONSE + s.server.stream)
            && (!p.terminated && !p.peer.writable ==> p.peer.sock.sent == s.client.stream)
  {
    ReachInv(s, ls);
    hide Reach;
    var p := Reach(s, ls);
    PrefixOfStream(p);
    PrefixOfStream(Swap(p));
    assert [] + p.me.sock.received == p.me.sock.received && [] + s.client.stream == s.client.stream;
  }

  lemma PrefixOfStream(p: Pair)
    requires SafeInv(p)
    ensures p.me.sock.sent <= p.me.greeting + p.peer.sock.stream
  {
    var s := p.peer.sock;
    assert s.stream == s.received + (s.avail + s.net);
    assert p.me.greeting + s.stream == (p.me.greeting + p.peer.sock.received) + (s.avail + s.net);
  }

  /** The remote end is told, by shutdown() or close(), that nothing more will be sent to it exactly when
      the link is no longer writable.  One that is told by shutdown() has been sent everything, whatever
      happens to the connection afterwards; and nothing is thrown away by ending the reading early. */
  lemma EndIsTold(s: Setup, ls: seq<Label>, client: bool)
    requires ValidSetup(s)
    ensures var p := if client then Reach(s, ls) else Swap(Reach(s, ls));
            && (p.me.sock.shutWr || p.me.sock.closes == 1 <==> !p.me.writable)
            && (p.me.sock.shutRd || p.me.sock.closes == 1 <==> !p.me.readable)
            && (p.me.sock.shutWr ==> p.me.sock.sent == (if client then RESPONSE else []) + p.peer.sock.stream)
            && (p.me.sock.shutRd ==> p.me.sock.received == p.me.sock.stream)
  {
    ReachInv(s, ls);
    hide Reach, EdgeInv, Coherent;
    var p := if client then Reach(s, ls) else Swap(Reach(s, ls));
    if p.me.sock.shutWr { assert p.me.sock.sent + [] == p.me.sock.sent; }
  }

  /** No notification that the link's event mask asks for is on its way. */
  predicate NothingPending(l: Link) { (l.maskIn ==> !l.sock.inEdge) && (l.maskOut ==> !l.sock.outEdge) }

  /** Everything the remote ends send has arrived, both sockets accept data, and no notification is
      on its way. */
  predicate Settled(p: Pair) {
    && p.me.sock.eof && p.peer.sock.eof && p.me.sock.roomy && p.peer.sock.roomy
    && p.me.batch.None? && p.peer.batch.None?
    && NothingPending(p.me) && NothingPending(p.peer)
  }

  /** A connection never hangs: when the network is done with it and the event loop has nothing left
      to deliver, both links are closed and destroyed, and unless there was an IO error or a timeout
      both streams have been delivered completely. */
  lemma NeverHangs(s: Setup, ls: seq<Label>)
    requires ValidSetup(s) && Settled(Reach(s, ls))
    ensures var p := Reach(s, ls);
            && !Open(p.me) && !Open(p.peer) && p.me.freed && p.peer.freed
            && (!p.terminated ==> p.me.sock.sent == RESPONSE + s.server.stream
                                  && p.peer.sock.sent == s.client.stream)
  {
    ReachInv(s, ls);
    EndToEnd(s, ls);
    hide Reach, Splits, Carried, SentPrefix;
    FlowSettles(Reach(s, ls));
    FlowSettles(Swap(Reach(s, ls)));
  }

  /** No lost edge: between events, if peer's socket is readable and the buffer can take more, or if
      the buffer holds bytes and my socket is writable, then the notification that makes the loop
      move them is queued or in the current batch; and an end of file is never left unforwarded. */
  lemma NoLostEdge(s: Setup, ls: seq<Label>, clientIsSink: bool)
    requires ValidSetup(s)
    ensures var p := if clientIsSink then Reach(s, ls) else Swap(Reach(s, ls));
            && (CanRead(p) ==> PendingIn(p.peer))
            && (p.me.writable && p.me.sock.roomy && p.me.out.size > 0 ==> PendingOut(p.me))
            && (p.me.writable && p.me.out.size == 0 ==> p.me.out.wr)
  {
    ReachInv(s, ls);
    hide Reach, SafeInv;
  }

  lemma FlowSettles(p: Pair)
    requires Inv(p) && Settled(p)
    ensures !p.peer.readable && !p.me.writable
  {
    hide Splits, Carried, SentPrefix;
    assert !CanRead(p) && !CanWrite(p);
  }

  /** Exact reference accounting: between events a link is referenced once by its own registration,
      once by the other link's being open, and once by each batch entry, and it is destroyed exactly
      when none of these is left.  Until then its three descriptors are closed at most once, and by
      then each has been closed exactly once. */
  lemma Destruction(s: Setup, ls: seq<Label>, client: bool)
    requires ValidSetup(s)
    ensures var p := if client then Reach(s, ls) else Swap(Reach(s, ls));
            && !p.failed
            && p.me.refs == B(p.me.registered) + B(Open(p.peer)) + B(p.me.batch.Some?)
            && (p.me.freed <==> !Open(p.me) && !Open(p.peer) && p.me.batch.None?)
            && p.me.sock.closes <= 1 && p.me.out.rdCloses <= 1 && p.me.out.wrCloses <= 1
            && (p.me.sock.closes == 1 <==> !Open(p.me))
            && (p.me.freed ==> p.me.sock.closes == 1 && p.me.out.rdCloses == 1 && p.me.out.wrCloses == 1)
  {
    ReachInv(s, ls);
    hide Reach, FlowInv, Coherent, EdgeInv;
  }

  /** When a pipe cannot be created both sockets are closed once, and so is a pipe already made. */
  lemma NewFailsClean(client: Sock, server: Sock, clock: int, timeout: nat, clientInit: bool, capacity: nat)
    requires FreshSock(client) && FreshSock(server)
    ensures var p := NewFails(Connected(client, server, clock, timeout), clientInit, capacity);
            && !p.failed && p.me.freed && p.peer.freed
            && p.me.sock.closes == 1 && p.peer.sock.closes == 1
            && !p.me.out.rd && !p.me.out.wr && !p.peer.out.made
            && p.me.out.rdCloses == B(clientInit) && p.me.out.wrCloses == B(clientInit)
  {
  }

  /** The timer rule: an event that moves data restarts the timers of the links it leaves open, and
      any other event leaves both deadlines alone. */
  lemma TimerRule(p: Pair, o: Oracle)
    requires Inv(p) && p.me.batch.Some? && p.me.registered
    ensures var r := OnEvent(p, p.me.batch.value, o);
            r.done ==> TimerRel(p, r.(p := Act(p, Deliver(o))))
  {
    hide Splits, Carried, SentPrefix, OnEvent, EdgeInv, StrictEdge;
    OnEventSafe(p, p.me.batch.value, o);
  }
}
