/** One forwarded connection as a value: two links, their two pipes and two sockets, and every
    step the event loop or the kernel can take.

    A `Pair` is seen from one link: `me`, and the link it forwards to and from, `peer`.  Bytes flow
    peer's socket -> me.out (a pipe) -> my socket; `Swap` gives the other direction.

    Every function is total.  `failed` records that a CHECK fired, that a destroyed link was touched,
    or that a closed descriptor was used; ForwarderProofs shows that it never becomes true.  Kernel
    outcomes are read from an oracle; an outcome the kernel could not produce is replaced by one it
    can, so that every oracle is a legal run and every legal run has an oracle. */
module ForwarderModel {
  import opened Common

  const RESPONSE: string := "HTTP/1.1 200 OK\r\n\r\n"

  // ---------------------------------------------------------------------------------------------
  // Data

  datatype IoStatus = Data | Eof | Error | NoOp

  /** A Buffer with its kernel pipe.  `rd` and `wr` say that pipe_[0] and pipe_[1] are open. */
  datatype Buf = Buf(
    capacity: int, size: int, rd: bool, wr: bool,
    content: string,    // the bytes in the kernel pipe
    slotsFull: bool,    // the pipe has no free slot although it may have free bytes
    made: bool,         // pipe() has succeeded
    rdCloses: nat, wrCloses: nat,  // how often each end has been closed
    finished: bool,     // ReadTo has reported end of file
    broke: bool)        // splice() has reported an error

  /** A socket: what its peer sends, what has been sent to it, and its undelivered epoll edges. */
  datatype Sock = Sock(
    stream: string,     // everything the remote end will ever send
    net: string,        // the part still in the network
    avail: string,      // the part that can be read now
    eof: bool,          // the end of the stream has arrived
    roomy: bool,        // a write would be accepted now
    inEdge: bool, outEdge: bool,  // an EPOLLIN, an EPOLLOUT edge is queued
    received: string,   // everything read from this socket
    sent: string,       // everything written to this socket
    shutRd: bool, shutWr: bool,  // shutdown() for reading, for writing: the remote end sees an end of file
    closes: nat)

  datatype Events = Events(err: bool, in_: bool, out: bool)

  datatype Link = Link(
    readable: bool, writable: bool,
    refs: int, freed: bool,
    registered: bool, maskIn: bool, maskOut: bool, deadline: int,
    temps: nat,              // references held by running OnEvent, OnTimeout and expiry sweep calls
    batch: Option<Events>,   // an entry of the current epoll batch, which holds a reference
    greeting: string,        // what is written to the socket before any forwarded byte
    out: Buf, sock: Sock)

  datatype Pair = Pair(
    me: Link, peer: Link, clock: int, timeout: nat,
    terminated: bool,   // Terminate has run: on an IO error, on EPOLLERR, or on a timeout
    failed: bool)

  function Swap(p: Pair): Pair { p.(me := p.peer, peer := p.me) }

  function Check(p: Pair, ok: bool): Pair { p.(failed := p.failed || !ok) }

  predicate Open(l: Link) { l.readable || l.writable }

  predicate InReady(s: Sock) { s.avail != [] || s.eof }

  // ---------------------------------------------------------------------------------------------
  // The kernel between two system calls

  datatype Env =
    | Arrive(n: nat)   // bytes reach the socket
    | PeerEof          // the end of the stream reaches the socket
    | Drain            // the socket becomes writable
    | DropIn | DropOut // a queued edge is found stale, or outside the event mask, and is discarded

  /** The kernel's step on one socket; a step that is not possible changes nothing. */
  function SockEnv(s: Sock, wantIn: bool, wantOut: bool, e: Env): Sock {
    match e
    case Arrive(n) =>
      if 1 <= n <= |s.net| then
        s.(net := s.net[n..], avail := s.avail + s.net[..n], inEdge := s.inEdge || wantIn)
      else s
    case PeerEof =>
      if s.net == [] && !s.eof then s.(eof := true, inEdge := s.inEdge || wantIn) else s
    case Drain =>
      if s.roomy then s else s.(roomy := true, outEdge := s.outEdge || wantOut)
    case DropIn => if wantIn && InReady(s) then s else s.(inEdge := false)
    case DropOut => if wantOut && s.roomy then s else s.(outEdge := false)
  }

  function LinkEnv(l: Link, e: Env): Link {
    l.(sock := SockEnv(l.sock, l.registered && l.maskIn, l.registered && l.maskOut, e))
  }

  datatype SideEnv = SideEnv(onMe: bool, e: Env)

  function PairEnv(p: Pair, e: SideEnv): Pair {
    if e.onMe then p.(me := LinkEnv(p.me, e.e)) else p.(peer := LinkEnv(p.peer, e.e))
  }

  function ExecEnv(p: Pair, es: seq<SideEnv>): Pair {
    if es == [] then p else PairEnv(ExecEnv(p, es[..|es| - 1]), es[|es| - 1])
  }

  // ---------------------------------------------------------------------------------------------
  // Buffer (src/forwarder.cc:45-146)

  datatype InChoice = InData(n: nat, full: bool) | InEof | InAgain | InError

  predicate InPossible(b: Buf, s: Sock, c: InChoice) {
    match c
    case InData(n, _) => !b.slotsFull && 1 <= n <= |s.avail| && n <= b.capacity - b.size
    case InEof => !b.slotsFull && s.avail == [] && s.eof
    case InAgain => b.slotsFull || (s.avail == [] && !s.eof)
    case InError => true
  }

  function PickIn(b: Buf, s: Sock, c: InChoice): InChoice {
    if InPossible(b, s, c) then c else if InPossible(b, s, InAgain) then InAgain else InError
  }

  datatype IoResult = IoResult(buf: Buf, sock: Sock, status: IoStatus, ok: bool)

  function CloseWr(b: Buf): Buf { b.(wr := false, wrCloses := b.wrCloses + 1) }

  function CloseRd(b: Buf): Buf { b.(rd := false, rdCloses := b.rdCloses + 1) }

  function WriteFrom(b: Buf, s: Sock, c: InChoice): IoResult {
    var ok := b.wr && 0 <= b.size <= b.capacity;
    if b.size == b.capacity then IoResult(b, s, NoOp, ok) else
    match PickIn(b, s, c)
    case InAgain => IoResult(b, s, NoOp, ok)
    case InError => IoResult(CloseWr(b).(broke := true), s, Error, ok)
    case InEof => IoResult(CloseWr(b), s, Eof, ok)
    case InData(n, full) =>
      var n' := if n <= |s.avail| then n else |s.avail|;
      IoResult(b.(size := b.size + n', content := b.content + s.avail[..n'], slotsFull := full),
               s.(avail := s.avail[n'..], received := s.received + s.avail[..n']),
               Data, ok && 0 <= b.size + n' <= b.capacity)
  }

  datatype OutChoice = OutData(n: nat, full: bool, roomy: bool) | OutAgain | OutError(lost: bool)

  predicate OutPossible(b: Buf, s: Sock, c: OutChoice) {
    match c
    case OutData(n, _, _) => s.roomy && 1 <= n <= |b.content|
    case OutAgain => !s.roomy
    case OutError(_) => true
  }

  function PickOut(b: Buf, s: Sock, c: OutChoice): OutChoice {
    if OutPossible(b, s, c) then c else if OutPossible(b, s, OutAgain) then OutAgain else OutError(false)
  }

  function ReadTo(b: Buf, s: Sock, c: OutChoice): IoResult {
    var ok := b.rd && 0 <= b.size;
    if b.size == 0 then
      if b.wr then IoResult(b, s, NoOp, ok)
      else IoResult(CloseRd(b).(finished := true), s, Eof, ok)
    else
    match PickOut(b, s, c)
    case OutAgain => IoResult(b, s, NoOp, ok)
    case OutError(lost) =>
      // A failing splice() may clear the pipe on WSL.
      IoResult(CloseRd(b).(content := if lost then [] else b.content, broke := true), s, Error, ok)
    case OutData(n, full, roomy) =>
      var n' := if n <= |b.content| then n else |b.content|;
      IoResult(b.(size := b.size - n', content := b.content[n'..],
                  slotsFull := b.slotsFull && full && n' < |b.content|),
               s.(sent := s.sent + b.content[..n'], roomy := roomy),
               Data, ok && 0 <= b.size - n' <= b.capacity)
  }

  /** The blocking write of the response into a fresh pipe (src/forwarder.cc:72-82). */
  function BufWrite(b: Buf, data: string): Buf {
    b.(size := b.size + |data|, content := b.content + data)
  }

  predicate BufWriteOk(b: Buf, data: string) {
    0 <= b.size <= b.capacity && |data| <= b.capacity - b.size && b.wr
  }

  /** ~Buffer closes the ends that are still open. */
  function DestroyBuf(b: Buf): Buf {
    var b1 := if b.rd then CloseRd(b) else b;
    if b1.wr then CloseWr(b1) else b1
  }

  // ---------------------------------------------------------------------------------------------
  // Reference counts and registration (src/event_loop.h:38-60, src/event_loop.cc:55-81, 130-140)

  function IncRef(p: Pair): Pair {
    Check(p, !p.me.freed && p.me.refs >= 0).(me := p.me.(refs := p.me.refs + 1))
  }

  /** Drops a reference; the last one runs the destructor, which closes the buffer's pipe. */
  function Unref(l: Link): Link {
    var l1 := l.(refs := l.refs - 1);
    if l1.refs == 0 then l1.(freed := true, out := DestroyBuf(l1.out)) else l1
  }

  predicate UnrefOk(l: Link) {
    !l.freed && l.refs > 0 && (l.refs == 1 ==> !l.registered && !Open(l))
  }

  function DecRef(p: Pair): Pair { Check(p, UnrefOk(p.me)).(me := Unref(p.me)) }

  function Arm(l: Link, in_: bool, out: bool): Link {
    l.(maskIn := in_, maskOut := out,
       sock := l.sock.(inEdge := l.sock.inEdge || (in_ && InReady(l.sock)),
                       outEdge := l.sock.outEdge || (out && l.sock.roomy)))
  }

  function LoopAdd(p: Pair): Pair {
    var q := IncRef(Check(p, !p.me.registered));
    q.(me := Arm(q.me.(registered := true, deadline := p.clock + p.timeout), true, true))
  }

  function LoopModify(p: Pair, in_: bool, out: bool): Pair {
    Check(p, p.me.registered && !p.me.freed).(me := Arm(p.me, in_, out))
  }

  function Unlisted(l: Link): Link {
    l.(registered := false, maskIn := false, maskOut := false, sock := l.sock.(inEdge := false, outEdge := false))
  }

  function LoopRemove(p: Pair): Pair {
    DecRef(Check(p, p.me.registered && !p.me.freed).(me := Unlisted(p.me)))
  }

  function LoopRefresh(p: Pair): Pair {
    Check(p, p.me.registered && !p.me.freed).(me := p.me.(deadline := p.clock + p.timeout))
  }

  // ---------------------------------------------------------------------------------------------
  // LinkEventHandler (src/forwarder.cc:148-310)

  /** Closes `me` if it is still open. */
  function Close(p: Pair): Pair {
    if !Open(p.me) then Check(p, !p.me.freed) else
    var p1 := Check(p, !p.me.freed).(me := p.me.(readable := false, writable := false));
    var p2 := Swap(DecRef(Swap(p1)));
    var p3 := LoopRemove(p2);
    // close(fd()) reads the object after LoopRemove has dropped a reference to it.
    Check(p3, !p3.me.freed && p3.me.sock.closes == 0)
      .(me := p3.me.(sock := p3.me.sock.(closes := p3.me.sock.closes + 1)))
  }

  /** Abnormally closes both links. */
  function Terminate(p: Pair): Pair {
    var p1 := Close(p.(terminated := true));
    Swap(Close(Swap(Check(p1, !p1.me.freed))))
  }

  function CloseForReading(p: Pair): Pair {
    var p1 := Check(p, p.me.readable && !p.me.freed);
    if p.me.writable then
      var p2 := LoopModify(p1.(me := p1.me.(readable := false)), false, true);
      Check(p2, p2.me.sock.closes == 0).(me := p2.me.(sock := p2.me.sock.(shutRd := true)))
    else Close(p1)
  }

  function CloseForWriting(p: Pair): Pair {
    var p1 := Check(p, p.me.writable && !p.me.freed);
    if p.me.readable then
      var p2 := LoopModify(p1.(me := p1.me.(writable := false)), true, false);
      Check(p2, p2.me.sock.closes == 0).(me := p2.me.(sock := p2.me.sock.(shutWr := true)))
    else Close(p1)
  }

  function RefreshIfOpen(p: Pair): Pair {
    if Open(p.me) then LoopRefresh(p) else Check(p, !p.me.freed)
  }

  datatype Flow = Moved | Quiet | Broken

  /** One iteration's kernel behaviour: what happens before each splice() and what it returns. */
  datatype Io = Io(envIn: seq<SideEnv>, in_: InChoice, envOut: seq<SideEnv>, out: OutChoice)

  /** The first half of an iteration of ForwardFromOther: peer's socket -> me.out. */
  function Fill(p: Pair, c: InChoice): (Pair, Flow) {
    var p0 := Check(p, !p.me.freed && !p.peer.freed);
    if !p.peer.readable then (p0, Quiet) else
    var r := WriteFrom(p.me.out, p.peer.sock, c);
    var p1 := Check(p0, r.ok && p.peer.sock.closes == 0)
              .(me := p.me.(out := r.buf), peer := p.peer.(sock := r.sock));
    match r.status
    case Data => (p1, Moved)
    case NoOp => (p1, Quiet)
    case Eof => (Swap(CloseForReading(Swap(p1))), Moved)
    case Error => (Terminate(p1), Broken)
  }

  /** The second half: me.out -> my socket. */
  function Flush(p: Pair, c: OutChoice): (Pair, Flow) {
    var p0 := Check(p, !p.me.freed && !p.peer.freed);
    if !p.me.writable then (p0, Quiet) else
    var r := ReadTo(p.me.out, p.me.sock, c);
    var p1 := Check(p0, r.ok && p.me.sock.closes == 0)
              .(me := p.me.(out := r.buf, sock := r.sock));
    match r.status
    case Data => (p1, Moved)
    case NoOp => (p1, Quiet)
    case Eof => (CloseForWriting(p1), Moved)
    case Error => (Terminate(p1), Broken)
  }

  function ForwardStep(p: Pair, io: Io): (Pair, Flow) {
    var (p1, f1) := Fill(ExecEnv(p, io.envIn), io.in_);
    if f1 == Broken then (p1, Broken) else
    var (p2, f2) := Flush(ExecEnv(p1, io.envOut), io.out);
    (p2, if f2 == Quiet then f1 else f2)
  }

  /** ForwardFromOther.  `done` is false when the oracle is too short for the loop to end. */
  datatype Forwarded = Forwarded(p: Pair, done: bool, broken: bool, moved: bool)

  function Forward(p: Pair, ios: seq<Io>): Forwarded
    decreases |ios|
  {
    if ios == [] then Forwarded(p, false, false, false) else
    var (q, f) := ForwardStep(p, ios[0]);
    match f
    case Broken => Forwarded(q, true, true, false)
    case Quiet => Forwarded(q, true, false, false)
    case Moved => var r := Forward(q, ios[1..]); r.(moved := !r.broken)
  }

  /** The kernel behaviour during one OnEvent.  C++ leaves open which operand of `|` runs first. */
  datatype Oracle = Oracle(inFirst: bool, toMe: seq<Io>, toPeer: seq<Io>)

  datatype Processed = Processed(p: Pair, done: bool, moved: bool)

  function ForwardIf(c: bool, p: Pair, ios: seq<Io>): Forwarded {
    if c then Forward(p, ios) else Forwarded(p, true, false, false)
  }

  function Process(p: Pair, ev: Events, o: Oracle): Processed {
    if ev.err then Processed(Terminate(p), true, false)
    else if o.inFirst then
      var r1 := ForwardIf(ev.in_, Swap(p), o.toPeer);
      var r2 := ForwardIf(ev.out, Swap(r1.p), o.toMe);
      Processed(r2.p, r1.done && r2.done, r1.moved || r2.moved)
    else
      var r1 := ForwardIf(ev.out, p, o.toMe);
      var r2 := ForwardIf(ev.in_, Swap(r1.p), o.toPeer);
      Processed(Swap(r2.p), r1.done && r2.done, r1.moved || r2.moved)
  }

  /** A reference that a running call holds on `me` or on `peer`. */
  function Hold(p: Pair): Pair {
    var q := IncRef(p);
    q.(me := q.me.(temps := q.me.temps + 1))
  }

  function Release(p: Pair): Pair {
    DecRef(p.(me := p.me.(temps := if p.me.temps > 0 then p.me.temps - 1 else 0)))
  }

  function HoldPeer(p: Pair): Pair { Swap(Hold(Swap(p))) }

  function ReleasePeer(p: Pair): Pair { Swap(Release(Swap(p))) }

  function RefreshBoth(p: Pair): Pair { Swap(RefreshIfOpen(Swap(RefreshIfOpen(p)))) }

  function OnEvent(p: Pair, ev: Events, o: Oracle): Processed {
    var r := Process(HoldPeer(Check(p, !p.me.freed)), ev, o);
    var q := if r.moved then RefreshBoth(r.p) else r.p;
    r.(p := ReleasePeer(Check(q, !q.me.freed)))
  }

  function OnTimeout(p: Pair): Pair {
    var q := Terminate(HoldPeer(Check(p, !p.me.freed)));
    ReleasePeer(Check(q, !q.me.freed))
  }

  // ---------------------------------------------------------------------------------------------
  // The event loop around one pair (src/event_loop.cc:99-128)

  datatype Action =
    | Kernel(e: Env)       // something happens to my socket
    | Tick(dt: nat)        // time passes
    | Collect(ev: Events)  // epoll_wait() returns an entry for me
    | Deliver(o: Oracle)   // the loop reaches that entry
    | Expire               // the sweep finds me expired

  function Act(p: Pair, a: Action): Pair {
    match a
    case Kernel(e) => PairEnv(p, SideEnv(true, e))
    case Tick(dt) => p.(clock := p.clock + dt)
    case Collect(ev) =>
      if !p.me.registered || p.me.batch.Some? then p else
      var q := IncRef(p);
      q.(me := q.me.(batch := Some(ev),
                     sock := q.me.sock.(inEdge := q.me.sock.inEdge && !ev.in_,
                                        outEdge := q.me.sock.outEdge && !ev.out)))
    case Deliver(o) =>
      if p.me.batch.None? then p else
      var p0 := Check(p, !p.me.freed);
      var r := if p.me.registered then OnEvent(p0, p.me.batch.value, o) else Processed(p0, true, false);
      if !r.done then p else DecRef(r.p.(me := r.p.me.(batch := None)))
    case Expire =>
      if !p.me.registered || p.clock < p.me.deadline then p else
      var q := OnTimeout(Hold(p));
      Release(if q.me.registered then LoopRefresh(q) else Check(q, !q.me.freed))
  }

  datatype Label = Label(onMe: bool, a: Action)

  function Step(p: Pair, l: Label): Pair {
    if l.onMe then Act(p, l.a) else Swap(Act(Swap(p), l.a))
  }

  function Run(p: Pair, ls: seq<Label>): Pair {
    if ls == [] then p else Step(Run(p, ls[..|ls| - 1]), ls[|ls| - 1])
  }

  // ---------------------------------------------------------------------------------------------
  // LinkEventHandler::New (src/forwarder.cc:150-175)

  /** A connected socket as New finds it: some of its stream may have arrived already. */
  predicate FreshSock(s: Sock) {
    s.stream == s.avail + s.net && (s.eof ==> s.net == [])
    && !s.inEdge && !s.outEdge && s.received == [] && s.sent == []
    && !s.shutRd && !s.shutWr && s.closes == 0
  }

  const NO_BUF := Buf(0, 0, false, false, [], false, false, 0, 0, false, false)

  function InitBuf(capacity: nat): Buf {
    NO_BUF.(capacity := capacity, rd := true, wr := true, made := true)
  }

  function NewLink(greeting: string, s: Sock): Link {
    Link(true, true, 0, false, false, false, false, 0, 0, None, greeting, NO_BUF, s)
  }

  /** The failing path: at least one of the two Init calls returned false. */
  function NewFails(p: Pair, clientInit: bool, capacity: nat): Pair {
    var client := if clientInit then p.me.(out := InitBuf(capacity)) else p.me;
    Swap(Delete(Swap(Delete(p.(me := client)))))
  }

  /** close(fd), clear the flags, delete. */
  function Delete(p: Pair): Pair {
    Check(p, !p.me.registered && p.me.refs == 0 && !p.me.freed && p.me.sock.closes == 0)
      .(me := p.me.(readable := false, writable := false, freed := true,
                    sock := p.me.sock.(closes := p.me.sock.closes + 1), out := DestroyBuf(p.me.out)))
  }

  function NewSucceeds(p: Pair, clientCapacity: nat, serverCapacity: nat): Pair {
    var p1 := p.(me := p.me.(out := InitBuf(clientCapacity)), peer := p.peer.(out := InitBuf(serverCapacity)));
    var p2 := IncRef(Swap(IncRef(p1)));
    var p3 := Swap(LoopAdd(Swap(LoopAdd(Swap(p2)))));
    Check(p3, BufWriteOk(p3.me.out, RESPONSE)).(me := p3.me.(out := BufWrite(p3.me.out, RESPONSE)))
  }

  /** The two links before Init, seen from the client. */
  function Connected(client: Sock, server: Sock, clock: int, timeout: nat): Pair {
    Pair(NewLink(RESPONSE, client), NewLink([], server), clock, timeout, false, false)
  }
}
