/** The objects of src/forwarder.cc, updated in place.  Each method does what the corresponding
    function of ForwarderModel says, for the kernel behaviour it met; each CHECK is an assertion. */
module Forwarder {
  import opened Common
  import M = ForwarderModel
  import P = ForwarderProofs

  /** A socket with its epoll registration's pending edges: the kernel's side of a link. */
  class Socket {
    var state: M.Sock

    constructor (state: M.Sock)
      ensures this.state == state
    {
      this.state := state;
    }
  }

  class Buffer {
    var capacity: int
    var size: int
    var rd: bool          // pipe_[0] >= 0
    var wr: bool          // pipe_[1] >= 0
    // The kernel's side of the pipe
    var content: string
    var slotsFull: bool
    var made: bool
    var rdCloses: nat
    var wrCloses: nat
    ghost var finished: bool
    ghost var broke: bool

    ghost function View(): M.Buf
      reads this
    {
      M.Buf(capacity, size, rd, wr, content, slotsFull, made, rdCloses, wrCloses, finished, broke)
    }

    constructor ()
      ensures View() == M.NO_BUF
    {
      capacity, size, rd, wr := 0, 0, false, false;
      content, slotsFull, made, rdCloses, wrCloses, finished, broke := [], false, false, 0, 0, false, false;
    }

    /** pipe() fails when the process is out of descriptors; otherwise the kernel grants a capacity. */
    method Init(sizeBytes: nat) returns (ok: bool)
      requires sizeBytes > 0 && View() == M.NO_BUF
      modifies this
      ensures ok ==> capacity >= sizeBytes && View() == M.InitBuf(capacity)
      ensures !ok ==> View() == M.NO_BUF
    {
      ok :| true;
      if ok {
        var granted: nat :| granted >= sizeBytes;
        capacity, rd, wr, made := granted, true, true, true;
      }
    }

    method Write(data: string)
      requires M.BufWriteOk(View(), data)
      modifies this
      ensures View() == M.BufWrite(old(View()), data)
    {
      content := content + data;
      size := size + |data|;
      assert 0 <= size <= capacity;
    }

    /** splice(fd, nullptr, pipe_[1], nullptr, capacity_ - size_, SPLICE_F_NONBLOCK | SPLICE_F_MOVE) */
    method SpliceIn(fd: Socket) returns (ret: int, again: bool, ghost c: M.InChoice)
      requires wr && 0 <= size < capacity
      modifies this, fd
      ensures M.InPossible(old(View()), old(fd.state), c)
      ensures c.InData? ==>
                && ret == c.n
                && View() == old(View()).(content := old(content) + old(fd.state.avail)[..c.n], slotsFull := c.full)
                && fd.state == old(fd.state).(avail := old(fd.state.avail)[c.n..],
                                                received := old(fd.state.received) + old(fd.state.avail)[..c.n])
      ensures !c.InData? ==> View() == old(View()) && fd.state == old(fd.state)
      ensures c.InEof? ==> ret == 0
      ensures c.InAgain? ==> ret < 0 && again
      ensures c.InError? ==> ret < 0 && !again
    {
      again := false;
      var fails: bool :| true;
      if fails {
        ret, c := -1, M.InError;
      } else if slotsFull || (fd.state.avail == [] && !fd.state.eof) {
        ret, again, c := -1, true, M.InAgain;
      } else if fd.state.avail == [] {
        ret, c := 0, M.InEof;
      } else {
        var n: nat :| 1 <= n <= |fd.state.avail| && n <= capacity - size;
        var full: bool :| true;
        ret, c := n, M.InData(n, full);
        content, slotsFull := content + fd.state.avail[..n], full;
        fd.state := fd.state.(received := fd.state.received + fd.state.avail[..n], avail := fd.state.avail[n..]);
      }
    }

    method WriteFrom(fd: Socket) returns (status: M.IoStatus, ghost c: M.InChoice)
      requires wr && 0 <= size <= capacity  // CHECKs
      modifies this, fd
      ensures var r := M.WriteFrom(old(View()), old(fd.state), c);
              r.ok && status == r.status && View() == r.buf && fd.state == r.sock
    {
      if size == capacity { return M.NoOp, M.InAgain; }
      var ret, again;
      ret, again, c := SpliceIn(fd);
      if ret < 0 {
        if again { return M.NoOp, c; }
        wr, wrCloses, broke := false, wrCloses + 1, true;
        return M.Error, c;
      }
      if ret == 0 {
        wr, wrCloses := false, wrCloses + 1;
        return M.Eof, c;
      }
      size := size + ret;
      assert 0 <= size <= capacity;
      return M.Data, c;
    }

    /** The zero-byte write() and splice(pipe_[0], nullptr, fd, nullptr, size_, ...) that follow an
        emptiness test.  `again` covers a zero-byte write() that would block as well as a splice()
        that would block and has left the pipe alone. */
    method SpliceOut(fd: Socket) returns (ret: int, again: bool, ghost c: M.OutChoice)
      requires rd && 0 < size == |content|
      modifies this, fd
      ensures M.OutPossible(old(View()), old(fd.state), c)
      ensures c.OutData? ==>
                && ret == c.n
                && View() == old(View()).(content := old(content)[c.n..],
                                          slotsFull := old(slotsFull) && c.full && c.n < |old(content)|)
                && fd.state == old(fd.state).(sent := old(fd.state.sent) + old(content)[..c.n], roomy := c.roomy)
      ensures c.OutAgain? ==> ret < 0 && again && View() == old(View()) && fd.state == old(fd.state)
      ensures c.OutError? ==>
                && ret < 0 && !again && fd.state == old(fd.state)
                && View() == old(View()).(content := if c.lost then [] else old(content))
    {
      again := false;
      var fails: bool :| true;
      if fails {
        var lost: bool :| true;
        ret, c := -1, M.OutError(lost);
        if lost { content := []; }
      } else if !fd.state.roomy {
        ret, again, c := -1, true, M.OutAgain;
      } else {
        var n: nat :| 1 <= n <= |content|;
        var full, roomy: bool :| true;
        ret, c := n, M.OutData(n, full, roomy);
        fd.state := fd.state.(sent := fd.state.sent + content[..n], roomy := roomy);
        slotsFull := slotsFull && full && n < |content|;
        content := content[n..];
      }
    }

    method ReadTo(fd: Socket) returns (status: M.IoStatus, ghost c: M.OutChoice)
      requires rd && 0 <= size <= capacity && size == |content|  // CHECKs, and size_ counts the pipe's bytes
      modifies this, fd
      ensures var r := M.ReadTo(old(View()), old(fd.state), c);
              r.ok && status == r.status && View() == r.buf && fd.state == r.sock
    {
      hide M.PickOut, M.OutPossible;
      c := M.OutAgain;
      if size == 0 {
        if wr { return M.NoOp, c; }
        rd, rdCloses, finished := false, rdCloses + 1, true;
        return M.Eof, c;
      }
      var ret, again;
      ghost var b, s := View(), fd.state;
      ret, again, c := SpliceOut(fd);
      Chosen(b, s, c);
      assert ret != 0;
      if ret < 0 {
        if again { return M.NoOp, c; }
        rd, rdCloses, broke := false, rdCloses + 1, true;
        return M.Error, c;
      }
      size := size - ret;
      assert 0 <= size <= capacity;
      return M.Data, c;
    }

    static lemma Chosen(b: M.Buf, s: M.Sock, c: M.OutChoice)
      requires M.OutPossible(b, s, c)
      ensures M.PickOut(b, s, c) == c && (c.OutData? ==> 1 <= c.n <= |b.content|)
    {
    }

    /** ~Buffer */
    method Destroy()
      modifies this
      ensures View() == M.DestroyBuf(old(View()))
    {
      if rd { rd, rdCloses := false, rdCloses + 1; }
      if wr { wr, wrCloses := false, wrCloses + 1; }
    }
  }

  class EventLoop {
    var clock: int
    const timeout: nat

    constructor (clock: int, timeout: nat)
      ensures this.clock == clock && this.timeout == timeout
    {
      this.clock, this.timeout := clock, timeout;
    }
  }

  class LinkEventHandler {
    const fd: Socket
    const out: Buffer
    var readable: bool
    var writable: bool
    var other: LinkEventHandler?
    // EventHandler's fields
    var refs: int
    var registered: bool  // event_loop_ != nullptr
    var deadline: int
    // What the event loop keeps about this link (epoll mask, batch entry) and what only the proof
    // keeps (stack references, destruction, greeting), in those fields of the record.
    var aux: M.Link
    ghost var terminated: bool

    constructor (fd: Socket, out: Buffer, greeting: string)
      requires out.View() == M.NO_BUF
      ensures this.fd == fd && this.out == out && View() == M.NewLink(greeting, fd.state)
      ensures other == null && !terminated
    {
      this.fd, this.out := fd, out;
      readable, writable, other := true, true, null;
      refs, registered, deadline := 0, false, 0;
      aux := M.NewLink(greeting, fd.state);
      terminated := false;
    }

    ghost function View(): M.Link
      reads this, fd, out
    {
      aux.(readable := readable, writable := writable, refs := refs, registered := registered,
           deadline := deadline, out := out.View(), sock := fd.state)
    }

    /** Two links that refer to each other and share nothing. */
    ghost predicate Linked()
      reads this, other
    {
      && other != null && other.other == this && other != this
      && other.fd != fd && other.out != out
      && other.terminated == terminated
    }

    ghost function Pair(loop: EventLoop): M.Pair
      requires Linked()
      reads this, fd, out, other, if other != null then {other.fd, other.out} else {}, loop
    {
      M.Pair(View(), other.View(), loop.clock, loop.timeout, terminated, false)
    }

    // EventHandler and EventLoop, as far as one link sees them -----------------------------------

    method IncRef()
      requires !aux.freed && refs >= 0  // CHECK
      modifies this`refs
      ensures refs == old(refs) + 1
    {
      refs := refs + 1;
    }

    method DecRef()
      requires M.UnrefOk(View())  // CHECKs, the destructor's included
      modifies this`refs, this`aux, out
      ensures View() == M.Unref(old(View()))
    {
      refs := refs - 1;
      if refs == 0 {
        assert !readable && !writable && !registered;
        out.Destroy();
        aux := aux.(freed := true);
      }
    }

    /** EPOLL_CTL_ADD and EPOLL_CTL_MOD queue an event for what is ready already. */
    method Arm(in_: bool, out_: bool)
      modifies this`aux, fd
      ensures View() == M.Arm(old(View()), in_, out_)
    {
      aux := aux.(maskIn := in_, maskOut := out_);
      if in_ && M.InReady(fd.state) { fd.state := fd.state.(inEdge := true); }
      if out_ && fd.state.roomy { fd.state := fd.state.(outEdge := true); }
    }

    method LoopRemove()
      requires registered && !aux.freed && M.UnrefOk(M.Unlisted(View()))
      modifies this`registered, this`refs, this`aux, fd, out
      ensures View() == M.Unref(M.Unlisted(old(View())))
    {
      registered := false;
      aux := aux.(maskIn := false, maskOut := false);
      fd.state := fd.state.(inEdge := false, outEdge := false);
      DecRef();
    }

    // LinkEventHandler ---------------------------------------------------------------------------

    method Close(loop: EventLoop)
      requires Linked() && !M.Close(Pair(loop)).failed
      modifies this, fd, out, other, other.out
      ensures Linked() && other == old(other) && Pair(loop) == M.Close(old(Pair(loop)))
    {
      CloseSteps(Pair(loop));
      hide M.Close, M.Unref, M.UnrefOk, M.Unlisted;
      if readable || writable { CloseOpen(); }
    }

    /** What Close does unless the link is closed already. */
    method CloseOpen()
      requires Linked() && M.UnrefOk(other.View()) && registered && !aux.freed
      requires var l := M.Unlisted(View().(readable := false, writable := false));
               M.UnrefOk(l) && !M.Unref(l).freed && M.Unref(l).sock.closes == 0
      modifies this`readable, this`writable, this`registered, this`refs, this`aux, fd, out, other`refs, other`aux, other.out
      ensures Linked() && other.View() == M.Unref(old(other.View()))
      ensures var l := M.Unref(M.Unlisted(old(View()).(readable := false, writable := false)));
              View() == l.(sock := l.sock.(closes := 1))
    {
      hide M.Unref, M.UnrefOk, M.Unlisted;
      Unreference();
      RemoveAndCloseFd();
    }

    /** Close up to and including other_->DecRef(). */
    method Unreference()
      requires Linked() && M.UnrefOk(other.View())
      modifies this`readable, this`writable, other`refs, other`aux, other.out
      ensures View() == old(View()).(readable := false, writable := false)
      ensures other.View() == M.Unref(old(other.View()))
    {
      readable, writable := false, false;
      other.DecRef();
    }

    /** The rest of Close: close(fd()) still reads this object after LoopRemove. */
    method RemoveAndCloseFd()
      requires registered && !aux.freed && M.UnrefOk(M.Unlisted(View()))
      requires var l := M.Unref(M.Unlisted(View())); !l.freed && l.sock.closes == 0
      modifies this`registered, this`refs, this`aux, fd, out
      ensures var l := M.Unref(M.Unlisted(old(View()))); View() == l.(sock := l.sock.(closes := 1))
    {
      LoopRemove();
      assert !aux.freed && fd.state.closes == 0;
      fd.state := fd.state.(closes := fd.state.closes + 1);
    }

    method Terminate(loop: EventLoop)
      requires Linked() && !M.Terminate(Pair(loop)).failed
      modifies this, fd, out, other, other.fd, other.out
      ensures Linked() && other == old(other) && Pair(loop) == M.Terminate(old(Pair(loop)))
    {
      ghost var p := Pair(loop);
      TerminateSteps(p);
      hide M.Close;
      terminated := true;
      other.terminated := true;
      assert Pair(loop) == p.(terminated := true);
      Close(loop);
      assert other.Pair(loop) == M.Swap(Pair(loop));
      other.Close(loop);
      assert Pair(loop) == M.Swap(other.Pair(loop));
    }

    method CloseForReading(loop: EventLoop)
      requires Linked() && !M.CloseForReading(Pair(loop)).failed
      modifies this, fd, out, other, other.out
      ensures Linked() && other == old(other) && Pair(loop) == M.CloseForReading(old(Pair(loop)))
    {
      CloseForReadingSteps(Pair(loop));
      hide M.Close, M.CloseForReading, M.Arm;
      assert readable;
      if writable {
        readable := false;
        Arm(false, true);
        assert fd.state.closes == 0;
        fd.state := fd.state.(shutRd := true);
      } else {
        Close(loop);
      }
    }

    method CloseForWriting(loop: EventLoop)
      requires Linked() && !M.CloseForWriting(Pair(loop)).failed
      modifies this, fd, out, other, other.out
      ensures Linked() && other == old(other) && Pair(loop) == M.CloseForWriting(old(Pair(loop)))
    {
      CloseForWritingSteps(Pair(loop));
      hide M.Close, M.CloseForWriting, M.Arm;
      assert writable;
      if readable {
        writable := false;
        Arm(true, false);
        assert fd.state.closes == 0;
        fd.state := fd.state.(shutWr := true);
      } else {
        Close(loop);
      }
    }

    /** What the kernel does to the two sockets before a system call: any number of its steps. */
    method Interfere(loop: EventLoop) returns (ghost es: seq<M.SideEnv>)
      requires Linked()
      modifies fd, other.fd
      ensures Pair(loop) == M.ExecEnv(old(Pair(loop)), es)
    {
      hide M.PairEnv, M.ExecEnv;
      es := [];
      NoMore(Pair(loop));
      var n: nat :| true;
      for i := 0 to n
        invariant Pair(loop) == M.ExecEnv(old(Pair(loop)), es)
      {
        var onMe: bool, e: M.Env :| true;
        InterfereOnce(loop, onMe, e);
        OneMore(old(Pair(loop)), es, M.SideEnv(onMe, e));
        es := es + [M.SideEnv(onMe, e)];
      }
    }

    method InterfereOnce(loop: EventLoop, onMe: bool, e: M.Env)
      requires Linked()
      modifies fd, other.fd
      ensures Pair(loop) == M.PairEnv(old(Pair(loop)), M.SideEnv(onMe, e))
    {
      hide M.SockEnv;
      if onMe {
        fd.state := M.SockEnv(fd.state, registered && aux.maskIn, registered && aux.maskOut, e);
      } else {
        other.fd.state := M.SockEnv(other.fd.state, other.registered && other.aux.maskIn,
                                    other.registered && other.aux.maskOut, e);
      }
    }

    static lemma NoMore(p: M.Pair)
      ensures M.ExecEnv(p, []) == p
    {
    }

    static lemma OneMore(p: M.Pair, es: seq<M.SideEnv>, e: M.SideEnv)
      ensures M.ExecEnv(p, es + [e]) == M.PairEnv(M.ExecEnv(p, es), e)
    {
      assert (es + [e])[..|es|] == es;
    }

    /** The first half of the loop body of ForwardFromOther. */
    method Fill(loop: EventLoop) returns (flow: M.Flow, ghost c: M.InChoice)
      requires Linked() && P.SafeInv(Pair(loop)) && P.Held(Pair(loop))
      modifies this, fd, out, other, other.fd, other.out
      ensures Linked() && other == old(other) && (Pair(loop), flow) == M.Fill(old(Pair(loop)), c)
    {
      ghost var p := Pair(loop);
      FillReady(p);
      if !other.readable { return M.Quiet, M.InAgain; }
      var status;
      status, c := out.WriteFrom(other.fd);
      FillSteps(p, c);
      hide M.Fill, M.WriteFrom, M.Terminate, M.CloseForReading, P.SafeInv;
      assert Pair(loop) == AfterWriteFrom(p, c);
      match status
      case Data => flow := M.Moved;
      case NoOp => flow := M.Quiet;
      case Eof =>
        assert other.Pair(loop) == M.Swap(Pair(loop));
        other.CloseForReading(loop);
        assert Pair(loop) == M.Swap(other.Pair(loop));
        flow := M.Moved;
      case Error =>
        Terminate(loop);
        flow := M.Broken;
    }

    /** The second half of the loop body. */
    method Flush(loop: EventLoop) returns (flow: M.Flow, ghost c: M.OutChoice)
      requires Linked() && P.SafeInv(Pair(loop)) && P.Held(Pair(loop))
      modifies this, fd, out, other, other.fd, other.out
      ensures Linked() && other == old(other) && (Pair(loop), flow) == M.Flush(old(Pair(loop)), c)
    {
      ghost var p := Pair(loop);
      FlushReady(p);
      if !writable { return M.Quiet, M.OutAgain; }
      var status;
      status, c := out.ReadTo(fd);
      FlushSteps(p, c);
      hide M.Flush, M.ReadTo, M.Terminate, M.CloseForWriting, P.SafeInv;
      assert Pair(loop) == AfterReadTo(p, c);
      match status
      case Data => flow := M.Moved;
      case NoOp => flow := M.Quiet;
      case Eof =>
        CloseForWriting(loop);
        flow := M.Moved;
      case Error =>
        Terminate(loop);
        flow := M.Broken;
    }

    /** One round of the loop of ForwardFromOther. */
    method Round(loop: EventLoop) returns (flow: M.Flow, ghost io: M.Io)
      requires Linked() && P.SafeInv(Pair(loop)) && P.Held(Pair(loop))
      modifies this, fd, out, other, other.fd, other.out
      ensures Linked() && other == old(other) && (Pair(loop), flow) == M.ForwardStep(old(Pair(loop)), io)
      ensures P.StepRel(old(Pair(loop)), Pair(loop), flow)
    {
      ghost var p := Pair(loop);
      hide M.Fill, M.Flush, M.ExecEnv, P.SafeInv, P.EdgeInv, P.StrictEdge;
      ghost var e1 := Interfere(loop);
      P.ExecEnvSafe(p, e1);
      ghost var p1 := Pair(loop);
      var flow1;
      ghost var c1;
      flow1, c1 := Fill(loop);
      P.FillSafe(p1, c1);
      if flow1 == M.Broken {
        flow, io := M.Broken, M.Io(e1, c1, [], M.OutAgain);
        P.ForwardStepSafe(p, io);
        return;
      }
      ghost var p2 := Pair(loop);
      ghost var e2 := Interfere(loop);
      P.ExecEnvSafe(p2, e2);
      var flow2;
      ghost var c2;
      flow2, c2 := Flush(loop);
      flow, io := if flow2 == M.Quiet then flow1 else flow2, M.Io(e1, c1, e2, c2);
      P.ForwardStepSafe(p, io);
    }

    /** Forwards as much data as possible from the other link to this one.  The loop ends because
        each round but the last consumes something: available input, buffered bytes, or a pipe end. */
    method ForwardFromOther(loop: EventLoop) returns (res: bool, ghost ios: seq<M.Io>)
      requires Linked() && P.SafeInv(Pair(loop)) && P.Held(Pair(loop))
      modifies this, fd, out, other, other.fd, other.out
      ensures Linked() && other == old(other)
      ensures var r := M.Forward(old(Pair(loop)), ios); r.done && Pair(loop) == r.p && res == r.moved
    {
      ghost var p := Pair(loop);
      hide M.ForwardStep, M.Forward, P.SafeInv, P.EdgeInv, P.StrictEdge;
      res, ios := false, [];
      while true
        invariant Linked() && other == old(other)
        invariant P.SafeInv(Pair(loop)) && P.Held(Pair(loop))
        invariant AllMoved(p, ios) == Some(Pair(loop)) && res == (ios != [])
        decreases P.Measure(Pair(loop))
      {
        P.MeasureNonNegative(Pair(loop));
        ghost var q := Pair(loop);
        var flow;
        ghost var io;
        flow, io := Round(loop);
        AllMovedThen(p, ios, io);
        ios := ios + [io];
        if flow == M.Broken { return false, ios; }
        if flow == M.Quiet { return; }
        res := true;
      }
    }

    /** The lambda of OnEvent.  C++ does not say which operand of `|` is evaluated first. */
    method Process(loop: EventLoop, ev: M.Events) returns (res: bool, ghost o: M.Oracle)
      requires Linked() && P.SafeInv(Pair(loop)) && P.Held(Pair(loop))
      modifies this, fd, out, other, other.fd, other.out
      ensures Linked() && other == old(other)
      ensures var r := M.Process(old(Pair(loop)), ev, o); r.done && Pair(loop) == r.p && res == r.moved
      ensures P.SafeInv(Pair(loop)) && P.Held(Pair(loop)) && other.aux.temps == old(other.aux.temps)
    {
      ghost var p := Pair(loop);
      hide M.Forward, M.Terminate, P.SafeInv, P.EdgeInv, P.StrictEdge;
      if ev.err {
        P.TerminateNotFailed(p);
        Terminate(loop);
        return false, M.Oracle(false, [], []);
      }
      var inFirst: bool :| true;
      o := M.Oracle(inFirst, [], []);
      var r1, r2 := false, false;
      if inFirst {
        if ev.in_ { r1, o := ForwardToOther(loop, o); }
        if ev.out { r2, o := ForwardToThis(loop, o); }
      } else {
        if ev.out { r1, o := ForwardToThis(loop, o); }
        if ev.in_ { r2, o := ForwardToOther(loop, o); }
      }
      res := r1 || r2;
    }

    method ForwardToThis(loop: EventLoop, ghost o0: M.Oracle) returns (res: bool, ghost o: M.Oracle)
      requires Linked() && P.SafeInv(Pair(loop)) && P.Held(Pair(loop))
      modifies this, fd, out, other, other.fd, other.out
      ensures Linked() && other == old(other) && P.SafeInv(Pair(loop)) && P.Held(Pair(loop))
      ensures other.aux.temps == old(other.aux.temps)
      ensures o == o0.(toMe := o.toMe)
      ensures var r := M.Forward(old(Pair(loop)), o.toMe); r.done && Pair(loop) == r.p && res == r.moved
    {
      ghost var p := Pair(loop);
      hide M.Forward, P.SafeInv, P.EdgeInv, P.StrictEdge;
      ghost var ios;
      res, ios := ForwardFromOther(loop);
      o := o0.(toMe := ios);
      P.ForwardSafe(p, ios);
    }

    method ForwardToOther(loop: EventLoop, ghost o0: M.Oracle) returns (res: bool, ghost o: M.Oracle)
      requires Linked() && P.SafeInv(Pair(loop)) && P.Held(Pair(loop))
      modifies this, fd, out, other, other.fd, other.out
      ensures Linked() && other == old(other) && P.SafeInv(Pair(loop)) && P.Held(Pair(loop))
      ensures other.aux.temps == old(other.aux.temps)
      ensures o == o0.(toPeer := o.toPeer)
      ensures var r := M.Forward(M.Swap(old(Pair(loop))), o.toPeer);
              r.done && Pair(loop) == M.Swap(r.p) && res == r.moved
    {
      ghost var p := Pair(loop);
      P.SwapSafe(p);
      hide M.Forward, P.SafeInv, P.EdgeInv, P.StrictEdge;
      assert other.Pair(loop) == M.Swap(p);
      ghost var ios;
      res, ios := other.ForwardFromOther(loop);
      o := o0.(toPeer := ios);
      P.ForwardSafe(M.Swap(p), ios);
      assert Pair(loop) == M.Swap(other.Pair(loop));
      P.SwapSafe(other.Pair(loop));
    }

    /** IncRef by a call that is going to run, and DecRef at its end. */
    method Hold()
      requires !aux.freed && refs >= 0
      modifies this`refs, this`aux
      ensures View() == old(View()).(refs := old(refs) + 1, temps := old(aux.temps) + 1)
    {
      IncRef();
      aux := aux.(temps := aux.temps + 1);
    }

    method Release()
      requires aux.temps > 0 && M.UnrefOk(View())
      modifies this`refs, this`aux, out
      ensures View() == M.Unref(old(View()).(temps := old(aux.temps) - 1))
    {
      aux := aux.(temps := aux.temps - 1);
      DecRef();
    }

    method Refresh(loop: EventLoop)
      requires !aux.freed && (readable || writable ==> registered)
      modifies this`deadline
      ensures View() == old(View()).(deadline := if readable || writable then loop.clock + loop.timeout else old(deadline))
    {
      if readable || writable { deadline := loop.clock + loop.timeout; }
    }

    /** other_->IncRef() */
    method HoldOther(loop: EventLoop)
      requires Linked() && P.SafeInv(Pair(loop)) && registered && (aux.temps > 0 || aux.batch.Some?)
      modifies other`refs, other`aux
      ensures Linked() && Pair(loop) == M.HoldPeer(old(Pair(loop)))
      ensures P.SafeInv(Pair(loop)) && P.Held(Pair(loop)) && other.aux.temps > 0
    {
      ghost var p := Pair(loop);
      RegisteredAlive(p);
      P.HoldPeerSafe(p);
      hide P.SafeInv, P.EdgeInv, M.HoldPeer;
      other.Hold();
    }

    /** other_->DecRef() */
    method ReleaseOther(loop: EventLoop)
      requires Linked() && P.SafeInv(Pair(loop)) && P.Held(Pair(loop)) && other.aux.temps > 0
      modifies other`refs, other`aux, other.out
      ensures Linked() && Pair(loop) == M.ReleasePeer(old(Pair(loop)))
    {
      ghost var p := Pair(loop);
      FinishSteps(p);
      hide P.SafeInv, M.Unref, M.ReleasePeer, M.UnrefOk;
      other.Release();
    }

    method OnEvent(loop: EventLoop, ev: M.Events) returns (ghost o: M.Oracle)
      requires Linked() && P.SafeInv(Pair(loop)) && registered && (aux.temps > 0 || aux.batch.Some?)
      modifies this, fd, out, other, other.fd, other.out
      ensures Linked() && other == old(other)
      ensures var r := M.OnEvent(old(Pair(loop)), ev, o); r.done && Pair(loop) == r.p
    {
      ghost var p := Pair(loop);
      hide M.Process, P.SafeInv, M.HoldPeer, M.ReleasePeer, M.RefreshBoth, M.OnEvent;
      RegisteredAlive(p);
      var moved;
      moved, o := HoldAndProcess(loop, ev);
      OnEventSteps(p, ev, o);
      RefreshAndRelease(loop, moved);
    }

    /** The beginning of OnEvent. */
    method HoldAndProcess(loop: EventLoop, ev: M.Events) returns (moved: bool, ghost o: M.Oracle)
      requires Linked() && P.SafeInv(Pair(loop)) && registered && (aux.temps > 0 || aux.batch.Some?)
      modifies this, fd, out, other, other.fd, other.out
      ensures Linked() && other == old(other)
      ensures var r := M.Process(M.HoldPeer(old(Pair(loop))), ev, o);
              r.done && Pair(loop) == r.p && moved == r.moved
      ensures P.SafeInv(Pair(loop)) && P.Held(Pair(loop)) && other.aux.temps > 0
    {
      hide M.Process, P.SafeInv, M.HoldPeer;
      HoldOther(loop);
      moved, o := Process(loop, ev);
    }

    /** The end of OnEvent. */
    method RefreshAndRelease(loop: EventLoop, moved: bool)
      requires Linked() && P.SafeInv(Pair(loop)) && P.Held(Pair(loop)) && other.aux.temps > 0
      modifies this`deadline, other`deadline, other`refs, other`aux, other.out
      ensures Linked()
      ensures Pair(loop) == M.ReleasePeer(if moved then M.RefreshBoth(old(Pair(loop))) else old(Pair(loop)))
    {
      hide P.SafeInv, M.ReleasePeer, M.RefreshBoth;
      if moved { RefreshBoth(loop); }
      ReleaseOther(loop);
    }

    method RefreshBoth(loop: EventLoop)
      requires Linked() && P.SafeInv(Pair(loop)) && P.Held(Pair(loop))
      modifies this`deadline, other`deadline
      ensures Linked() && Pair(loop) == M.RefreshBoth(old(Pair(loop))) && P.SafeInv(Pair(loop)) && P.Held(Pair(loop))
    {
      ghost var p := Pair(loop);
      hide M.RefreshBoth, P.SafeInv, M.Unref, M.UnrefOk, M.ReleasePeer;
      FinishSteps(p);
      P.RefreshBothEffect(p);
      P.DeadlineSafe(p, P.Deadline(p, p.me), P.Deadline(p, p.peer));
      OpenRegistered(p);
      Refresh(loop);
      other.Refresh(loop);
    }

    method OnTimeout(loop: EventLoop)
      requires Linked() && P.SafeInv(Pair(loop)) && registered && (aux.temps > 0 || aux.batch.Some?)
      modifies this, fd, out, other, other.fd, other.out
      ensures Linked() && other == old(other) && Pair(loop) == M.OnTimeout(old(Pair(loop)))
    {
      ghost var p := Pair(loop);
      hide P.SafeInv, M.HoldPeer, M.ReleasePeer, M.Terminate, M.OnTimeout;
      RegisteredAlive(p);
      HoldOther(loop);
      TerminateAndRelease(loop);
      OnTimeoutSteps(p);
    }

    /** The end of OnTimeout. */
    method TerminateAndRelease(loop: EventLoop)
      requires Linked() && P.SafeInv(Pair(loop)) && P.Held(Pair(loop)) && other.aux.temps > 0
      modifies this, fd, out, other, other.fd, other.out
      ensures Linked() && other == old(other) && Pair(loop) == M.ReleasePeer(M.Terminate(old(Pair(loop))))
    {
      ghost var p := Pair(loop);
      hide P.SafeInv, M.Terminate, M.ReleasePeer;
      P.TerminateNotFailed(p);
      Terminate(loop);
      ReleaseOther(loop);
    }

    /** loop->Add(eh, EPOLLIN | EPOLLOUT | EPOLLET) */
    method LoopAdd(loop: EventLoop)
      requires !registered && !aux.freed && refs >= 0
      modifies this`refs, this`registered, this`deadline, this`aux, fd
      ensures View() == M.Arm(old(View()).(refs := old(refs) + 1, registered := true,
                                           deadline := loop.clock + loop.timeout), true, true)
    {
      IncRef();
      registered := true;
      deadline := loop.clock + loop.timeout;
      Arm(true, true);
    }

    /** LinkEventHandler::New (src/forwarder.cc:150-175).  When a pipe cannot be made both handlers are
        deleted again; otherwise they are linked, referenced, registered, and the response is under way. */
    static method New(loop: EventLoop, clientFd: Socket, serverFd: Socket, serverToClient: nat, clientToServer: nat)
      returns (ok: bool, client: LinkEventHandler, server: LinkEventHandler,
               ghost clientInit: bool, ghost clientCapacity: nat, ghost serverCapacity: nat)
      requires clientFd != serverFd && M.FreshSock(clientFd.state) && M.FreshSock(serverFd.state)
      requires |M.RESPONSE| <= serverToClient && 0 < clientToServer
      modifies clientFd, serverFd
      ensures client.fd == clientFd && server.fd == serverFd && fresh(client) && fresh(server)
      ensures ok ==> serverToClient <= clientCapacity && clientToServer <= serverCapacity
      ensures ok ==>
                && client.Linked() && client.other == server && P.Inv(client.Pair(loop))
                && client.Pair(loop) == M.NewSucceeds(M.Connected(old(clientFd.state), old(serverFd.state), loop.clock, loop.timeout),
                                                      clientCapacity, serverCapacity)
      ensures !ok ==>
                var p := M.NewFails(M.Connected(old(clientFd.state), old(serverFd.state), loop.clock, loop.timeout),
                                    clientInit, clientCapacity);
                client.View() == p.me && server.View() == p.peer && !p.failed
    {
      hide M.InitBuf, P.Inv, M.NewSucceeds, M.NewFails, M.Connected, M.FreshSock, M.BufWrite, Discarded;
      SocketsOpen(clientFd.state, serverFd.state);
      client, server := Create(clientFd, serverFd);
      ok, clientInit, clientCapacity, serverCapacity := client.InitBoth(server, serverToClient, clientToServer);
      if !ok {
        FailsClean(clientFd.state, serverFd.state, loop.clock, loop.timeout, clientInit, clientCapacity);
        client.DiscardBoth(server);
        return;
      }
      Capacities(clientCapacity, serverCapacity);
      client.Start(loop, server);
    }

    static lemma FailsClean(client: M.Sock, server: M.Sock, clock: int, timeout: nat, clientInit: bool, capacity: nat)
      requires client.closes == 0 && server.closes == 0
      ensures var p := M.NewFails(M.Connected(client, server, clock, timeout), clientInit, capacity);
              && !p.failed && p.peer == Discarded(M.NewLink([], server))
              && p.me == Discarded(M.NewLink(M.RESPONSE, client).(out := if clientInit then M.InitBuf(capacity) else M.NO_BUF))
    {
    }

    static lemma SocketsOpen(c: M.Sock, s: M.Sock)
      requires M.FreshSock(c) && M.FreshSock(s)
      ensures c.closes == 0 && s.closes == 0
    {
    }

    /** Line 158: the second pipe is made only if the first one was. */
    method InitBoth(server: LinkEventHandler, serverToClient: nat, clientToServer: nat)
      returns (ok: bool, ghost clientInit: bool, ghost clientCapacity: nat, ghost serverCapacity: nat)
      requires server.out != out && 0 < serverToClient && 0 < clientToServer
      requires out.View() == M.NO_BUF && server.out.View() == M.NO_BUF
      modifies out, server.out
      ensures out.View() == (if clientInit then M.InitBuf(clientCapacity) else M.NO_BUF) && (ok ==> clientInit)
      ensures server.out.View() == if ok then M.InitBuf(serverCapacity) else M.NO_BUF
      ensures ok ==> serverToClient <= clientCapacity && clientToServer <= serverCapacity
    {
      hide M.InitBuf;
      ok := out.Init(serverToClient);
      clientInit, clientCapacity, serverCapacity := ok, if ok then out.capacity else 0, 0;
      if ok {
        ok := server.out.Init(clientToServer);
        serverCapacity := if ok then server.out.capacity else 0;
      }
    }

    method DiscardBoth(server: LinkEventHandler)
      requires server != this && server.fd != fd && server.out != out
      requires !registered && refs == 0 && !aux.freed && fd.state.closes == 0
      requires !server.registered && server.refs == 0 && !server.aux.freed && server.fd.state.closes == 0
      modifies this`readable, this`writable, this`aux, fd, out, server`readable, server`writable, server`aux, server.fd, server.out
      ensures View() == Discarded(old(View())) && server.View() == Discarded(old(server.View()))
    {
      hide M.DestroyBuf;
      Discard();
      server.Discard();
    }

    static function Discarded(l: M.Link): M.Link {
      l.(readable := false, writable := false, freed := true,
         sock := l.sock.(closes := l.sock.closes + 1), out := M.DestroyBuf(l.out))
    }

    static lemma Capacities(c: nat, s: nat)
      ensures M.InitBuf(c).capacity == c && M.InitBuf(s).capacity == s
    {
    }

    /** The two new handlers. */
    static method Create(clientFd: Socket, serverFd: Socket) returns (client: LinkEventHandler, server: LinkEventHandler)
      requires clientFd != serverFd
      ensures fresh(client) && fresh(server) && fresh(client.out) && fresh(server.out)
      ensures client != server && client.out != server.out && client.fd == clientFd && server.fd == serverFd
      ensures client.View() == M.NewLink(M.RESPONSE, clientFd.state) && server.View() == M.NewLink([], serverFd.state)
      ensures !client.terminated && !server.terminated
    {
      var toClient := new Buffer();
      var toServer := new Buffer();
      client := new LinkEventHandler(clientFd, toClient, M.RESPONSE);
      server := new LinkEventHandler(serverFd, toServer, []);
    }

    /** Lines 161-164: closes the socket and deletes the handler, which nobody has referenced yet. */
    method Discard()
      requires !registered && refs == 0 && !aux.freed && fd.state.closes == 0
      modifies this`readable, this`writable, this`aux, fd, out
      ensures View() == Discarded(old(View()))
    {
      fd.state := fd.state.(closes := fd.state.closes + 1);
      readable, writable := false, false;
      assert !readable && !writable && !registered && refs == 0;
      out.Destroy();
      aux := aux.(freed := true);
    }

    /** The end of New: links the two handlers, registers both and writes the response. */
    method Start(loop: EventLoop, server: LinkEventHandler)
      requires server != this && server.fd != fd && server.out != out && !terminated && !server.terminated
      requires |M.RESPONSE| <= out.capacity && 0 < server.out.capacity
      requires View() == M.NewLink(M.RESPONSE, fd.state).(out := M.InitBuf(out.capacity))
      requires server.View() == M.NewLink([], server.fd.state).(out := M.InitBuf(server.out.capacity))
      modifies this, fd, out, server, server.fd
      ensures Linked() && other == server
      ensures Pair(loop) == M.NewSucceeds(M.Connected(old(fd.state), old(server.fd.state), loop.clock, loop.timeout),
                                          old(out.capacity), old(server.out.capacity))
      ensures P.Inv(Pair(loop)) || !M.FreshSock(old(fd.state)) || !M.FreshSock(old(server.fd.state))
    {
      ghost var me, peer := View(), server.View();
      NewSteps(fd.state, server.fd.state, loop.clock, loop.timeout, out.capacity, server.out.capacity);
      hide M.Arm, P.Inv, M.NewSucceeds, M.InitBuf, M.NewLink, M.BufWrite;
      AttachAndAdd(loop, server);
      out.Write(M.RESPONSE);
    }

    method AttachAndAdd(loop: EventLoop, server: LinkEventHandler)
      requires server != this && server.fd != fd && server.out != out
      requires !registered && !aux.freed && refs == 0 && !server.registered && !server.aux.freed && server.refs == 0
      modifies this`other, this`refs, this`registered, this`deadline, this`aux, fd
      modifies server`other, server`refs, server`registered, server`deadline, server`aux, server.fd
      ensures other == server && server.other == this
      ensures var d := loop.clock + loop.timeout;
              && View() == M.Arm(old(View()).(refs := 2, registered := true, deadline := d), true, true)
              && server.View() == M.Arm(old(server.View()).(refs := 2, registered := true, deadline := d), true, true)
    {
      hide M.Arm;
      Attach(server);
      AddBoth(loop, server);
    }

    method AddBoth(loop: EventLoop, server: LinkEventHandler)
      requires server != this && server.fd != fd && server.out != out
      requires !registered && !aux.freed && refs == 1 && !server.registered && !server.aux.freed && server.refs == 1
      modifies this`refs, this`registered, this`deadline, this`aux, fd
      modifies server`refs, server`registered, server`deadline, server`aux, server.fd
      ensures var d := loop.clock + loop.timeout;
              && View() == M.Arm(old(View()).(refs := 2, registered := true, deadline := d), true, true)
              && server.View() == M.Arm(old(server.View()).(refs := 2, registered := true, deadline := d), true, true)
    {
      hide M.Arm;
      LoopAdd(loop);
      server.LoopAdd(loop);
    }

    method Attach(server: LinkEventHandler)
      requires server != this && !aux.freed && refs == 0 && !server.aux.freed && server.refs == 0
      modifies this`other, this`refs, server`other, server`refs
      ensures other == server && server.other == this
      ensures View() == old(View()).(refs := 1) && server.View() == old(server.View()).(refs := 1)
    {
      other := server;
      server.other := this;
      IncRef();
      server.IncRef();
    }
  }

  /** Close statement by statement, when none of its CHECKs fires. */
  lemma CloseSteps(p: M.Pair)
    requires !M.Close(p).failed
    ensures !M.Open(p.me) ==> M.Close(p) == p
    ensures M.Open(p.me) ==>
              && M.UnrefOk(p.peer) && p.me.registered && !p.me.freed
              && var l := M.Unlisted(p.me.(readable := false, writable := false));
                 var l' := M.Unref(l);
              && M.UnrefOk(l) && !l'.freed && l'.sock.closes == 0
              && M.Close(p) == p.(peer := M.Unref(p.peer), me := l'.(sock := l'.sock.(closes := 1)))
  {
  }

  lemma TerminateSteps(p: M.Pair)
    requires !M.Terminate(p).failed
    ensures var p1 := M.Close(p.(terminated := true));
            !p1.failed && !p1.me.freed && M.Terminate(p) == M.Swap(M.Close(M.Swap(p1)))
  {
  }

  lemma CloseForReadingSteps(p: M.Pair)
    requires !M.CloseForReading(p).failed
    ensures p.me.readable && !p.me.freed
    ensures p.me.writable ==>
              && p.me.registered && p.me.sock.closes == 0
              && var l := M.Arm(p.me.(readable := false), false, true);
                 M.CloseForReading(p) == p.(me := l.(sock := l.sock.(shutRd := true)))
    ensures !p.me.writable ==> M.CloseForReading(p) == M.Close(p)
  {
  }

  lemma CloseForWritingSteps(p: M.Pair)
    requires !M.CloseForWriting(p).failed
    ensures p.me.writable && !p.me.freed
    ensures p.me.readable ==>
              && p.me.registered && p.me.sock.closes == 0
              && var l := M.Arm(p.me.(writable := false), true, false);
                 M.CloseForWriting(p) == p.(me := l.(sock := l.sock.(shutWr := true)))
    ensures !p.me.readable ==> M.CloseForWriting(p) == M.Close(p)
  {
  }

  lemma FillReady(p: M.Pair)
    requires P.SafeInv(p) && P.Held(p)
    ensures !p.failed && !p.me.freed && !p.peer.freed
    ensures p.peer.readable ==> p.me.out.wr && 0 <= p.me.out.size <= p.me.out.capacity
    ensures !p.peer.readable ==> M.Fill(p, M.InAgain) == (p, M.Quiet)
  {
  }

  function AfterWriteFrom(p: M.Pair, c: M.InChoice): M.Pair {
    var r := M.WriteFrom(p.me.out, p.peer.sock, c);
    p.(me := p.me.(out := r.buf), peer := p.peer.(sock := r.sock))
  }

  /** The first half of the loop body, case by case; none of its CHECKs fires. */
  lemma FillSteps(p: M.Pair, c: M.InChoice)
    requires P.SafeInv(p) && P.Held(p) && p.peer.readable
    ensures var p1 := AfterWriteFrom(p, c);
            match M.WriteFrom(p.me.out, p.peer.sock, c).status
            case Data => M.Fill(p, c) == (p1, M.Moved)
            case NoOp => M.Fill(p, c) == (p1, M.Quiet)
            case Eof => M.Fill(p, c) == (M.Swap(M.CloseForReading(M.Swap(p1))), M.Moved)
                        && !M.CloseForReading(M.Swap(p1)).failed
            case Error => M.Fill(p, c) == (M.Terminate(p1), M.Broken) && !M.Terminate(p1).failed
  {
    P.FillSafe(p, c);
    assert !M.Fill(p, c).0.failed;
    var p1 := AfterWriteFrom(p, c);
    assert M.Check(M.Check(p, !p.me.freed && !p.peer.freed), M.WriteFrom(p.me.out, p.peer.sock, c).ok && p.peer.sock.closes == 0)
           .(me := p1.me, peer := p1.peer) == p1 by { assert p.peer.sock.closes == 0; }
    hide M.CloseForReading, M.Terminate;
  }

  lemma FlushReady(p: M.Pair)
    requires P.SafeInv(p) && P.Held(p)
    ensures !p.failed && !p.me.freed && !p.peer.freed
    ensures p.me.writable ==> p.me.out.rd && 0 <= p.me.out.size <= p.me.out.capacity
                              && p.me.out.size == |p.me.out.content|
    ensures !p.me.writable ==> M.Flush(p, M.OutAgain) == (p, M.Quiet)
  {
  }

  function AfterReadTo(p: M.Pair, c: M.OutChoice): M.Pair {
    var r := M.ReadTo(p.me.out, p.me.sock, c);
    p.(me := p.me.(out := r.buf, sock := r.sock))
  }

  lemma FlushSteps(p: M.Pair, c: M.OutChoice)
    requires P.SafeInv(p) && P.Held(p) && p.me.writable
    ensures var p1 := AfterReadTo(p, c);
            match M.ReadTo(p.me.out, p.me.sock, c).status
            case Data => M.Flush(p, c) == (p1, M.Moved)
            case NoOp => M.Flush(p, c) == (p1, M.Quiet)
            case Eof => M.Flush(p, c) == (M.CloseForWriting(p1), M.Moved) && !M.CloseForWriting(p1).failed
            case Error => M.Flush(p, c) == (M.Terminate(p1), M.Broken) && !M.Terminate(p1).failed
  {
    P.FlushSafe(p, c);
    assert !M.Flush(p, c).0.failed;
    assert p.me.sock.closes == 0;
    hide M.CloseForWriting, M.Terminate;
  }

  /** The state after rounds that have all moved something. */
  function AllMoved(p: M.Pair, ios: seq<M.Io>): Option<M.Pair>
    decreases |ios|
  {
    if ios == [] then Some(p) else
    var (q, f) := M.ForwardStep(p, ios[0]);
    if f == M.Moved then AllMoved(q, ios[1..]) else None
  }

  lemma {:induction false} AllMovedThen(p: M.Pair, ios: seq<M.Io>, io: M.Io)
    requires AllMoved(p, ios).Some?
    ensures var (q, f) := M.ForwardStep(AllMoved(p, ios).value, io);
            if f == M.Moved then AllMoved(p, ios + [io]) == Some(q)
            else M.Forward(p, ios + [io]) == M.Forwarded(q, true, f == M.Broken, f == M.Quiet && ios != [])
    decreases |ios|
  {
    hide M.ForwardStep;
    if ios == [] {
      assert (ios + [io])[1..] == [];
    } else {
      var (q, f) := M.ForwardStep(p, ios[0]);
      AllMovedThen(q, ios[1..], io);
      assert (ios + [io])[1..] == ios[1..] + [io];
    }
  }

  lemma RegisteredAlive(p: M.Pair)
    requires P.SafeInv(p) && p.me.registered
    ensures !p.failed && !p.me.freed && !p.peer.freed && p.peer.refs > 0
  {
  }

  lemma OpenRegistered(p: M.Pair)
    requires P.SafeInv(p)
    ensures (M.Open(p.me) ==> p.me.registered) && (M.Open(p.peer) ==> p.peer.registered)
  {
  }

  /** Giving peer's reference back fires no CHECK. */
  lemma FinishSteps(q: M.Pair)
    requires P.SafeInv(q) && P.Held(q)
    ensures !q.failed && !q.me.freed && !q.peer.freed && M.UnrefOk(q.peer)
    ensures q.peer.temps > 0 ==> M.ReleasePeer(q) == q.(peer := M.Unref(q.peer.(temps := q.peer.temps - 1)))
  {
  }

  lemma OnEventSteps(p: M.Pair, ev: M.Events, o: M.Oracle)
    requires !p.failed && !p.me.freed
    requires var q := M.Process(M.HoldPeer(p), ev, o).p; P.SafeInv(q) && P.Held(q)
    ensures var r := M.Process(M.HoldPeer(p), ev, o);
            M.OnEvent(p, ev, o) == r.(p := M.ReleasePeer(if r.moved then M.RefreshBoth(r.p) else r.p))
  {
    var r := M.Process(M.HoldPeer(p), ev, o);
    FinishSteps(r.p);
    P.RefreshBothEffect(r.p);
    hide M.Process, M.RefreshBoth, M.ReleasePeer, M.HoldPeer, P.SafeInv;
  }

  lemma OnTimeoutSteps(p: M.Pair)
    requires P.SafeInv(M.HoldPeer(p)) && P.Held(M.HoldPeer(p)) && !p.failed && !p.me.freed
    ensures M.OnTimeout(p) == M.ReleasePeer(M.Terminate(M.HoldPeer(p)))
  {
    P.TerminateNotFailed(M.HoldPeer(p));
    FinishSteps(M.Terminate(M.HoldPeer(p)));
    hide M.Terminate, M.ReleasePeer, M.HoldPeer;
  }

  lemma NewSteps(client: M.Sock, server: M.Sock, clock: int, timeout: nat, c: nat, s: nat)
    requires |M.RESPONSE| <= c && 0 < s
    ensures var me := M.Arm(M.NewLink(M.RESPONSE, client)
                             .(out := M.InitBuf(c), refs := 2, registered := true, deadline := clock + timeout), true, true);
            var peer := M.Arm(M.NewLink([], server)
                               .(out := M.InitBuf(s), refs := 2, registered := true, deadline := clock + timeout), true, true);
            var p := M.NewSucceeds(M.Connected(client, server, clock, timeout), c, s);
            && p == M.Pair(me.(out := M.BufWrite(me.out, M.RESPONSE)), peer, clock, timeout, false, false)
            && M.BufWriteOk(me.out, M.RESPONSE)
            && (M.FreshSock(client) && M.FreshSock(server) ==> P.Inv(p))
  {
    if M.FreshSock(client) && M.FreshSock(server) { P.NewEstablishes(client, server, clock, timeout, c, s); }
    hide P.Inv;
  }
}
