/** The forwarder as a client of the event loop.  A pair of links is hosted by a loop that has its two
    handlers: ForwarderModel and EventLoopModel agree on their registration, reference counts, deletion,
    deadlines and event masks.  Whatever the two links do, they do it by operations that the event loop
    allows when their turn comes, and afterwards the two models agree again. */
module ForwarderClient {
  import opened Common
  import F = ForwarderModel
  import FP = ForwarderProofs
  import FR = ForwarderReturns
  import E = EventLoopModel
  import EP = EventLoopProofs

  // ---------------------------------------------------------------------------------------------
  // Hosting

  const EPOLLIN := 0x1
  const EPOLLOUT := 0x4
  const EPOLLET := 0x8000_0000

  function Mask(in_: bool, out: bool): int {
    (if in_ then EPOLLIN else 0) + (if out then EPOLLOUT else 0) + EPOLLET
  }

  /** Handler h of the loop is link l.  Of its references, clients hold the one that the open other link
      `o` stands for, and `x` on the stack of a running OnEvent or OnTimeout. */
  predicate Hosted(s: E.Loop, h: nat, l: F.Link, o: F.Link, x: nat) {
    && h < |s.hs|
    && var y := s.hs[h];
       && y.registered == l.registered && y.freed == l.freed && y.refs == l.refs
       && y.owned == FP.B(F.Open(o)) + x
       && (l.registered ==> y.deadline == l.deadline && h in s.interest && s.interest[h] == Mask(l.maskIn, l.maskOut))
  }

  predicate Hosts(s: E.Loop, a: nat, b: nat, p: F.Pair, xa: nat, xb: nat) {
    && a != b && s.clock == p.clock && s.timeout == p.timeout
    && Hosted(s, a, p.me, p.peer, xa) && Hosted(s, b, p.peer, p.me, xb)
  }

  lemma HostsSwapped(s: E.Loop, a: nat, b: nat, p: F.Pair, xa: nat, xb: nat)
    requires Hosts(s, a, b, p, xa, xb)
    ensures Hosts(s, b, a, F.Swap(p), xb, xa)
  {
  }

  // ---------------------------------------------------------------------------------------------
  // Sequences of operations

  /** Each operation is allowed when its turn comes. */
  predicate Polite(s: E.Loop, ops: seq<E.Op>)
    decreases |ops|
  {
    ops == [] || (E.Allowed(s, ops[0]) && Polite(E.Do(s, ops[0]), ops[1..]))
  }

  function After(s: E.Loop, ops: seq<E.Op>): E.Loop
    requires Polite(s, ops)
    decreases |ops|
  {
    if ops == [] then s else After(E.Do(s, ops[0]), ops[1..])
  }

  /** Clients leave the loop where it is. */
  predicate SamePlace(s: E.Loop, s': E.Loop) {
    s'.pc == s.pc && s'.batch == s.batch && s'.clock == s.clock && s'.timeout == s.timeout && |s'.hs| == |s.hs|
  }

  /** `ops` take the loop to a state that hosts q. */
  ghost predicate Follow(s: E.Loop, ops: seq<E.Op>, a: nat, b: nat, q: F.Pair, xa: nat, xb: nat) {
    && Polite(s, ops) && EP.Inv(After(s, ops)) && SamePlace(s, After(s, ops))
    && Hosts(After(s, ops), a, b, q, xa, xb)
  }

  lemma {:induction false} AfterBoth(s: E.Loop, ops: seq<E.Op>, more: seq<E.Op>)
    requires Polite(s, ops) && Polite(After(s, ops), more)
    ensures Polite(s, ops + more) && After(s, ops + more) == After(After(s, ops), more)
    decreases |ops|
  {
    hide E.Allowed, E.Do;
    if ops == [] {
      assert ops + more == more;
    } else {
      assert (ops + more)[0] == ops[0] && (ops + more)[1..] == ops[1..] + more;
      AfterBoth(E.Do(s, ops[0]), ops[1..], more);
    }
  }

  lemma ThenFollow(s: E.Loop, ops: seq<E.Op>, more: seq<E.Op>, a: nat, b: nat, p: F.Pair, q: F.Pair,
                   xa: nat, xb: nat, ya: nat, yb: nat)
    requires Follow(s, ops, a, b, p, xa, xb) && Follow(After(s, ops), more, a, b, q, ya, yb)
    ensures Follow(s, ops + more, a, b, q, ya, yb)
  {
    hide Hosts, EP.Inv;
    AfterBoth(s, ops, more);
  }

  /** One allowed operation. */
  lemma OneFollows(s: E.Loop, op: E.Op, a: nat, b: nat, q: F.Pair, xa: nat, xb: nat)
    requires EP.Inv(s) && E.Allowed(s, op) && Hosts(E.Do(s, op), a, b, q, xa, xb)
    ensures Follow(s, [op], a, b, q, xa, xb)
  {
    EP.DoKeeps(s, op);
    hide EP.Inv, Hosts, E.Do, E.Allowed;
    assert [op][1..] == [];
    assert Polite(E.Do(s, op), []) && After(E.Do(s, op), []) == E.Do(s, op);
  }

  lemma NoneFollow(s: E.Loop, a: nat, b: nat, p: F.Pair, xa: nat, xb: nat)
    requires EP.Inv(s) && Hosts(s, a, b, p, xa, xb)
    ensures Follow(s, [], a, b, p, xa, xb)
  {
  }

  // ---------------------------------------------------------------------------------------------
  // Single operations of the links

  /** other_->DecRef() in Close: this link is not open any more. */
  lemma UnreferenceFollows(s: E.Loop, a: nat, b: nat, p: F.Pair, xa: nat, xb: nat)
    requires EP.Inv(s) && Hosts(s, a, b, p, xa, xb) && F.Open(p.me) && p.peer.refs > 1 && !p.peer.freed
    ensures Follow(s, [E.Release(b)], a, b,
                   p.(me := p.me.(readable := false, writable := false), peer := p.peer.(refs := p.peer.refs - 1)), xa, xb)
  {
    OneFollows(s, E.Release(b), a, b,
               p.(me := p.me.(readable := false, writable := false), peer := p.peer.(refs := p.peer.refs - 1)), xa, xb);
  }

  lemma RemoveFollows(s: E.Loop, a: nat, b: nat, p: F.Pair, xa: nat, xb: nat)
    requires EP.Inv(s) && Hosts(s, a, b, p, xa, xb) && p.me.registered && p.me.refs > 1 && !p.me.freed
    ensures Follow(s, [E.DoRemove(a)], a, b,
                   p.(me := F.Unlisted(p.me).(refs := p.me.refs - 1)), xa, xb)
  {
    hide E.Without;
    EP.RefOf(s, a);
    hide EP.Inv;
    OneFollows(s, E.DoRemove(a), a, b, p.(me := F.Unlisted(p.me).(refs := p.me.refs - 1)), xa, xb);
  }

  lemma ModifyFollows(s: E.Loop, a: nat, b: nat, p: F.Pair, l: F.Link, xa: nat, xb: nat)
    requires EP.Inv(s) && Hosts(s, a, b, p, xa, xb) && p.me.registered && !p.me.freed
    requires l == p.me.(readable := l.readable, writable := l.writable, maskIn := l.maskIn, maskOut := l.maskOut, sock := l.sock)
    requires F.Open(l) == F.Open(p.me)
    ensures Follow(s, [E.DoModify(a, Mask(l.maskIn, l.maskOut))], a, b, p.(me := l), xa, xb)
  {
    EP.RefOf(s, a);
    hide EP.Inv;
    OneFollows(s, E.DoModify(a, Mask(l.maskIn, l.maskOut)), a, b, p.(me := l), xa, xb);
  }

  lemma RefreshFollows(s: E.Loop, a: nat, b: nat, p: F.Pair, xa: nat, xb: nat)
    requires EP.Inv(s) && Hosts(s, a, b, p, xa, xb) && p.me.registered && !p.me.freed
    ensures Follow(s, [E.DoRefresh(a)], a, b, p.(me := p.me.(deadline := p.clock + p.timeout)), xa, xb)
  {
    hide E.Without;
    EP.RefOf(s, a);
    EP.RefreshKeeps(s, a);
    EP.TailInTime(s);
    hide EP.Inv, EP.Later;
    OneFollows(s, E.DoRefresh(a), a, b, p.(me := p.me.(deadline := p.clock + p.timeout)), xa, xb);
  }

  lemma HoldFollows(s: E.Loop, a: nat, b: nat, p: F.Pair, xa: nat, xb: nat)
    requires EP.Inv(s) && Hosts(s, a, b, p, xa, xb) && !p.peer.freed
    ensures Follow(s, [E.Hold(b)], a, b, p.(peer := p.peer.(refs := p.peer.refs + 1, temps := p.peer.temps + 1)), xa, xb + 1)
  {
    EP.RefOf(s, b);
    hide EP.Inv;
    OneFollows(s, E.Hold(b), a, b, p.(peer := p.peer.(refs := p.peer.refs + 1, temps := p.peer.temps + 1)), xa, xb + 1);
  }

  /** Giving the reference on the other link back may delete it, in both models alike. */
  lemma ReleaseFollows(s: E.Loop, a: nat, b: nat, p: F.Pair, xa: nat, xb: nat)
    requires EP.Inv(s) && Hosts(s, a, b, p, xa, xb + 1) && !p.peer.freed && p.peer.temps > 0
    requires p.peer.refs > 0 && (p.peer.refs == 1 ==> !p.peer.registered)
    ensures Follow(s, [E.Release(b)], a, b, p.(peer := F.Unref(p.peer.(temps := p.peer.temps - 1))), xa, xb)
  {
    EP.RefOf(s, b);
    hide EP.Inv, F.DestroyBuf;
    OneFollows(s, E.Release(b), a, b, p.(peer := F.Unref(p.peer.(temps := p.peer.temps - 1))), xa, xb);
  }

  // ---------------------------------------------------------------------------------------------
  // Closing

  /** Only sockets and buffers differ. */
  predicate SameHandlers(p: F.Pair, q: F.Pair) {
    && q == p.(me := q.me, peer := q.peer, terminated := q.terminated, failed := q.failed)
    && q.me == p.me.(out := q.me.out, sock := q.me.sock) && q.peer == p.peer.(out := q.peer.out, sock := q.peer.sock)
  }

  lemma SameHosts(s: E.Loop, ops: seq<E.Op>, a: nat, b: nat, p: F.Pair, q: F.Pair, xa: nat, xb: nat)
    requires Follow(s, ops, a, b, p, xa, xb) && SameHandlers(p, q)
    ensures Follow(s, ops, a, b, q, xa, xb)
  {
    hide EP.Inv;
  }

  lemma CloseFollows(s: E.Loop, a: nat, b: nat, p: F.Pair, xa: nat, xb: nat) returns (ops: seq<E.Op>)
    requires EP.Inv(s) && Hosts(s, a, b, p, xa, xb) && FP.CoreInv(p) && FP.Held(p)
    ensures Follow(s, ops, a, b, F.Close(p), xa, xb)
  {
    hide FP.CoreInv, EP.Inv, FP.Held, Hosts, Follow;
    FP.CloseIs(p);
    if F.Open(p.me) {
      var p1 := p.(me := p.me.(readable := false, writable := false), peer := p.peer.(refs := p.peer.refs - 1));
      var p2 := p1.(me := F.Unlisted(p1.me).(refs := p1.me.refs - 1));
      UnreferenceFollows(s, a, b, p, xa, xb);
      FollowFacts(s, [E.Release(b)], a, b, p1, xa, xb);
      RemoveFollows(After(s, [E.Release(b)]), a, b, p1, xa, xb);
      ThenFollow(s, [E.Release(b)], [E.DoRemove(a)], a, b, p1, p2, xa, xb, xa, xb);
      ops := [E.Release(b)] + [E.DoRemove(a)];
      SameHosts(s, ops, a, b, p2, F.Close(p), xa, xb);
    } else {
      ops := [];
      NoneFollow(s, a, b, p, xa, xb);
    }
  }

  lemma FollowFacts(s: E.Loop, ops: seq<E.Op>, a: nat, b: nat, q: F.Pair, xa: nat, xb: nat)
    requires Follow(s, ops, a, b, q, xa, xb)
    ensures Polite(s, ops) && EP.Inv(After(s, ops)) && Hosts(After(s, ops), a, b, q, xa, xb)
  {
  }

  lemma FollowSwapped(s: E.Loop, ops: seq<E.Op>, a: nat, b: nat, q: F.Pair, xa: nat, xb: nat)
    requires Follow(s, ops, a, b, q, xa, xb)
    ensures Follow(s, ops, b, a, F.Swap(q), xb, xa)
  {
    hide EP.Inv;
  }

  lemma TerminateFollows(s: E.Loop, a: nat, b: nat, p: F.Pair, xa: nat, xb: nat) returns (ops: seq<E.Op>)
    requires EP.Inv(s) && Hosts(s, a, b, p, xa, xb) && FP.CoreInv(p) && FP.Held(p)
    ensures Follow(s, ops, a, b, F.Terminate(p), xa, xb)
  {
    TerminateSplits(p);
    hide FP.CoreInv, EP.Inv, FP.Held, Follow, F.Close, F.Terminate;
    var p0 := p.(terminated := true);
    var p1 := F.Close(p0);
    ops := CloseFollows(s, a, b, p0, xa, xb);
    FollowFacts(s, ops, a, b, p1, xa, xb);
    hide Hosts;
    HostsSwapped(After(s, ops), a, b, p1, xa, xb);
    var more := CloseFollows(After(s, ops), b, a, F.Swap(p1), xb, xa);
    FollowSwapped(After(s, ops), more, b, a, F.Close(F.Swap(p1)), xb, xa);
    ThenFollow(s, ops, more, a, b, p1, F.Terminate(p), xa, xb, xa, xb);
    ops := ops + more;
  }

  lemma TerminateSplits(p: F.Pair)
    requires FP.CoreInv(p) && FP.Held(p)
    ensures var p0 := p.(terminated := true);
            var p1 := F.Close(p0);
            && FP.CoreInv(p0) && FP.Held(p0) && FP.CoreInv(F.Swap(p1)) && FP.Held(F.Swap(p1))
            && F.Terminate(p) == F.Swap(F.Close(F.Swap(p1)))
  {
    hide FP.Splits, FP.Carried, FP.SentPrefix, F.Close;
    var p0 := p.(terminated := true);
    FP.CloseIs(p0);
    FP.CloseEffect(p0);
    FP.CloseIs(F.Swap(F.Close(p0)));
  }

  // ---------------------------------------------------------------------------------------------
  // Half-closing

  lemma CloseForReadingFollows(s: E.Loop, a: nat, b: nat, p: F.Pair, xa: nat, xb: nat) returns (ops: seq<E.Op>)
    requires EP.Inv(s) && Hosts(s, a, b, p, xa, xb) && FP.CoreInv(p) && FP.Held(p) && p.me.readable
    ensures Follow(s, ops, a, b, F.CloseForReading(p), xa, xb)
  {
    CloseForReadingIs(p);
    hide FP.CoreInv, EP.Inv, FP.Held, Hosts, Follow, F.Close, F.CloseForReading;
    if p.me.writable {
      var l := F.Arm(p.me.(readable := false), false, true);
      l := l.(sock := l.sock.(shutRd := true));
      ModifyFollows(s, a, b, p, l, xa, xb);
      ops := [E.DoModify(a, Mask(l.maskIn, l.maskOut))];
    } else {
      ops := CloseFollows(s, a, b, p, xa, xb);
    }
  }

  lemma CloseForReadingIs(p: F.Pair)
    requires FP.CoreInv(p) && FP.Held(p) && p.me.readable
    ensures !p.me.freed && p.me.registered
    ensures var l := F.Arm(p.me.(readable := false), false, true);
            F.CloseForReading(p) == if p.me.writable then p.(me := l.(sock := l.sock.(shutRd := true))) else F.Close(p)
  {
    hide FP.Splits, FP.Carried, FP.SentPrefix, FP.FlowInv, F.Close;
  }

  lemma CloseForWritingFollows(s: E.Loop, a: nat, b: nat, p: F.Pair, xa: nat, xb: nat) returns (ops: seq<E.Op>)
    requires EP.Inv(s) && Hosts(s, a, b, p, xa, xb) && FP.CoreInv(p) && FP.Held(p) && p.me.writable
    ensures Follow(s, ops, a, b, F.CloseForWriting(p), xa, xb)
  {
    CloseForWritingIs(p);
    hide FP.CoreInv, EP.Inv, FP.Held, Hosts, Follow, F.Close, F.CloseForWriting;
    if p.me.readable {
      var l := F.Arm(p.me.(writable := false), true, false);
      l := l.(sock := l.sock.(shutWr := true));
      ModifyFollows(s, a, b, p, l, xa, xb);
      ops := [E.DoModify(a, Mask(l.maskIn, l.maskOut))];
    } else {
      ops := CloseFollows(s, a, b, p, xa, xb);
    }
  }

  lemma CloseForWritingIs(p: F.Pair)
    requires FP.CoreInv(p) && FP.Held(p) && p.me.writable
    ensures !p.me.freed && p.me.registered
    ensures var l := F.Arm(p.me.(writable := false), true, false);
            F.CloseForWriting(p) == if p.me.readable then p.(me := l.(sock := l.sock.(shutWr := true))) else F.Close(p)
  {
    hide FP.Splits, FP.Carried, FP.SentPrefix, FP.FlowInv, F.Close;
  }

  // ---------------------------------------------------------------------------------------------
  // Forwarding

  /** The pair when WriteFrom has returned, in the state in which Fill goes on. */
  lemma FillCases(p: F.Pair, c: F.InChoice)
    requires FP.SafeInv(p) && FP.Held(p)
    ensures var p1 := FR.Written(p, c);
            && SameHandlers(p, p1)
            && (if !p.peer.readable then F.Fill(p, c) == (p, F.Quiet) else
                match F.WriteFrom(p.me.out, p.peer.sock, c).status
                case Eof => F.Fill(p, c).0 == F.Swap(F.CloseForReading(F.Swap(p1))) && FP.CoreInv(F.Swap(p1)) && FP.Held(F.Swap(p1))
                case Error => F.Fill(p, c).0 == F.Terminate(p1) && FP.CoreInv(p1) && FP.Held(p1)
                case _ => F.Fill(p, c).0 == p1)
  {
    hide FP.Splits, FP.Carried, FP.SentPrefix, F.Terminate, F.CloseForReading;
  }

  lemma FillFollows(s: E.Loop, a: nat, b: nat, p: F.Pair, c: F.InChoice, xa: nat, xb: nat) returns (ops: seq<E.Op>)
    requires EP.Inv(s) && Hosts(s, a, b, p, xa, xb) && FP.SafeInv(p) && FP.Held(p)
    ensures Follow(s, ops, a, b, F.Fill(p, c).0, xa, xb)
  {
    hide FP.SafeInv, FP.CoreInv, EP.Inv, FP.Held, Hosts, Follow, F.Terminate, F.CloseForReading, F.Fill, F.WriteFrom;
    FillCases(p, c);
    var p1 := FR.Written(p, c);
    NoneFollow(s, a, b, p, xa, xb);
    SameHosts(s, [], a, b, p, p1, xa, xb);
    FollowFacts(s, [], a, b, p1, xa, xb);
    assert After(s, []) == s;
    ops := [];
    if p.peer.readable {
      var status := F.WriteFrom(p.me.out, p.peer.sock, c).status;
      if status.Eof? {
        HostsSwapped(s, a, b, p1, xa, xb);
        ops := CloseForReadingFollows(s, b, a, F.Swap(p1), xb, xa);
        FollowSwapped(s, ops, b, a, F.CloseForReading(F.Swap(p1)), xb, xa);
      } else if status.Error? {
        ops := TerminateFollows(s, a, b, p1, xa, xb);
      }
    }
  }

  lemma FlushCases(p: F.Pair, c: F.OutChoice)
    requires FP.SafeInv(p) && FP.Held(p)
    ensures var p1 := FR.ReadOut(p, c);
            && SameHandlers(p, p1)
            && (if !p.me.writable then F.Flush(p, c) == (p, F.Quiet) else
                match F.ReadTo(p.me.out, p.me.sock, c).status
                case Eof => F.Flush(p, c).0 == F.CloseForWriting(p1) && FP.CoreInv(p1) && FP.Held(p1)
                case Error => F.Flush(p, c).0 == F.Terminate(p1) && FP.CoreInv(p1) && FP.Held(p1)
                case _ => F.Flush(p, c).0 == p1)
  {
    hide FP.Splits, FP.Carried, FP.SentPrefix, F.Terminate, F.CloseForWriting;
    if p.me.writable && F.ReadTo(p.me.out, p.me.sock, c).status == F.Eof { Drained(p); }
  }

  /** At the end of a drained buffer everything that has been read has been sent. */
  lemma Drained(p: F.Pair)
    requires FP.SafeInv(p) && p.me.writable && p.me.out.size == 0 && !p.me.out.wr
    ensures FP.Carried(p.me.greeting, p.peer.sock.stream, p.me.sock.sent, [])
  {
    assert p.me.out.content == [];
  }

  lemma FlushFollows(s: E.Loop, a: nat, b: nat, p: F.Pair, c: F.OutChoice, xa: nat, xb: nat) returns (ops: seq<E.Op>)
    requires EP.Inv(s) && Hosts(s, a, b, p, xa, xb) && FP.SafeInv(p) && FP.Held(p)
    ensures Follow(s, ops, a, b, F.Flush(p, c).0, xa, xb)
  {
    hide FP.SafeInv, FP.CoreInv, EP.Inv, FP.Held, Hosts, Follow, F.Terminate, F.CloseForWriting, F.Flush, F.ReadTo;
    FlushCases(p, c);
    var p1 := FR.ReadOut(p, c);
    NoneFollow(s, a, b, p, xa, xb);
    SameHosts(s, [], a, b, p, p1, xa, xb);
    FollowFacts(s, [], a, b, p1, xa, xb);
    assert After(s, []) == s;
    ops := [];
    if p.me.writable {
      var status := F.ReadTo(p.me.out, p.me.sock, c).status;
      if status.Eof? {
        ops := CloseForWritingFollows(s, a, b, p1, xa, xb);
      } else if status.Error? {
        ops := TerminateFollows(s, a, b, p1, xa, xb);
      }
    }
  }

  lemma EnvHosts(s: E.Loop, a: nat, b: nat, p: F.Pair, es: seq<F.SideEnv>, xa: nat, xb: nat)
    requires Hosts(s, a, b, p, xa, xb)
    ensures Hosts(s, a, b, F.ExecEnv(p, es), xa, xb)
  {
    FR.SameFlags(p, es);
    hide F.ExecEnv;
  }

  lemma StepFollows(s: E.Loop, a: nat, b: nat, p: F.Pair, io: F.Io, xa: nat, xb: nat) returns (ops: seq<E.Op>)
    requires EP.Inv(s) && Hosts(s, a, b, p, xa, xb) && FP.SafeInv(p) && FP.Held(p)
    ensures Follow(s, ops, a, b, F.ForwardStep(p, io).0, xa, xb)
  {
    hide FP.SafeInv, EP.Inv, Hosts, Follow, F.Fill, F.Flush, F.ExecEnv, FP.EnvRel, FP.StepRel, FP.Held;
    var p0 := F.ExecEnv(p, io.envIn);
    EnvHosts(s, a, b, p, io.envIn, xa, xb);
    EnvStays(p, io.envIn);
    ops := FillFollows(s, a, b, p0, io.in_, xa, xb);
    var (p1, f1) := F.Fill(p0, io.in_);
    if f1 != F.Broken {
      FillStays(p0, io.in_);
      FollowFacts(s, ops, a, b, p1, xa, xb);
      var p2 := F.ExecEnv(p1, io.envOut);
      EnvHosts(After(s, ops), a, b, p1, io.envOut, xa, xb);
      EnvStays(p1, io.envOut);
      var more := FlushFollows(After(s, ops), a, b, p2, io.out, xa, xb);
      ThenFollow(s, ops, more, a, b, p1, F.Flush(p2, io.out).0, xa, xb, xa, xb);
      ops := ops + more;
    }
  }

  lemma EnvStays(p: F.Pair, es: seq<F.SideEnv>)
    requires FP.SafeInv(p) && FP.Held(p)
    ensures FP.SafeInv(F.ExecEnv(p, es)) && FP.Held(F.ExecEnv(p, es))
  {
    hide FP.SafeInv, F.ExecEnv, FP.ReadEdge, FP.WriteEdge, FP.EdgeInv;
    FP.ExecEnvSafe(p, es);
    FR.SameFlags(p, es);
  }

  lemma FillStays(p: F.Pair, c: F.InChoice)
    requires FP.SafeInv(p) && FP.Held(p)
    ensures FP.SafeInv(F.Fill(p, c).0) && FP.Held(F.Fill(p, c).0)
  {
    hide FP.SafeInv, F.Fill, FP.EdgeInv, FP.StrictEdge, FP.ReadEdge;
    FP.FillSafe(p, c);
  }

  lemma {:induction false} ForwardFollows(s: E.Loop, a: nat, b: nat, p: F.Pair, ios: seq<F.Io>, xa: nat, xb: nat)
    returns (ops: seq<E.Op>)
    requires EP.Inv(s) && Hosts(s, a, b, p, xa, xb) && FP.SafeInv(p) && FP.Held(p)
    ensures Follow(s, ops, a, b, F.Forward(p, ios).p, xa, xb)
    decreases |ios|
  {
    hide FP.SafeInv, EP.Inv, Hosts, Follow, F.ForwardStep, FP.StepRel, FP.Held;
    if ios == [] {
      NoneFollow(s, a, b, p, xa, xb);
      ops := [];
    } else {
      ops := StepFollows(s, a, b, p, ios[0], xa, xb);
      var (q, f) := F.ForwardStep(p, ios[0]);
      if f == F.Moved {
        StepStays(p, ios[0]);
        FollowFacts(s, ops, a, b, q, xa, xb);
        var more := ForwardFollows(After(s, ops), a, b, q, ios[1..], xa, xb);
        ThenFollow(s, ops, more, a, b, q, F.Forward(q, ios[1..]).p, xa, xb, xa, xb);
        ops := ops + more;
      }
    }
  }

  lemma StepStays(p: F.Pair, io: F.Io)
    requires FP.SafeInv(p) && FP.Held(p)
    ensures FP.SafeInv(F.ForwardStep(p, io).0) && FP.Held(F.ForwardStep(p, io).0)
  {
    hide FP.SafeInv, F.ForwardStep, FP.EdgeInv, FP.StrictEdge;
    FP.ForwardStepSafe(p, io);
  }

  // ---------------------------------------------------------------------------------------------
  // OnEvent and OnTimeout

  lemma ForwardIfFollows(s: E.Loop, a: nat, b: nat, c: bool, p: F.Pair, ios: seq<F.Io>, xa: nat, xb: nat)
    returns (ops: seq<E.Op>)
    requires EP.Inv(s) && Hosts(s, a, b, p, xa, xb) && FP.SafeInv(p) && FP.Held(p)
    ensures Follow(s, ops, a, b, F.ForwardIf(c, p, ios).p, xa, xb)
  {
    hide FP.SafeInv, EP.Inv, Hosts, Follow, F.Forward, FP.Held;
    if c {
      ops := ForwardFollows(s, a, b, p, ios, xa, xb);
    } else {
      NoneFollow(s, a, b, p, xa, xb);
      ops := [];
    }
  }

  lemma ForwardIfStays(c: bool, p: F.Pair, ios: seq<F.Io>)
    requires FP.SafeInv(p) && FP.Held(p)
    ensures var q := F.Swap(F.ForwardIf(c, p, ios).p); FP.SafeInv(q) && FP.Held(q)
  {
    hide FP.SafeInv, F.ForwardIf, FP.EdgeInv, FP.StrictEdge;
    FP.ForwardIfSafe(c, p, ios);
    FP.SwapSafe(F.ForwardIf(c, p, ios).p);
  }

  /** The two forwarding calls, seen from the sink of the first one. */
  lemma BothFollow(s: E.Loop, a: nat, b: nat, c1: bool, c2: bool, p: F.Pair, ios1: seq<F.Io>, ios2: seq<F.Io>,
                   xa: nat, xb: nat) returns (ops: seq<E.Op>)
    requires EP.Inv(s) && Hosts(s, a, b, p, xa, xb) && FP.SafeInv(p) && FP.Held(p)
    ensures Follow(s, ops, b, a, F.ForwardIf(c2, F.Swap(F.ForwardIf(c1, p, ios1).p), ios2).p, xb, xa)
  {
    hide FP.SafeInv, EP.Inv, Hosts, Follow, F.ForwardIf, FP.Held, F.Swap;
    ops := ForwardIfFollows(s, a, b, c1, p, ios1, xa, xb);
    var q := F.ForwardIf(c1, p, ios1).p;
    ForwardIfStays(c1, p, ios1);
    FollowSwapped(s, ops, a, b, q, xa, xb);
    FollowFacts(s, ops, b, a, F.Swap(q), xb, xa);
    var more := ForwardIfFollows(After(s, ops), b, a, c2, F.Swap(q), ios2, xb, xa);
    ThenFollow(s, ops, more, b, a, F.Swap(q), F.ForwardIf(c2, F.Swap(q), ios2).p, xb, xa, xb, xa);
    ops := ops + more;
  }

  lemma ProcessFollows(s: E.Loop, a: nat, b: nat, p: F.Pair, ev: F.Events, o: F.Oracle, xa: nat, xb: nat)
    returns (ops: seq<E.Op>)
    requires EP.Inv(s) && Hosts(s, a, b, p, xa, xb) && FP.SafeInv(p) && FP.Held(p)
    ensures Follow(s, ops, a, b, F.Process(p, ev, o).p, xa, xb)
  {
    SafeIsCore(p);
    FP.SwapSafe(p);
    HostsSwapped(s, a, b, p, xa, xb);
    assert FP.Held(F.Swap(p));
    hide FP.SafeInv, FP.CoreInv, EP.Inv, Hosts, Follow, F.ForwardIf, F.Terminate, FP.Held, F.Swap;
    if ev.err {
      ops := TerminateFollows(s, a, b, p, xa, xb);
    } else if o.inFirst {
      ops := BothFollow(s, b, a, ev.in_, ev.out, F.Swap(p), o.toPeer, o.toMe, xb, xa);
    } else {
      ops := BothFollow(s, a, b, ev.out, ev.in_, p, o.toMe, o.toPeer, xa, xb);
      var r2 := F.ForwardIf(ev.in_, F.Swap(F.ForwardIf(ev.out, p, o.toMe).p), o.toPeer);
      FollowSwapped(s, ops, b, a, r2.p, xb, xa);
    }
  }

  lemma SafeIsCore(p: F.Pair)
    requires FP.SafeInv(p)
    ensures FP.CoreInv(p)
  {
  }

  lemma RefreshIfOpenFollows(s: E.Loop, a: nat, b: nat, p: F.Pair, xa: nat, xb: nat) returns (ops: seq<E.Op>)
    requires EP.Inv(s) && Hosts(s, a, b, p, xa, xb) && !p.failed && !p.me.freed && (F.Open(p.me) ==> p.me.registered)
    ensures Follow(s, ops, a, b, F.RefreshIfOpen(p), xa, xb)
  {
    hide EP.Inv, Hosts, Follow;
    if F.Open(p.me) {
      RefreshFollows(s, a, b, p, xa, xb);
      ops := [E.DoRefresh(a)];
    } else {
      NoneFollow(s, a, b, p, xa, xb);
      ops := [];
    }
  }

  lemma RefreshBothFollows(s: E.Loop, a: nat, b: nat, p: F.Pair, xa: nat, xb: nat) returns (ops: seq<E.Op>)
    requires EP.Inv(s) && Hosts(s, a, b, p, xa, xb) && FP.SafeInv(p) && !p.me.freed && !p.peer.freed
    ensures Follow(s, ops, a, b, F.RefreshBoth(p), xa, xb)
  {
    RefreshFacts(p);
    hide EP.Inv, Hosts, Follow, F.RefreshIfOpen, FP.SafeInv, F.Swap;
    ops := RefreshIfOpenFollows(s, a, b, p, xa, xb);
    var q := F.RefreshIfOpen(p);
    FollowSwapped(s, ops, a, b, q, xa, xb);
    FollowFacts(s, ops, b, a, F.Swap(q), xb, xa);
    var more := RefreshIfOpenFollows(After(s, ops), b, a, F.Swap(q), xb, xa);
    ThenFollow(s, ops, more, b, a, F.Swap(q), F.RefreshIfOpen(F.Swap(q)), xb, xa, xb, xa);
    ops := ops + more;
    FollowSwapped(s, ops, b, a, F.RefreshIfOpen(F.Swap(q)), xb, xa);
  }

  lemma RefreshFacts(p: F.Pair)
    requires FP.SafeInv(p) && !p.me.freed && !p.peer.freed
    ensures !p.failed && (F.Open(p.me) ==> p.me.registered)
    ensures var q := F.Swap(F.RefreshIfOpen(p)); !q.failed && !q.me.freed && (F.Open(q.me) ==> q.me.registered)
  {
    hide FP.Splits, FP.Carried, FP.SentPrefix, FP.FlowInv, FP.Coherent;
  }

  lemma ReleasePeerFollows(s: E.Loop, a: nat, b: nat, q: F.Pair, xa: nat, xb: nat)
    requires EP.Inv(s) && Hosts(s, a, b, q, xa, xb + 1) && FP.SafeInv(q) && q.peer.temps > 0
    ensures Follow(s, [E.Release(b)], a, b, F.ReleasePeer(q), xa, xb)
  {
    ReleasePeerIs(q);
    hide EP.Inv, Hosts, Follow, FP.SafeInv, F.ReleasePeer, F.Unref;
    ReleaseFollows(s, a, b, q, xa, xb);
  }

  lemma ReleasePeerIs(q: F.Pair)
    requires FP.SafeInv(q) && q.peer.temps > 0
    ensures !q.peer.freed && q.peer.refs > 0 && (q.peer.refs == 1 ==> !q.peer.registered)
    ensures F.ReleasePeer(q) == q.(peer := F.Unref(q.peer.(temps := q.peer.temps - 1)))
  {
    hide FP.Splits, FP.Carried, FP.SentPrefix, FP.FlowInv, FP.Coherent, F.DestroyBuf;
  }

  lemma HeldIsLive(p: F.Pair)
    requires FP.SafeInv(p) && FP.Held(p)
    ensures !p.me.freed && !p.peer.freed && !p.failed
  {
    hide FP.Splits, FP.Carried, FP.SentPrefix, FP.FlowInv, FP.Coherent;
  }

  /** A link that the batch or the sweep holds, with the other one held for it. */
  lemma Holding(p: F.Pair)
    requires FP.SafeInv(p) && p.me.registered && (p.me.temps > 0 || p.me.batch.Some?)
    ensures !p.me.freed && !p.peer.freed && !p.failed
    ensures var p1 := F.HoldPeer(p);
            && p1 == p.(peer := p.peer.(refs := p.peer.refs + 1, temps := p.peer.temps + 1))
            && FP.SafeInv(p1) && FP.CoreInv(p1) && FP.Held(p1) && p1.peer.temps > 0
  {
    assert !p.me.freed && !p.peer.freed && !p.failed;
    hide FP.Splits, FP.Carried, FP.SentPrefix, FP.SafeInv, FP.CoreInv, F.HoldPeer, FP.EdgeInv;
    FP.HoldPeerSafe(p);
    SafeIsCore(F.HoldPeer(p));
  }

  lemma HoldPeerFollows(s: E.Loop, a: nat, b: nat, p: F.Pair, xa: nat)
    requires EP.Inv(s) && Hosts(s, a, b, p, xa, 0)
    requires FP.SafeInv(p) && p.me.registered && (p.me.temps > 0 || p.me.batch.Some?)
    ensures Follow(s, [E.Hold(b)], a, b, F.HoldPeer(p), xa, 1)
  {
    Holding(p);
    hide EP.Inv, Hosts, Follow, FP.SafeInv, F.HoldPeer;
    HoldFollows(s, a, b, p, xa, 0);
  }

  /** What runs between taking the reference on the other link and giving it back. */
  lemma BracketFollows(s: E.Loop, a: nat, b: nat, p: F.Pair, more: seq<E.Op>, q: F.Pair, xa: nat)
    requires Follow(s, [E.Hold(b)], a, b, p, xa, 1) && Follow(After(s, [E.Hold(b)]), more, a, b, q, xa, 1)
    requires FP.SafeInv(q) && q.peer.temps > 0
    ensures Follow(s, [E.Hold(b)] + more + [E.Release(b)], a, b, F.ReleasePeer(q), xa, 0)
  {
    hide EP.Inv, Hosts, Follow, FP.SafeInv, F.ReleasePeer, Polite, After;
    ThenFollow(s, [E.Hold(b)], more, a, b, p, q, xa, 1, xa, 1);
    var ops := [E.Hold(b)] + more;
    FollowFacts(s, ops, a, b, q, xa, 1);
    ReleasePeerFollows(After(s, ops), a, b, q, xa, 0);
    ThenFollow(s, ops, [E.Release(b)], a, b, q, F.ReleasePeer(q), xa, 1, xa, 0);
  }

  function Refreshed(p: F.Pair, ev: F.Events, o: F.Oracle): F.Pair {
    var r := F.Process(p, ev, o);
    if r.moved then F.RefreshBoth(r.p) else r.p
  }

  lemma RefreshedSafe(p: F.Pair, ev: F.Events, o: F.Oracle)
    requires FP.SafeInv(p) && FP.Held(p) && p.peer.temps > 0
    ensures FP.SafeInv(F.Process(p, ev, o).p) && !F.Process(p, ev, o).p.me.freed && !F.Process(p, ev, o).p.peer.freed
    ensures var q := Refreshed(p, ev, o); FP.SafeInv(q) && q.peer.temps > 0 && !q.me.freed && !q.failed
  {
    hide FP.Splits, FP.Carried, FP.SentPrefix, FP.SafeInv, F.Process, F.RefreshBoth, FP.EdgeInv, FP.StrictEdge, FP.TimerRel;
    FP.ProcessSafe(p, ev, o);
    HeldIsLive(F.Process(p, ev, o).p);
    FP.ProcessAndRefresh(p, ev, o);
    HeldIsLive(Refreshed(p, ev, o));
  }

  lemma RefreshedFollows(s: E.Loop, a: nat, b: nat, p: F.Pair, ev: F.Events, o: F.Oracle, xa: nat, xb: nat)
    returns (ops: seq<E.Op>)
    requires EP.Inv(s) && Hosts(s, a, b, p, xa, xb) && FP.SafeInv(p) && FP.Held(p) && p.peer.temps > 0
    ensures Follow(s, ops, a, b, Refreshed(p, ev, o), xa, xb)
  {
    RefreshedSafe(p, ev, o);
    hide EP.Inv, Hosts, Follow, FP.SafeInv, FP.Held, F.Process, F.RefreshBoth, Polite, After;
    var r := F.Process(p, ev, o);
    ops := ProcessFollows(s, a, b, p, ev, o, xa, xb);
    if r.moved {
      FollowFacts(s, ops, a, b, r.p, xa, xb);
      var more := RefreshBothFollows(After(s, ops), a, b, r.p, xa, xb);
      ThenFollow(s, ops, more, a, b, r.p, F.RefreshBoth(r.p), xa, xb, xa, xb);
      ops := ops + more;
    }
  }

  lemma OnEventIs(p: F.Pair, ev: F.Events, o: F.Oracle)
    requires FP.SafeInv(p) && p.me.registered && (p.me.temps > 0 || p.me.batch.Some?)
    ensures F.OnEvent(p, ev, o).p == F.ReleasePeer(Refreshed(F.HoldPeer(p), ev, o))
  {
    Holding(p);
    hide FP.SafeInv, FP.CoreInv, F.HoldPeer, F.ReleasePeer, FP.Held, F.Process, F.RefreshBoth;
    RefreshedSafe(F.HoldPeer(p), ev, o);
  }

  lemma OnEventFollows(s: E.Loop, a: nat, b: nat, p: F.Pair, ev: F.Events, o: F.Oracle, xa: nat) returns (ops: seq<E.Op>)
    requires EP.Inv(s) && Hosts(s, a, b, p, xa, 0)
    requires FP.SafeInv(p) && p.me.registered && (p.me.temps > 0 || p.me.batch.Some?)
    ensures Follow(s, ops, a, b, F.OnEvent(p, ev, o).p, xa, 0)
  {
    OnEventIs(p, ev, o);
    HoldPeerFollows(s, a, b, p, xa);
    Holding(p);
    hide EP.Inv, Hosts, Follow, FP.SafeInv, FP.CoreInv, FP.Held, F.HoldPeer, F.ReleasePeer, F.OnEvent, Refreshed, Polite, After;
    var p1 := F.HoldPeer(p);
    FollowFacts(s, [E.Hold(b)], a, b, p1, xa, 1);
    var more := RefreshedFollows(After(s, [E.Hold(b)]), a, b, p1, ev, o, xa, 1);
    RefreshedSafe(p1, ev, o);
    BracketFollows(s, a, b, p1, more, Refreshed(p1, ev, o), xa);
    ops := [E.Hold(b)] + more + [E.Release(b)];
  }

  lemma OnTimeoutIs(p: F.Pair)
    requires FP.SafeInv(p) && p.me.registered && (p.me.temps > 0 || p.me.batch.Some?)
    ensures var q := F.Terminate(F.HoldPeer(p)); FP.SafeInv(q) && q.peer.temps > 0 && F.OnTimeout(p) == F.ReleasePeer(q)
  {
    Holding(p);
    hide FP.SafeInv, FP.CoreInv, F.Terminate, F.HoldPeer, F.ReleasePeer;
    FP.TerminateSafe(F.HoldPeer(p));
    HeldIsLive(F.Terminate(F.HoldPeer(p)));
  }

  lemma OnTimeoutFollows(s: E.Loop, a: nat, b: nat, p: F.Pair, xa: nat) returns (ops: seq<E.Op>)
    requires EP.Inv(s) && Hosts(s, a, b, p, xa, 0)
    requires FP.SafeInv(p) && p.me.registered && (p.me.temps > 0 || p.me.batch.Some?)
    ensures Follow(s, ops, a, b, F.OnTimeout(p), xa, 0)
  {
    OnTimeoutIs(p);
    HoldPeerFollows(s, a, b, p, xa);
    Holding(p);
    hide EP.Inv, Hosts, Follow, FP.SafeInv, FP.CoreInv, FP.Held, F.HoldPeer, F.ReleasePeer, F.OnTimeout, F.Terminate, Polite, After;
    var p1 := F.HoldPeer(p);
    FollowFacts(s, [E.Hold(b)], a, b, p1, xa, 1);
    var more := TerminateFollows(After(s, [E.Hold(b)]), a, b, p1, xa, 1);
    BracketFollows(s, a, b, p1, more, F.Terminate(p1), xa);
    ops := [E.Hold(b)] + more + [E.Release(b)];
  }
}
