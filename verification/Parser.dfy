/** The handler that reads a CONNECT request into its buffer.  Each method does what the corresponding
    function of ParserModel says. */
module Parser {
  import opened Common
  import M = ParserModel
  import P = ParserProofs

  class ParseEventHandler {
    const content: array<char>
    var size: nat
    var registered: bool
    var calls: seq<string>  // of the callback
    var rest: string        // what the peer has sent and nobody has read
    ghost const sent: string

    ghost function View(): M.Reader
      requires size <= content.Length
      reads this, content
    {
      M.Reader(content.Length, content[..size], rest, registered, calls, false)
    }

    ghost predicate Valid()
      reads this, content
    {
      size <= content.Length && P.Inv(content.Length, sent, View())
    }

    constructor (max: nat, sent: string)
      requires max > 0
      ensures Valid() && View() == M.NewReader(max, sent) && fresh(content)
    {
      content := new char[max];
      size, registered, calls, rest, this.sent := 0, true, [], sent, sent;
      new;
      assert content[..0] == "";
      P.RunKeeps(max, sent, []);
    }

    /** read() into the free part of the buffer: -1 stands for an error. */
    method KernelRead(io: M.Io) returns (ret: int)
      requires size < content.Length
      modifies content, this`rest
      ensures content[..size] == old(content[..size])
      ensures if io.Got? then
                && ret == M.Delivered(io.n, content.Length - size, |old(rest)|)
                && content[size..size + ret] == old(rest)[..ret] && rest == old(rest)[ret..]
              else ret == -1 && rest == old(rest)
    {
      if !io.Got? { return -1; }
      ret := M.Delivered(io.n, content.Length - size, |rest|);
      var i := 0;
      while i != ret
        invariant 0 <= i <= ret
        invariant rest == old(rest) && content[..size] == old(content[..size])
        invariant content[size..size + i] == rest[..i]
      {
        content[size + i] := rest[i];
        i := i + 1;
      }
      rest := rest[ret..];
    }

    /** src/parser.cc:75-113. */
    method Read(ios: seq<M.Io>) returns (result: Option<string>)
      requires Valid() && registered
      modifies content, this`size, this`rest
      ensures size <= content.Length && (View(), result) == M.Read(old(View()), ios)
    {
      ghost var r0 := View();
      var i := 0;
      while true
        invariant 0 <= i <= |ios| && size <= content.Length
        invariant P.Reading(content.Length, sent, View())
        invariant M.Read(View(), ios[i..]) == M.Read(r0, ios)
        decreases |ios| - i
      {
        assert size < content.Length;
        if i == |ios| { return None; }
        var turn := OneRead(ios[i], ios[i..]);
        assert ios[i..][1..] == ios[i + 1..];
        match turn {
          case Goes => i := i + 1;
          case Waits => return None;
          case Ends(hostPort) => return Some(hostPort);
        }
      }
    }

    /** One turn of the loop, lines 78-111. */
    method OneRead(io: M.Io, ghost ios: seq<M.Io>) returns (turn: M.Turn)
      requires size < content.Length && P.Reading(content.Length, sent, View())
      requires ios != [] && ios[0] == io
      modifies content, this`size, this`rest
      ensures size <= content.Length && (View(), turn) == M.ReadTurn(old(View()), io)
      ensures turn.Goes? ==> P.Reading(content.Length, sent, View())
      ensures M.Read(old(View()), ios) ==
              (match turn
               case Goes => M.Read(View(), ios[1..])
               case Waits => (View(), None)
               case Ends(hostPort) => (View(), Some(hostPort)))
    {
      hide P.Reading, P.Outcome, M.Accept;
      ghost var r := View();
      Unrolled(content.Length, sent, r, ios);
      hide M.Read;
      var ret := KernelRead(io);
      if ret < 0 {
        return if io.Again? then M.Waits else M.Ends("");
      }
      assert content[size..size + ret] == r.rest[..ret] && View() == r.(rest := r.rest[ret..]);
      turn := Judge(ret);
    }

    lemma Unrolled(max: nat, sent: string, r: M.Reader, ios: seq<M.Io>)
      requires |r.content| < max == r.max && !r.failed && P.Reading(max, sent, r) && ios != []
      ensures var (r1, turn) := M.ReadTurn(r, ios[0]);
              && !r1.failed && (turn.Goes? ==> P.Reading(max, sent, r1))
              && M.Read(r, ios) == (match turn
                                    case Goes => M.Read(r1, ios[1..])
                                    case Waits => (r1, None)
                                    case Ends(hostPort) => (r1, Some(hostPort)))
    {
      hide P.Reading, P.Outcome, M.Accept;
      P.TurnKeeps(max, sent, r, ios[0]);
    }

    /** Lines 85-91. */
    method PrefixHolds(ret: nat) returns (ok: bool)
      requires size + ret <= content.Length
      ensures ok == M.Agrees(content[..size], content[size..size + ret])
    {
      if size >= |M.CONNECT| { return true; }
      var n := if ret < |M.CONNECT| - size then ret else |M.CONNECT| - size;
      assert content[size..size + ret][..n] == content[size..size + n];
      return content[size..size + n] == M.CONNECT[size..size + n];
    }

    /** Lines 85-111: `ret` more bytes are in the buffer. */
    method Judge(ret: nat) returns (turn: M.Turn)
      requires size + ret <= content.Length && !M.Accept(View(), content[size..size + ret]).0.failed
      modifies this`size
      ensures size <= content.Length && (View(), turn) == M.Accept(old(View()), old(content[size..size + ret]))
    {
      hide M.Agrees, M.EndsWith, M.HostEnd;
      ghost var r, bytes := View(), content[size..size + ret];
      var ok := PrefixHolds(ret);
      if !ok { return M.Ends(""); }
      size := size + ret;
      var req := content[..size];
      assert req == r.content + bytes;
      assert View() == r.(content := r.content + bytes);
      if M.EndsWith(req, M.TERMINATOR) {
        var start := |M.CONNECT|;
        return M.Ends(req[start..M.HostEnd(req, start)]);
      }
      if ret == 0 { return M.Ends(""); }
      return if size == content.Length then M.Ends("") else M.Goes;
    }

    method Finish(hostPort: string)
      requires registered
      modifies this`registered, this`calls
      ensures !registered && calls == old(calls) + [hostPort]
    {
      registered := false;
      calls := calls + [hostPort];
    }

    method OnEvent(err: bool, readable: bool, ios: seq<M.Io>)
      requires Valid() && registered
      modifies this, content
      ensures Valid() && View() == M.Step(old(View()), M.OnEvent(err, readable, ios))
    {
      P.StepKeeps(content.Length, sent, View(), M.OnEvent(err, readable, ios));
      hide P.Inv;
      if err {
        Finish("");
      } else if readable {
        var hostPort := Read(ios);
        if hostPort.Some? { Finish(hostPort.value); }
      }
    }

    method OnTimeout()
      requires Valid() && registered
      modifies this`registered, this`calls
      ensures Valid() && View() == M.Step(old(View()), M.OnTimeout)
    {
      P.StepKeeps(content.Length, sent, View(), M.OnTimeout);
      hide P.Inv;
      Finish("");
    }
  }
}
