/** The reader of a CONNECT request as a state machine: what it has read, what the socket still holds, and
    the calls of its callback.  A character stands for a byte. */
module ParserModel {
  import opened Common

  const CONNECT: string := "CONNECT "
  const TERMINATOR: string := "\r\n\r\n"

  // ---------------------------------------------------------------------------------------------
  // The grammar (src/parser.cc:32-42)

  /** src/parser.cc:34-37. */
  predicate EndsWith(s: string, suffix: string) {
    |s| >= |suffix| && s[|s| - |suffix|..] == suffix
  }

  /** std::string_view::find_first_of(" \r", start), or the length of the request. */
  function HostEnd(req: string, start: nat): (end: nat)
    requires start <= |req|
    ensures start <= end <= |req|
    decreases |req| - start
  {
    if start == |req| || req[start] == ' ' || req[start] == '\r' then start else HostEnd(req, start + 1)
  }

  /** Line 96. */
  function HostPort(req: string): string
    requires |CONNECT| <= |req|
  {
    req[|CONNECT|..HostEnd(req, |CONNECT|)]
  }

  // ---------------------------------------------------------------------------------------------
  // The handler

  /** `content` is content_ up to size_, `max` the size of content_, and `rest` what a peer that then
      closes the connection has sent and the reader has not read. */
  datatype Reader = Reader(
    max: nat, content: string, rest: string,
    registered: bool, calls: seq<string>,
    failed: bool)  // a CHECK has not held, or a slice is out of range

  function NewReader(max: nat, sent: string): Reader { Reader(max, "", sent, true, [], false) }

  /** What read() does: deliver about n bytes (none at the end of the stream), EAGAIN, or an error. */
  datatype Io = Got(n: nat) | Again | Error

  function Min(a: nat, b: nat): nat { if a < b then a else b }

  /** How many bytes read() delivers, given room for `room`. */
  function Delivered(n: nat, room: nat, rest: nat): (k: nat)
    requires room > 0
    ensures k <= room && k <= rest && (k == 0 <==> rest == 0)
  {
    Min(Min(if n == 0 then 1 else n, room), rest)
  }

  /** Where one turn of Read's loop leads. */
  datatype Turn = Goes | Waits | Ends(hostPort: string)

  /** Lines 85-91: as far as the new bytes overlap the prefix, they agree with it. */
  predicate Agrees(content: string, bytes: string) {
    |content| < |CONNECT| ==>
      var n := Min(|bytes|, |CONNECT| - |content|); bytes[..n] == CONNECT[|content|..|content| + n]
  }

  /** Lines 78-111, for a read() that has delivered `bytes`. */
  function Accept(r: Reader, bytes: string): (Reader, Turn) {
    if !Agrees(r.content, bytes) then (r, Ends("")) else
    var r1 := r.(content := r.content + bytes);
    if EndsWith(r1.content, TERMINATOR) then
      if |r1.content| < |CONNECT| then (r1.(failed := true), Ends("")) else (r1, Ends(HostPort(r1.content)))
    else if bytes == [] then (r1, Ends(""))
    else if |r1.content| == r1.max then (r1, Ends(""))
    else (r1, Goes)
  }

  function ReadTurn(r: Reader, io: Io): (Reader, Turn)
    requires |r.content| < r.max
  {
    match io
    case Error => (r, Ends(""))
    case Again => (r, Waits)
    case Got(n) =>
      var k := Delivered(n, r.max - |r.content|, |r.rest|);
      Accept(r.(rest := r.rest[k..]), r.rest[..k])
  }

  /** Read: its turns, until one waits or ends.  `None` stands for nullopt. */
  function Read(r: Reader, ios: seq<Io>): (Reader, Option<string>)
    decreases |ios|
  {
    if |r.content| >= r.max then (r.(failed := true), None)
    else if ios == [] then (r, None)
    else
      var (r1, turn) := ReadTurn(r, ios[0]);
      match turn
      case Goes => Read(r1, ios[1..])
      case Waits => (r1, None)
      case Ends(hostPort) => (r1, Some(hostPort))
  }

  /** Lines 65-68. */
  function Finish(r: Reader, hostPort: string): Reader {
    if !r.registered then r.(failed := true) else r.(registered := false, calls := r.calls + [hostPort])
  }

  datatype Event =
    | OnEvent(err: bool, readable: bool, ios: seq<Io>)
    | OnTimeout

  /** The event loop calls registered handlers only. */
  function Step(r: Reader, e: Event): Reader {
    if !r.registered then r else
    match e
    case OnTimeout => Finish(r, "")
    case OnEvent(err, readable, ios) =>
      if err then Finish(r, "")
      else if !readable then r
      else
        var (r1, result) := Read(r, ios);
        match result
        case None => r1
        case Some(hostPort) => Finish(r1, hostPort)
  }

  function Run(r: Reader, es: seq<Event>): Reader {
    if es == [] then r else Step(Run(r, es[..|es| - 1]), es[|es| - 1])
  }
}
