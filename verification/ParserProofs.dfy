/** What the request reader guarantees, however the stream is cut into reads. */
module ParserProofs {
  import opened Common
  import opened ParserModel

  function Reached(max: nat, sent: string, es: seq<Event>): Reader { Run(NewReader(max, sent), es) }

  // ---------------------------------------------------------------------------------------------
  // Requests

  /** The request, as far as it goes, agrees with the prefix. */
  predicate Starts(req: string) {
    forall i :: 0 <= i < |req| && i < |CONNECT| ==> req[i] == CONNECT[i]
  }

  /** What of the stream the reader can see. */
  function Visible(max: nat, sent: string): string { sent[..Min(max, |sent|)] }

  /** The terminator ends at k. */
  predicate EndsAt(s: string, k: nat) { k <= |s| && EndsWith(s[..k], TERMINATOR) }

  lemma AgreesIsStarts(content: string, bytes: string)
    requires Starts(content)
    ensures Agrees(content, bytes) <==> Starts(content + bytes)
  {
    var all := content + bytes;
    if |content| < |CONNECT| {
      var n := Min(|bytes|, |CONNECT| - |content|);
      if Starts(all) {
        forall i | 0 <= i < n ensures bytes[i] == CONNECT[|content| + i] { assert all[|content| + i] == bytes[i]; }
      }
      if Agrees(content, bytes) {
        forall i | |content| <= i < |all| && i < |CONNECT| ensures all[i] == CONNECT[i] {
          assert bytes[..n][i - |content|] == CONNECT[|content|..|content| + n][i - |content|];
        }
      }
    }
  }

  lemma StartsPrefix(s: string, k: nat)
    requires k <= |s| && Starts(s)
    ensures Starts(s[..k])
  {
  }

  /** A request that starts as it should and ends with the terminator has room for both. */
  lemma LongEnough(req: string)
    requires Starts(req) && EndsWith(req, TERMINATOR)
    ensures |req| >= |CONNECT| + |TERMINATOR|
    ensures req[|req| - 4] == '\r' && req[|req| - 3] == '\n' && req[|req| - 2] == '\r' && req[|req| - 1] == '\n'
  {
    assert forall i :: 0 <= i < 4 ==> req[|req| - 4..][i] == TERMINATOR[i];
    assert req[|req| - 4] == '\r';
    assert forall i :: 0 <= i < |CONNECT| ==> CONNECT[i] != '\r';
  }

  // ---------------------------------------------------------------------------------------------
  // The host and port

  predicate Stops(c: char) { c == ' ' || c == '\r' }

  lemma {:induction false} HostEndIs(req: string, start: nat)
    requires start <= |req|
    ensures var end := HostEnd(req, start);
            (forall i :: start <= i < end ==> !Stops(req[i])) && (end < |req| ==> Stops(req[end]))
    decreases |req| - start
  {
    if start < |req| && !Stops(req[start]) { HostEndIs(req, start + 1); }
  }

  /** The host and port do not depend on what follows the first terminator. */
  lemma {:induction false} HostEndOfPrefix(req: string, k: nat, start: nat, stop: nat)
    requires start <= stop < k <= |req| && Stops(req[stop])
    ensures HostEnd(req[..k], start) == HostEnd(req, start) <= stop
    decreases stop - start
  {
    assert req[..k][start] == req[start];
    if !Stops(req[start]) { HostEndOfPrefix(req, k, start + 1, stop); }
  }

  /** Cut at any terminator, a stream yields the same host and port. */
  lemma SameHostPort(s: string, k: nat)
    requires Starts(s) && EndsAt(s, k)
    ensures |CONNECT| <= k && HostPort(s[..k]) == HostPort(s)
  {
    StartsPrefix(s, k);
    LongEnough(s[..k]);
    assert s[k - 4] == s[..k][k - 4];
    HostEndOfPrefix(s, k, |CONNECT|, k - 4);
  }

  /** The documented language: "CONNECT " host_port rest CR LF CR LF, where host_port is the longest run
      free of spaces and carriage returns. */
  ghost predicate Matches(req: string, hostPort: string) {
    exists tail: string ::
      && req == CONNECT + hostPort + tail && EndsWith(tail, TERMINATOR)
      && (forall i :: 0 <= i < |hostPort| ==> !Stops(hostPort[i])) && Stops(tail[0])
  }

  lemma HostPortMatches(req: string)
    requires Starts(req) && EndsWith(req, TERMINATOR)
    ensures |CONNECT| <= |req| && Matches(req, HostPort(req))
  {
    LongEnough(req);
    var n, end := |req|, HostEnd(req, |CONNECT|);
    HostEndIs(req, |CONNECT|);
    HostEndOfPrefix(req, n, |CONNECT|, n - 4);
    assert req[..n] == req;
    hide HostEnd, EndsWith;
    SplitAt(req, end);
    TailEnds(req, end);
  }

  lemma SplitAt(req: string, end: nat)
    requires Starts(req) && |CONNECT| <= end <= |req|
    ensures req == CONNECT + req[|CONNECT|..end] + req[end..]
  {
    assert req[..|CONNECT|] == CONNECT;
  }

  lemma TailEnds(req: string, end: nat)
    requires EndsWith(req, TERMINATOR) && end <= |req| - 4
    ensures EndsWith(req[end..], TERMINATOR)
  {
    assert req[end..][|req| - end - 4..] == req[|req| - 4..];
  }

  // ---------------------------------------------------------------------------------------------
  // The invariant

  /** How a quiet session over the stream `sent` can have ended. */
  predicate Outcome(max: nat, sent: string, content: string, hostPort: string) {
    var seen := Visible(max, sent);
    || (!Starts(seen) && hostPort == "")
    || (content <= seen && Starts(content) && EndsWith(content, TERMINATOR)
        && |CONNECT| <= |content| && hostPort == HostPort(content))
    || (content == seen && Starts(content) && !EndsWith(content, TERMINATOR) && hostPort == "")
  }

  predicate Reading(max: nat, sent: string, r: Reader) {
    && r.content + r.rest == sent && |r.content| < max
    && Starts(r.content) && !EndsWith(r.content, TERMINATOR)
  }

  predicate Inv(max: nat, sent: string, r: Reader) {
    && !r.failed && r.max == max > 0
    && (r.registered ==> r.calls == [] && Reading(max, sent, r))
    && (!r.registered ==> |r.calls| == 1 && (r.calls[0] == "" || Outcome(max, sent, r.content, r.calls[0])))
  }

  predicate QuietIo(io: Io) { !io.Error? }

  predicate Quiet(e: Event) { e.OnEvent? && !e.err && forall i :: 0 <= i < |e.ios| ==> QuietIo(e.ios[i]) }

  predicate QuietInv(max: nat, sent: string, r: Reader) {
    !r.registered ==> |r.calls| == 1 && Outcome(max, sent, r.content, r.calls[0])
  }

  predicate TurnOk(max: nat, sent: string, r: Reader, r1: Reader, turn: Turn) {
    && r1 == r.(content := r1.content, rest := r1.rest)
    && (if turn.Ends? then Outcome(max, sent, r1.content, turn.hostPort) else Reading(max, sent, r1))
  }

  lemma AcceptKeeps(max: nat, sent: string, r: Reader, k: nat)
    requires r.max == max > 0 && !r.failed && Reading(max, sent, r)
    requires k <= |r.rest| && |r.content| + k <= max && (k == 0 ==> r.rest == [])
    ensures var (r1, turn) := Accept(r.(rest := r.rest[k..]), r.rest[..k]); TurnOk(max, sent, r, r1, turn) && !turn.Waits?
  {
    var bytes, m := r.rest[..k], |r.content| + k;
    var seen := Visible(max, sent);
    var all := r.content + bytes;
    assert all == sent[..m] == seen[..m];
    AgreesIsStarts(r.content, bytes);
    assert all + r.rest[k..] == sent;
    hide Agrees;
    if !Starts(all) {
      if Starts(seen) { StartsPrefix(seen, m); }
    } else if EndsWith(all, TERMINATOR) {
      LongEnough(all);
      hide Starts, EndsWith;
    } else {
      hide Starts, EndsWith;
      if k == 0 || m == max { assert all == seen; }
    }
  }

  lemma TurnKeeps(max: nat, sent: string, r: Reader, io: Io)
    requires r.max == max > 0 && !r.failed && Reading(max, sent, r)
    ensures var (r1, turn) := ReadTurn(r, io);
            if io.Error? then turn == Ends("") && r1 == r else TurnOk(max, sent, r, r1, turn)
  {
    hide Accept, Starts, EndsWith;
    if io.Got? { AcceptKeeps(max, sent, r, Delivered(io.n, max - |r.content|, |r.rest|)); }
  }

  lemma {:induction false} ReadKeeps(max: nat, sent: string, r: Reader, ios: seq<Io>)
    requires r.max == max > 0 && !r.failed && Reading(max, sent, r)
    ensures var (r1, result) := Read(r, ios);
            && r1 == r.(content := r1.content, rest := r1.rest)
            && (if result.None? then Reading(max, sent, r1)
                else result.value == "" || Outcome(max, sent, r1.content, result.value))
            && (result.Some? && (forall i :: 0 <= i < |ios| ==> QuietIo(ios[i])) ==>
                  Outcome(max, sent, r1.content, result.value))
    decreases |ios|
  {
    if ios != [] {
      TurnKeeps(max, sent, r, ios[0]);
      var (r1, turn) := ReadTurn(r, ios[0]);
      hide ReadTurn, Outcome, Starts, EndsWith;
      if turn.Goes? {
        ReadKeeps(max, sent, r1, ios[1..]);
        if forall i :: 0 <= i < |ios| ==> QuietIo(ios[i]) {
          forall i | 0 <= i < |ios[1..]| ensures QuietIo(ios[1..][i]) { assert ios[1..][i] == ios[i + 1]; }
        }
      }
    }
  }

  lemma StepKeeps(max: nat, sent: string, r: Reader, e: Event)
    requires Inv(max, sent, r)
    ensures Inv(max, sent, Step(r, e))
    ensures QuietInv(max, sent, r) && Quiet(e) ==> QuietInv(max, sent, Step(r, e))
  {
    hide Read, Outcome, Starts, EndsWith;
    if r.registered && e.OnEvent? && !e.err && e.readable {
      ReadKeeps(max, sent, r, e.ios);
      if QuietInv(max, sent, r) && Quiet(e) {
        assert forall i :: 0 <= i < |e.ios| ==> QuietIo(e.ios[i]);
        var (r1, result) := Read(r, e.ios);
        assert result.Some? ==> Outcome(max, sent, r1.content, result.value);
        assert result.Some? ==> Step(r, e) == Finish(r1, result.value);
        assert result.Some? ==> Step(r, e).calls == [result.value];
      }
    }
  }

  lemma {:induction false} RunKeeps(max: nat, sent: string, es: seq<Event>)
    requires max > 0
    ensures Inv(max, sent, Reached(max, sent, es))
    ensures (forall i :: 0 <= i < |es| ==> Quiet(es[i])) ==> QuietInv(max, sent, Reached(max, sent, es))
    decreases |es|
  {
    if es != [] {
      RunKeeps(max, sent, es[..|es| - 1]);
      StepKeeps(max, sent, Reached(max, sent, es[..|es| - 1]), es[|es| - 1]);
      hide Step, Inv;
    }
  }

  // ---------------------------------------------------------------------------------------------
  // The callback, the CHECK and the slice

  /** The callback is called at most once, and the handler leaves the event loop just then. */
  lemma CalledOnce(max: nat, sent: string, es: seq<Event>)
    requires max > 0
    ensures var r := Reached(max, sent, es);
            |r.calls| <= 1 && (r.registered <==> r.calls == []) && |r.content| <= max
  {
    RunKeeps(max, sent, es);
    hide Outcome, Run;
    ContentFits(max, sent, es);
  }

  lemma {:induction false} ContentFits(max: nat, sent: string, es: seq<Event>)
    requires max > 0
    ensures |Reached(max, sent, es).content| <= max && Reached(max, sent, es).max == max
    decreases |es|
  {
    if es != [] {
      ContentFits(max, sent, es[..|es| - 1]);
      StepFits(Reached(max, sent, es[..|es| - 1]), es[|es| - 1]);
    }
  }

  lemma StepFits(r: Reader, e: Event)
    requires |r.content| <= r.max
    ensures |Step(r, e).content| <= r.max && Step(r, e).max == r.max
  {
    if e.OnEvent? { ReadFits(r, e.ios); }
  }

  lemma {:induction false} ReadFits(r: Reader, ios: seq<Io>)
    requires |r.content| <= r.max
    ensures |Read(r, ios).0.content| <= r.max && Read(r, ios).0.max == r.max
    ensures Read(r, ios).0.registered == r.registered && Read(r, ios).0.calls == r.calls
    decreases |ios|
  {
    if |r.content| < r.max && ios != [] {
      var (r1, turn) := ReadTurn(r, ios[0]);
      hide Agrees, EndsWith;
      if turn.Goes? { ReadFits(r1, ios[1..]); }
    }
  }

  /** The CHECK on free space never fails, and the host and port are always cut out within bounds, in
      every session, if and only if some space has been set aside for the request. */
  lemma SafeIfRoom(max: nat, sent: string)
    ensures (forall es :: !Reached(max, sent, es).failed) <==> max > 0
  {
    if max > 0 {
      forall es ensures !Reached(max, sent, es).failed { RunKeeps(max, sent, es); }
    } else {
      RunOne(max, sent, OnEvent(false, true, []));
      assert Reached(max, sent, [OnEvent(false, true, [])]).failed;
    }
  }

  lemma RunOne(max: nat, sent: string, e: Event)
    ensures Reached(max, sent, [e]) == Step(NewReader(max, sent), e)
  {
    hide Step;
    assert [e][..|[e]| - 1] == [];
    assert Run(NewReader(max, sent), []) == NewReader(max, sent);
  }

  /** A result that is not empty means that what has been read, which is what the peer has sent up to
      some point, is a request of the documented language with that host and port. */
  lemma OnlyRequestsAreAccepted(max: nat, sent: string, es: seq<Event>)
    requires max > 0
    requires Reached(max, sent, es).calls != [] && Reached(max, sent, es).calls[0] != ""
    ensures var r := Reached(max, sent, es);
            r.content <= sent && |r.content| <= max && Matches(r.content, r.calls[0])
  {
    RunKeeps(max, sent, es);
    ContentFits(max, sent, es);
    var r := Reached(max, sent, es);
    hide Run, Matches;
    HostPortMatches(r.content);
  }

  // ---------------------------------------------------------------------------------------------
  // Independence of how the stream is cut

  /** A session without errors or timeouts, in which the reader has come to a result. */
  ghost predicate Ended(max: nat, sent: string, es: seq<Event>) {
    (forall i :: 0 <= i < |es| ==> Quiet(es[i])) && !Reached(max, sent, es).registered
  }

  /** What the reader can see is no request, or has no terminator, or ends with one, or names no host. */
  ghost predicate Unambiguous(t: string) {
    || !Starts(t)
    || (forall k :: 0 <= k <= |t| ==> !EndsAt(t, k))
    || EndsWith(t, TERMINATOR)
    || (|CONNECT| <= |t| && HostPort(t) == "")
  }

  /** The result, if it does not depend on the reads. */
  function Verdict(t: string): string {
    if Starts(t) && EndsWith(t, TERMINATOR) && |CONNECT| <= |t| then HostPort(t) else ""
  }

  lemma OutcomeIsVerdict(max: nat, sent: string, content: string, hostPort: string)
    requires Outcome(max, sent, content, hostPort) && Unambiguous(Visible(max, sent))
    ensures hostPort == Verdict(Visible(max, sent))
  {
    var t := Visible(max, sent);
    if content <= t && Starts(content) && EndsWith(content, TERMINATOR) && |CONNECT| <= |content| {
      LongEnough(content);
      assert forall i :: 0 <= i < |content| ==> t[i] == content[i];
      assert t[..|content|] == content && EndsAt(t, |content|);
      SameHostPort(t, |content|);
      hide Matches, EndsWith, HostPort;
    }
  }

  /** The reader when the first read() has delivered k bytes. */
  function After(max: nat, sent: string, k: nat): Reader
    requires k <= |sent|
  {
    NewReader(max, sent).(content := sent[..k], rest := sent[k..])
  }

  /** The first turn, if it gets k bytes that begin as they should. */
  lemma FirstTurn(max: nat, sent: string, k: nat)
    requires 0 < k <= max && k <= |sent| && Agrees("", sent[..k])
    requires EndsWith(sent[..k], TERMINATOR) ==> k >= |CONNECT|
    ensures ReadTurn(NewReader(max, sent), Got(k)) ==
            (After(max, sent, k), if EndsWith(sent[..k], TERMINATOR) then Ends(HostPort(sent[..k]))
                                  else if k == max then Ends("") else Goes)
  {
    hide EndsWith, Agrees, HostPort;
    var r := NewReader(max, sent);
    assert "" + sent[..k] == sent[..k];
    assert Delivered(k, max, |sent|) == k;
    assert ReadTurn(r, Got(k)) == Accept(r.(rest := sent[k..]), sent[..k]);
  }

  /** At the end of the stream. */
  lemma LastTurn(max: nat, sent: string)
    requires |sent| < max && !EndsWith(sent, TERMINATOR)
    ensures ReadTurn(After(max, sent, |sent|), Got(1)).1 == Ends("")
  {
    var r := After(max, sent, |sent|);
    assert r.content == sent && r.rest == [] && r.rest[..0] == [];
    assert Agrees(sent, []);
    hide Agrees, EndsWith;
    assert sent + [] == sent;
  }

  lemma AllAtOnce(max: nat, sent: string)
    requires max > 0
    requires var t := Visible(max, sent); t != "" && Starts(t) && !EndsWith(t, TERMINATOR)
    ensures var es := [OnEvent(false, true, [Got(|Visible(max, sent)|), Got(1)])];
            Ended(max, sent, es) && Reached(max, sent, es).calls == [""]
  {
    var k := |Visible(max, sent)|;
    assert sent[..k] == Visible(max, sent);
    AgreesIsStarts("", sent[..k]);
    assert "" + sent[..k] == sent[..k];
    hide Starts, EndsWith, ReadTurn, Run;
    var ios := [Got(k), Got(1)];
    var e := OnEvent(false, true, ios);
    RunOne(max, sent, e);
    FirstTurn(max, sent, k);
    assert ios[1..] == [Got(1)];
    if k < max {
      assert sent[..k] == sent;
      LastTurn(max, sent);
      assert Read(After(max, sent, k), [Got(1)]).1 == Some("");
    }
    assert Read(NewReader(max, sent), ios).1 == Some("");
    assert Quiet(e);
    EndedBy(max, sent, e, "");
  }

  lemma CutFacts(max: nat, sent: string, k: nat)
    requires var t := Visible(max, sent); k <= |t| && Starts(t) && EndsAt(t, k)
    ensures |CONNECT| <= k && EndsWith(sent[..k], TERMINATOR) && Agrees("", sent[..k])
    ensures HostPort(sent[..k]) == HostPort(Visible(max, sent))
  {
    var t := Visible(max, sent);
    assert sent[..k] == t[..k] == "" + t[..k];
    StartsPrefix(t, k);
    LongEnough(t[..k]);
    SameHostPort(t, k);
    AgreesIsStarts("", t[..k]);
  }

  lemma UpTo(max: nat, sent: string, k: nat)
    requires max > 0
    requires var t := Visible(max, sent); k <= |t| && Starts(t) && EndsAt(t, k)
    ensures var es := [OnEvent(false, true, [Got(k)])];
            |CONNECT| <= |Visible(max, sent)|
            && Ended(max, sent, es) && Reached(max, sent, es).calls == [HostPort(Visible(max, sent))]
  {
    hide HostPort, EndsWith, Starts, ReadTurn, Run, Agrees;
    CutFacts(max, sent, k);
    FirstTurn(max, sent, k);
    assert Read(NewReader(max, sent), [Got(k)]).1 == Some(HostPort(sent[..k]));
    EndedBy(max, sent, OnEvent(false, true, [Got(k)]), HostPort(sent[..k]));
  }

  lemma EndedBy(max: nat, sent: string, e: Event, hostPort: string)
    requires e.OnEvent? && e.readable && Quiet(e) && Read(NewReader(max, sent), e.ios).1 == Some(hostPort)
    requires max > 0
    ensures Ended(max, sent, [e]) && Reached(max, sent, [e]).calls == [hostPort]
  {
    RunOne(max, sent, e);
    ReadFits(NewReader(max, sent), e.ios);
    hide Read, Run, Quiet;
  }

  /** The terminator is looked for only where a read ends.  So the result is the same for all ways of
      cutting the stream into reads and pauses, if and only if what the reader can see is unambiguous. */
  lemma ChunkIndependence(max: nat, sent: string)
    requires max > 0
    ensures (forall es, fs :: Ended(max, sent, es) && Ended(max, sent, fs) ==>
                                Reached(max, sent, es).calls == Reached(max, sent, fs).calls)
            <==> Unambiguous(Visible(max, sent))
  {
    var t := Visible(max, sent);
    if Unambiguous(t) {
      forall es, fs | Ended(max, sent, es) && Ended(max, sent, fs)
        ensures Reached(max, sent, es).calls == Reached(max, sent, fs).calls
      {
        ResultIsVerdict(max, sent, es);
        ResultIsVerdict(max, sent, fs);
      }
    } else {
      var k: nat :| k <= |t| && EndsAt(t, k);
      StartsPrefix(t, k);
      LongEnough(t[..k]);
      UpTo(max, sent, k);
      AllAtOnce(max, sent);
      hide Ended, HostPort, EndsWith, Reached;
      assert Reached(max, sent, [OnEvent(false, true, [Got(k)])]).calls
          != Reached(max, sent, [OnEvent(false, true, [Got(|t|), Got(1)])]).calls;
    }
  }

  /** Then the result is the host and port if all that can be seen is a request, and empty otherwise. */
  lemma ResultIsVerdict(max: nat, sent: string, es: seq<Event>)
    requires max > 0 && Unambiguous(Visible(max, sent)) && Ended(max, sent, es)
    ensures Reached(max, sent, es).calls == [Verdict(Visible(max, sent))]
  {
    RunKeeps(max, sent, es);
    var r := Reached(max, sent, es);
    hide Outcome, Unambiguous, Verdict, Run;
    OutcomeIsVerdict(max, sent, r.content, r.calls[0]);
  }

  // ---------------------------------------------------------------------------------------------
  // Every session comes to an end

  /** How far into the stream the reads of one event get, from k, if nothing ends the session: each takes
      what the kernel has, at least one byte, up to `limit`. */
  function TakenBy(limit: nat, k: nat, ios: seq<Io>): nat
    decreases |ios|
  {
    if ios == [] || !ios[0].Got? then k
    else TakenBy(limit, Min(k + if ios[0].n == 0 then 1 else ios[0].n, limit), ios[1..])
  }

  /** One of the reads is made when there is nothing left to come: it reports the end of the stream. */
  predicate SeesEnd(limit: nat, k: nat, ios: seq<Io>)
    decreases |ios|
  {
    ios != [] && ios[0].Got?
    && (k == limit || SeesEnd(limit, Min(k + if ios[0].n == 0 then 1 else ios[0].n, limit), ios[1..]))
  }

  /** One of the reads fails. */
  predicate SeesError(ios: seq<Io>)
    decreases |ios|
  {
    ios != [] && (ios[0].Error? || (ios[0].Got? && SeesError(ios[1..])))
  }

  function Limit(max: nat, sent: string): nat { Min(max, |sent|) }

  /** How far into the stream the readable events of a session get. */
  function Taken(max: nat, sent: string, es: seq<Event>): nat
    decreases |es|
  {
    if es == [] then 0 else
    var k, e := Taken(max, sent, es[..|es| - 1]), es[|es| - 1];
    if e.OnEvent? && !e.err && e.readable then TakenBy(Limit(max, sent), k, e.ios) else k
  }

  /** The event, with k bytes read before, is a timeout, an error, or the end of the stream. */
  predicate Final(max: nat, sent: string, k: nat, e: Event) {
    e.OnTimeout? || e.err || (e.readable && (SeesEnd(Limit(max, sent), k, e.ios) || SeesError(e.ios)))
  }

  lemma {:induction false} ReadGoesOn(max: nat, sent: string, r: Reader, ios: seq<Io>)
    requires r.max == max > 0 && !r.failed && Reading(max, sent, r) && Read(r, ios).1.None?
    ensures var limit := Limit(max, sent);
            var k := TakenBy(limit, |r.content|, ios);
            && k <= |sent| && Read(r, ios).0.content == sent[..k]
            && !SeesEnd(limit, |r.content|, ios) && !SeesError(ios)
    decreases |ios|
  {
    hide ReadTurn, Outcome, Starts, EndsWith, Agrees;
    assert r.content == sent[..|r.content|];
    if ios != [] {
      var (r1, turn) := ReadTurn(r, ios[0]);
      TurnKeeps(max, sent, r, ios[0]);
      TurnTakes(max, sent, r, ios[0]);
      if turn.Goes? {
        hide Reading;
        ReadGoesOn(max, sent, r1, ios[1..]);
      }
    }
  }

  /** A turn of the loop that does not end the session has taken what the kernel had. */
  lemma TurnTakes(max: nat, sent: string, r: Reader, io: Io)
    requires r.max == max > 0 && !r.failed && Reading(max, sent, r)
    ensures var (r1, turn) := ReadTurn(r, io);
            && (io.Error? ==> turn == Ends("")) && (io.Again? ==> turn == Waits && r1 == r)
            && (turn.Goes? ==> io.Got? && |r.content| < Limit(max, sent)
                               && |r1.content| == Min(|r.content| + if io.n == 0 then 1 else io.n, Limit(max, sent)))
            && (turn.Waits? ==> io.Again?)
  {
    hide Agrees, EndsWith, Starts, HostPort;
    assert |r.rest| == |sent| - |r.content|;
  }

  lemma StepGoesOn(max: nat, sent: string, r: Reader, e: Event)
    requires Inv(max, sent, r) && Step(r, e).registered
    ensures r.registered && !Final(max, sent, |r.content|, e)
    ensures var k := if e.OnEvent? && !e.err && e.readable then TakenBy(Limit(max, sent), |r.content|, e.ios) else |r.content|;
            k <= |sent| && (r.content == sent[..|r.content|] ==> Step(r, e).content == sent[..k])
  {
    hide Read, Outcome, Starts, EndsWith, TakenBy, SeesEnd, SeesError;
    if e.OnEvent? && !e.err && e.readable {
      ReadKeeps(max, sent, r, e.ios);
      if Read(r, e.ios).1.None? { ReadGoesOn(max, sent, r, e.ios); }
    }
  }

  /** A session ends: while the handler is registered nothing final has happened, everything the kernel had
      to offer in all readable events has been read, however many there were, and it is neither more than
      there is room for, nor a request, nor unlike one. */
  lemma {:induction false} SessionEnds(max: nat, sent: string, es: seq<Event>)
    requires max > 0
    ensures var r := Reached(max, sent, es);
            r.registered ==>
              && (forall k :: 0 <= k < |es| ==> !Final(max, sent, Taken(max, sent, es[..k]), es[k]))
              && Taken(max, sent, es) < max && Taken(max, sent, es) <= |sent|
              && r.content == sent[..Taken(max, sent, es)] && Starts(r.content) && !EndsWith(r.content, TERMINATOR)
    decreases |es|
  {
    hide Outcome, Starts, EndsWith, Read, TakenBy, Final, Step, Taken;
    RunKeeps(max, sent, es);
    if es == [] {
      assert sent[..0] == "" && Taken(max, sent, es) == 0 by { NothingTaken(max, sent); }
    } else if Reached(max, sent, es).registered {
      var n := |es| - 1;
      var r := Reached(max, sent, es[..n]);
      RunKeeps(max, sent, es[..n]);
      StepGoesOn(max, sent, r, es[n]);
      SessionEnds(max, sent, es[..n]);
      forall k | 0 <= k < |es| ensures !Final(max, sent, Taken(max, sent, es[..k]), es[k]) {
        if k < n { assert es[..n][..k] == es[..k] && es[..n][k] == es[k]; }
      }
      TakenSnoc(max, sent, es);
    }
  }

  lemma NothingTaken(max: nat, sent: string)
    ensures Taken(max, sent, []) == 0
  {
  }

  lemma TakenSnoc(max: nat, sent: string, es: seq<Event>)
    requires es != []
    ensures var k, e := Taken(max, sent, es[..|es| - 1]), es[|es| - 1];
            Taken(max, sent, es) == if e.OnEvent? && !e.err && e.readable then TakenBy(Limit(max, sent), k, e.ios) else k
  {
  }

  /** A timeout, or an error event, ends a session with an empty result, unless it has ended before; and
      after that nothing changes it. */
  lemma {:induction false} TimeoutEnds(max: nat, sent: string, es: seq<Event>, k: nat)
    requires max > 0 && k < |es| && (es[k].OnTimeout? || es[k].err)
    ensures var before, r := Reached(max, sent, es[..k]), Reached(max, sent, es);
            && !r.registered && r.calls == if before.registered then [""] else before.calls
    decreases |es|
  {
    var n := |es| - 1;
    if k == n {
      RunKeeps(max, sent, es[..k]);
    } else {
      assert es[..n][..k] == es[..k] && es[..n][k] == es[k];
      TimeoutEnds(max, sent, es[..n], k);
    }
  }
}
