/** extract_message: cutting the next message of a given kind out of the
    session buffer, receiving more data from the socket when needed. */
module Framer {
  import opened Protocol
  import opened State

  /** How much the client still has in flight: bytes plus chunks. */
  function Backlog(chunks: seq<string>): nat {
    |Flatten(chunks)| + |chunks|
  }

  /** connection.recv(n): the next chunk, at most n bytes of it; a longer
      chunk leaves its remainder in flight. An empty chunk is the client
      closing the connection; nothing left in flight is the read timing out. */
  function Recv(s: Session, n: nat): (r: Res<string>)
    requires n > 0
    ensures r.s == s.(inbound := r.s.inbound)
    ensures r.Raised? <==> s.inbound == []
    ensures r.Raised? ==> r.exc == SocketTimeout
    ensures r.Done? ==> |r.value| <= n
    ensures r.Done? ==> r.value + Flatten(r.s.inbound) == Flatten(s.inbound)
    ensures r.Done? ==> (r.value == "" <==> s.inbound[0] == "")
    ensures r.Done? && r.value != "" ==> Backlog(r.s.inbound) < Backlog(s.inbound)
  {
    if s.inbound == [] then Raised(SocketTimeout, s)
    else
      var c := s.inbound[0];
      assert Flatten(s.inbound) == c + Flatten(s.inbound[1..]);
      if |c| <= n then
        Done(c, s.(inbound := s.inbound[1..]))
      else
        var rest := [c[n..]] + s.inbound[1..];
        assert rest[0] == c[n..] && rest[1..] == s.inbound[1..];
        assert c == c[..n] + c[n..];
        Done(c[..n], s.(inbound := rest))
  }

  /** The ways reading a message can fail. */
  predicate FramingExc(e: Exc) {
    || e == CloseConnection(BufferedTooLong)
    || e == CloseConnection(ReceivedTooLong)
    || e == CloseConnection(EmptyData)
    || e == SocketTimeout
  }

  /** Reading a message failed with e, having sent e's notice. */
  predicate FramingFailure(s: Session, e: Exc, t: Session) {
    FramingExc(e) && t.sent == s.sent + Notice(e)
  }

  /** The receiving loop of extract_message, entered when the buffer holds
      no complete message. A chunk shorter than the limit without a
      terminator means "keep reading"; a full-size one is a syntax error.
      Once a terminator shows up the message is cut out with no length
      check. */
  function ReceiveLoop(s: Session, n: nat): (r: Res<string>)
    requires n > 0
    requires !HasFrame(s.buffer)
    ensures Keeps(s, r.s)
    ensures r.Done? ==> ReadsFrame(s, r.value, r.s)
    ensures r.Raised? ==> FramingFailure(s, r.exc, r.s) && r.exc != CloseConnection(BufferedTooLong)
    ensures s.inbound == [] ==> r == Raised(SocketTimeout, s)
    ensures s.inbound != [] && s.inbound[0] == "" ==> r == Raised(CloseConnection(EmptyData), Rest(s))
    decreases Backlog(s.inbound)
  {
    match Recv(s, n)
    case Raised(e, s1) => Raised(e, s1)
    case Done(data, s1) =>
      if data == "" then Raised(CloseConnection(EmptyData), s1)
      else
        var s2 := s1.(buffer := s1.buffer + data);
        assert Stream(s2) == Stream(s) by {
          assert s.buffer + (data + Flatten(s1.inbound)) == (s.buffer + data) + Flatten(s1.inbound);
        }
        if !HasFrame(s2.buffer) then
          if |data| < n then ReceiveLoop(s2, n)
          else Raised(CloseConnection(ReceivedTooLong), Send(s2, SyntaxError))
        else
          var i := FindTerminator(s2.buffer);
          var s3 := s2.(buffer := s2.buffer[i + 2..]);
          FindIgnoresExtension(s2.buffer, Flatten(s2.inbound));
          Done(s2.buffer[..i], s3)
  }

  /** extract_message(connection, robot, kind). A message already in the
      buffer is checked against the kind's limit; otherwise the socket is
      read until a terminator arrives. */
  function ExtractMessage(s: Session, kind: Kind): (r: Res<string>)
    ensures Keeps(s, r.s)
    ensures r.Done? ==> ReadsFrame(s, r.value, r.s)
    ensures r.Raised? ==> FramingFailure(s, r.exc, r.s)
    ensures HasFrame(s.buffer) ==> r.s.inbound == s.inbound
    ensures HasFrame(s.buffer) ==> (r.Done? <==> |Head(s.buffer)| <= MaxLen(kind))
    ensures HasFrame(s.buffer) && |Head(s.buffer)| > MaxLen(kind) ==>
      r == Raised(CloseConnection(BufferedTooLong), Send(s.(buffer := Tail(s.buffer)), SyntaxError))
  {
    if HasFrame(s.buffer) then
      var i := FindTerminator(s.buffer);
      var m := s.buffer[..i];
      var s1 := s.(buffer := s.buffer[i + 2..]);
      FindIgnoresExtension(s.buffer, Flatten(s.inbound));
      if |m| > MaxLen(kind) then Raised(CloseConnection(BufferedTooLong), Send(s1, SyntaxError))
      else Done(m, s1)
    else
      ReceiveLoop(s, MaxLen(kind))
  }

  /** A client that hangs up while no message is buffered: the read that
      gets its empty chunk closes the connection, with nothing sent and
      the chunk consumed, whatever the kind. */
  lemma EmptyChunkCloses(s: Session, kind: Kind)
    requires !HasFrame(s.buffer) && s.inbound != [] && s.inbound[0] == ""
    ensures ExtractMessage(s, kind) == Raised(CloseConnection(EmptyData), Rest(s))
    ensures ReceiveLoop(s, MaxLen(kind)) == ExtractMessage(s, kind)
  {
  }

  /** One chunk that carries exactly one message and its terminator. */
  predicate WholeChunk(c: string) {
    HasFrame(c) && Tail(c) == ""
  }

  /** The client sends every message in a chunk of its own, and nothing is
      left over in the buffer: each read starts on a chunk boundary. Under
      this delivery every read is decided by the next chunk alone. */
  predicate Chunked(s: Session) {
    s.buffer == "" && forall i :: 0 <= i < |s.inbound| ==> WholeChunk(s.inbound[i])
  }

  /** s without its next chunk. */
  function Rest(s: Session): Session
    requires s.inbound != []
  {
    s.(inbound := s.inbound[1..])
  }

  /** Under chunked delivery the stream is the next chunk's message, its
      terminator, and the stream of the remaining chunks; it holds a message
      exactly when a chunk is left. */
  lemma ChunkedStream(s: Session)
    requires Chunked(s)
    ensures HasFrame(Stream(s)) <==> s.inbound != []
    ensures s.inbound != [] ==>
      && Chunked(Rest(s))
      && Head(Stream(s)) == Head(s.inbound[0])
      && Tail(Stream(s)) == Stream(Rest(s))
  {
    if s.inbound == [] {
      assert Stream(s) == "";
      assert FindTerminator("") == -1;
    } else {
      var c := s.inbound[0];
      FrameSplit(c);
      assert c == Head(c) + TERMINATOR;
      assert Flatten(s.inbound) == c + Flatten(s.inbound[1..]);
      assert Stream(s) == Head(c) + TERMINATOR + Stream(Rest(s));
      FrameRoundTrip(Head(c), Stream(Rest(s)));
      assert forall i :: 0 <= i < |Rest(s).inbound| ==> Rest(s).inbound[i] == s.inbound[i + 1];
    }
  }

  /** A prefix of a terminator-free message followed by at most the first
      terminator byte holds no terminator. */
  lemma CutHoldsNoTerminator(m: string, n: nat)
    requires !HasFrame(m) && n <= |m| + 1
    ensures !HasFrame((m + TERMINATOR)[..n])
  {
    var c := (m + TERMINATOR)[..n];
    forall j | 0 <= j ensures !TerminatorAt(c, j) {
      if j + 1 < |c| && j + 1 < |m| {
        NoFrameMeansNoTerminator(m, j);
        assert c[j] == m[j] && c[j + 1] == m[j + 1];
      } else if j + 1 < |c| {
        assert c[j + 1] == BEL;
      }
    }
  }

  /** Under chunked delivery a read of kind k times out when no chunk is
      left, takes the next chunk's message whole when it fits the read, and
      otherwise refuses it with SYNTAX ERROR. */
  lemma ChunkedRead(s: Session, k: Kind)
    requires Chunked(s)
    ensures s.inbound == [] ==> ExtractMessage(s, k) == Raised(SocketTimeout, s)
    ensures s.inbound != [] && Fits(Head(s.inbound[0]), k) ==>
      ExtractMessage(s, k) == Done(Head(s.inbound[0]), Rest(s))
    ensures s.inbound != [] && !Fits(Head(s.inbound[0]), k) ==>
      && ExtractMessage(s, k).Raised?
      && ExtractMessage(s, k).exc == CloseConnection(ReceivedTooLong)
      && ExtractMessage(s, k).s.sent == s.sent + [SyntaxError]
  {
    assert FindTerminator("") == -1;
    if s.inbound != [] {
      assert WholeChunk(s.inbound[0]);
      if Fits(Head(s.inbound[0]), k) {
        ChunkTakenWhole(s, k);
      } else {
        ChunkRefused(s, k);
      }
    }
  }

  /** A whole chunk whose message fits the read is taken in one piece. */
  lemma ChunkTakenWhole(s: Session, k: Kind)
    requires s.buffer == "" && s.inbound != [] && WholeChunk(s.inbound[0])
    requires Fits(Head(s.inbound[0]), k)
    ensures ExtractMessage(s, k) == Done(Head(s.inbound[0]), Rest(s))
  {
    var c := s.inbound[0];
    FrameSplit(c);
    assert c == Head(c) + TERMINATOR;
    assert "" + c == c;
  }

  /** A whole chunk whose message does not fit the read is cut at the
      read's size before its terminator, and refused. */
  lemma ChunkRefused(s: Session, k: Kind)
    requires s.buffer == "" && s.inbound != [] && WholeChunk(s.inbound[0])
    requires !Fits(Head(s.inbound[0]), k)
    ensures ExtractMessage(s, k).Raised?
    ensures ExtractMessage(s, k).exc == CloseConnection(ReceivedTooLong)
    ensures ExtractMessage(s, k).s.sent == s.sent + [SyntaxError]
  {
    var c, n := s.inbound[0], MaxLen(k);
    var m := Head(c);
    FrameSplit(c);
    assert c == m + TERMINATOR;
    CutHoldsNoTerminator(m, n);
    assert "" + c[..n] == c[..n];
  }

  /** Each message read consumes at least its terminator. */
  lemma ReadShrinksStream(s: Session, m: string, t: Session)
    requires ReadsFrame(s, m, t)
    ensures |Stream(t)| + |m| + 2 == |Stream(s)|
  {
    FrameSplit(Stream(s));
  }

  /** A chunk shorter than the limit that completes no message: the loop
      appends it to the buffer and reads on. */
  lemma ShortChunkKeepsReading(s: Session, n: nat)
    requires n > 0 && !HasFrame(s.buffer) && s.inbound != []
    requires 0 < |s.inbound[0]| < n && !HasFrame(s.buffer + s.inbound[0])
    ensures ReceiveLoop(s, n) == ReceiveLoop(s.(buffer := s.buffer + s.inbound[0], inbound := s.inbound[1..]), n)
  {
  }

  /** A chunk of the full size that completes no message is a syntax error. */
  lemma FullChunkIsRefused(s: Session, n: nat)
    requires n > 0 && !HasFrame(s.buffer) && s.inbound != []
    requires |s.inbound[0]| >= n && !HasFrame(s.buffer + s.inbound[0][..n])
    ensures ReceiveLoop(s, n).Raised?
    ensures ReceiveLoop(s, n).exc == CloseConnection(ReceivedTooLong)
    ensures ReceiveLoop(s, n).s.sent == s.sent + [SyntaxError]
  {
    var c := s.inbound[0];
    if |c| == n {
      assert c[..n] == c;
    }
  }

  /** A chunk that completes a message ends the loop with the text before
      the terminator, however long that text is. */
  lemma CompletingChunkEndsLoop(s: Session, n: nat)
    requires n > 0 && !HasFrame(s.buffer) && s.inbound != []
    requires 0 < |s.inbound[0]| <= n && HasFrame(s.buffer + s.inbound[0])
    ensures ReceiveLoop(s, n).Done?
    ensures ReceiveLoop(s, n).value == Head(s.buffer + s.inbound[0])
  {
  }

  /** A message that reaches the server in short chunks is accepted at any
      length: an 8-digit confirmation, over the limit of 7, split 6 + 4. */
  lemma ReceivedMessageIsNotLengthChecked(s: Session)
    requires s.buffer == "" && s.inbound == ["123456", "78" + TERMINATOR]
    ensures ExtractMessage(s, Confirm) == Done("12345678", s.(inbound := []))
  {
    assert Numerals.IsDigits("123456");
    assert Numerals.IsDigits("12345678");
    DigitsHoldNoTerminator("");
    DigitsHoldNoTerminator("123456");
    DigitsHoldNoTerminator("12345678");
    assert "" + "123456" == "123456";
    ShortChunkKeepsReading(s, 7);
    var s2 := s.(buffer := "123456", inbound := ["78" + TERMINATOR]);
    assert s.inbound[1..] == s2.inbound;
    var b := "123456" + ("78" + TERMINATOR);
    assert b == "12345678" + TERMINATOR + "";
    FrameRoundTrip("12345678", "");
    CompletingChunkEndsLoop(s2, 7);
    assert s2.inbound[1..] == [];
  }

  /** The same message found already in the buffer is refused with a
      syntax error. */
  lemma BufferedMessageIsLengthChecked()
    ensures ExtractMessage(Session("12345678" + TERMINATOR, [], TIMEOUT, [], 0, Geometry.Zero, Geometry.Zero), Confirm)
         == Raised(CloseConnection(BufferedTooLong), Session("", [], TIMEOUT, [SyntaxError], 0, Geometry.Zero, Geometry.Zero))
  {
    var b := "12345678" + TERMINATOR;
    assert TerminatorAt(b, 8);
    assert FindTerminator(b) == 8 by {
      forall j | 0 <= j < 8 ensures !TerminatorAt(b, j) {
        assert b[j] != BEL;
      }
    }
    assert b[10..] == "";
  }
}
