/** The robot's replies: the OK-coordinate and confirmation parsers, and
    the recharge interrupt that may stand in for any awaited reply. */
module Replies {
  import opened Numerals
  import opened Protocol
  import opened Geometry
  import opened State
  import opened Framer

  /** The part of m that an anchored `^...$` pattern must match: Python's
      `$` also matches just before one final newline. */
  function RegexBody(m: string): string {
    if |m| > 0 && m[|m| - 1] == '\n' then m[..|m| - 1] else m
  }

  /** A text ending in a digit is its own regex body. */
  lemma RegexBodyOfDigitEnd(t: string)
    requires |t| > 0 && IsDigit(t[|t| - 1])
    ensures RegexBody(t) == t
  {
  }

  /** The pattern `\d{1,5}` of a confirmation. */
  predicate IsConfirmation(t: string) {
    1 <= |t| <= 5 && IsDigits(t)
  }

  lemma {:induction false} DigitsValueBound(t: string)
    requires IsDigits(t)
    ensures DigitsValue(t) < Pow10(|t|)
  {
    if t != [] {
      DigitsValueBound(t[..|t| - 1]);
    }
  }

  /** The `^\d{1,5}$` check of check_confirmation_message and the int() of
      the accepted text. */
  function ParseConfirmation(m: string): (r: Option<nat>)
    ensures r.Some? ==> r.value < 100000
  {
    var t := RegexBody(m);
    if IsConfirmation(t) then
      DigitsValueBound(t);
      assert Pow10(|t|) <= Pow10(5) by {
        assert Pow10(5) == 100000;
        assert |t| == 1 || |t| == 2 || |t| == 3 || |t| == 4 || |t| == 5;
      }
      Some(DigitsValue(t))
    else None
  }

  /** A robot's confirmation written as str() of any code below 100000 is
      accepted and read back as that code. */
  lemma ConfirmationRoundTrip(code: nat)
    requires code < 100000
    ensures ParseConfirmation(Decimal(code)) == Some(code)
  {
    assert Pow10(5) == 100000;
    DecimalWidth(code, 5);
    DecimalRoundTrip(code);
    RegexBodyOfDigitEnd(Decimal(code));
  }

  /** (n - CLIENT_KEY) mod 65536: the login hash a confirmation stands for. */
  function ClientValue(n: int): (v: nat)
    ensures v < MODULUS
  {
    (n - CLIENT_KEY) % MODULUS
  }

  /** A robot that answers (hash + CLIENT_KEY) mod 65536 is matched to its
      hash, and its answer always fits the 5-digit confirmation pattern. */
  lemma HonestConfirmationMatches(hash: nat)
    requires hash < MODULUS
    ensures ClientValue((hash + CLIENT_KEY) % MODULUS) == hash
    ensures ParseConfirmation(Decimal((hash + CLIENT_KEY) % MODULUS)) == Some((hash + CLIENT_KEY) % MODULUS)
  {
    ConfirmationRoundTrip((hash + CLIENT_KEY) % MODULUS);
  }

  /** The index of the first blank of t, or |t|. */
  function FirstBlank(t: string): (i: nat)
    ensures i <= |t|
    ensures i < |t| ==> t[i] == ' '
    ensures forall j :: 0 <= j < i ==> t[j] != ' '
  {
    if t == [] || t[0] == ' ' then 0 else 1 + FirstBlank(t[1..])
  }

  /** The text `OK <a> <b>` of an OK reply, each of a and b matching `-?\d+`. */
  predicate OkGrammar(t: string, a: string, b: string) {
    t == "OK " + a + " " + b && IsSignedInt(a) && IsSignedInt(b)
  }

  /** check_ok_message's test: at most 10 characters matching
      `^OK -?\d+ -?\d+$`, giving the two integers. */
  function ParseOk(m: string): (r: Option<Vec>)
    ensures r.Some? ==> |m| <= 10
  {
    var t := RegexBody(m);
    if |m| > 10 || |t| < 3 || t[..3] != "OK " then None
    else
      var rest := t[3..];
      var i := FirstBlank(rest);
      if i == |rest| then None
      else
        var a := rest[..i];
        var b := rest[i + 1..];
        if IsSignedInt(a) && IsSignedInt(b) then Some(Vec(SignedValue(a), SignedValue(b))) else None
  }

  /** Everything ParseOk accepts follows the grammar, with the integers it
      returns. */
  lemma ParseOkIsSound(m: string)
    requires ParseOk(m).Some?
    ensures exists a, b :: OkGrammar(RegexBody(m), a, b) && ParseOk(m).value == Vec(SignedValue(a), SignedValue(b))
  {
    var t := RegexBody(m);
    var rest := t[3..];
    var i := FirstBlank(rest);
    var a := rest[..i];
    var b := rest[i + 1..];
    assert t == "OK " + a + " " + b;
    assert OkGrammar(t, a, b);
  }

  /** Everything of at most 10 characters that follows the grammar is
      accepted, with its two integers. */
  lemma ParseOkIsComplete(m: string, a: string, b: string)
    requires |m| <= 10 && OkGrammar(RegexBody(m), a, b)
    ensures ParseOk(m) == Some(Vec(SignedValue(a), SignedValue(b)))
  {
    var t := RegexBody(m);
    var rest := t[3..];
    assert rest == a + " " + b;
    SignedIntHasNoBlank(a);
    assert FirstBlank(rest) == |a| by {
      assert forall j :: 0 <= j < |a| ==> rest[j] == a[j];
      assert rest[|a|] == ' ';
    }
    assert rest[..|a|] == a;
    assert rest[|a| + 1..] == b;
  }

  /** The reply `OK x y` a robot writes for its position. */
  function FormatOk(v: Vec): string {
    "OK " + SignedDecimal(v.x) + " " + SignedDecimal(v.y)
  }

  /** A position written by the robot is read back unchanged exactly when
      the reply fits the 10-character limit; with a final newline, which
      Python's `$` lets through, the reply itself must fit in 9. */
  lemma OkReplyRoundTrip(v: Vec)
    ensures |FormatOk(v)| <= 10 ==> ParseOk(FormatOk(v)) == Some(v)
    ensures |FormatOk(v)| <= 9 ==> ParseOk(FormatOk(v) + "\n") == Some(v)
    ensures |FormatOk(v)| > 10 ==> ParseOk(FormatOk(v)) == None
    ensures |FormatOk(v)| > 9 ==> ParseOk(FormatOk(v) + "\n") == None
  {
    var a := SignedDecimal(v.x);
    var b := SignedDecimal(v.y);
    var t := FormatOk(v);
    SignedRoundTrip(v.x);
    SignedRoundTrip(v.y);
    assert t[|t| - 1] == b[|b| - 1];
    assert b[|b| - 1] != '\n';
    assert RegexBody(t) == t;
    assert RegexBody(t + "\n") == t;
    if |t| <= 10 {
      ParseOkIsComplete(t, a, b);
    }
    if |t| <= 9 {
      ParseOkIsComplete(t + "\n", a, b);
    }
  }

  /** The literal interrupt messages are single frames. */
  lemma LiteralsHoldNoTerminator()
    ensures !HasFrame(RECHARGING) && !HasFrame(FULL_POWER) && !HasFrame("")
  {
    forall j | 0 <= j ensures !TerminatorAt(RECHARGING, j) && !TerminatorAt(FULL_POWER, j) {
      assert j < |RECHARGING| ==> RECHARGING[j] != BEL;
      assert j < |FULL_POWER| ==> FULL_POWER[j] != BEL;
    }
    assert FindTerminator("") == -1;
  }

  /** The robot's effective reply at the head of the stream t, with the
      stream left after it: the first message, or, when that is RECHARGING,
      the message after the FULL POWER that must follow it. None when t
      does not hold that many messages or FULL POWER is missing. */
  function Absorbed(t: string): Option<(string, string)> {
    if !HasFrame(t) then None
    else if Head(t) != RECHARGING then Some((Head(t), Tail(t)))
    else
      var t1 := Tail(t);
      if !HasFrame(t1) || Head(t1) != FULL_POWER then None
      else
        var t2 := Tail(t1);
        if !HasFrame(t2) then None else Some((Head(t2), Tail(t2)))
  }

  /** The position reported by the robot's effective OK reply at the head
      of t, with the stream left after it. */
  function OkReport(t: string): Option<(Vec, string)> {
    match Absorbed(t)
    case None => None
    case Some((m, rest)) =>
      match ParseOk(m)
      case None => None
      case Some(v) => Some((v, rest))
  }

  /** Under chunked delivery, the reads of the effective reply at the head
      of t take each message whole: the first message fits a read of kind
      first, and a reply after a recharge fits the re-read of kind again. */
  predicate ReadsWhole(t: string, first: Kind, again: Kind) {
    && Absorbed(t).Some? && Fits(Head(t), first)
    && (Head(t) == RECHARGING ==> Fits(Absorbed(t).value.0, again))
  }

  /** How a reply can fail beyond framing: a recharge not followed by
      FULL POWER is a logic error. */
  predicate RechargeFailure(s: Session, e: Exc, t: Session) {
    (FramingExc(e) || e == CloseConnection(NotFullPower)) && t.sent == s.sent + Notice(e)
  }

  /** handle_recharging: raise the read timeout, require the exact text
      FULL POWER, then restore the timeout. Whatever else the robot sends
      is a logic error. */
  function HandleRecharging(s: Session): (r: Res<()>)
    ensures SameRobot(s, r.s)
    ensures r.Done? ==> ReadsFrame(s, FULL_POWER, r.s) && r.s.timeout == TIMEOUT
    ensures r.Raised? ==> r.s.timeout == TIMEOUT_RECHARGING && RechargeFailure(s, r.exc, r.s)
    ensures var e := ExtractMessage(s.(timeout := TIMEOUT_RECHARGING), FullPower);
      && (e.Raised? ==> r == Raised(e.exc, e.s))
      && (e.Done? ==> (r.Done? <==> e.value == FULL_POWER))
      && (e.Done? && e.value != FULL_POWER ==> r == Raised(CloseConnection(NotFullPower), Send(e.s, LogicError)))
    ensures Chunked(s) ==> (r.Done? <==> HasFrame(Stream(s)) && Head(Stream(s)) == FULL_POWER)
    ensures Chunked(s) && r.Done? ==> Chunked(r.s)
  {
    var s1 := s.(timeout := TIMEOUT_RECHARGING);
    var e := ExtractMessage(s1, FullPower);
    assert Chunked(s) ==>
      && (e.Done? <==> HasFrame(Stream(s)) && Fits(Head(Stream(s)), FullPower))
      && (e.Done? ==> e.value == Head(Stream(s)) && Chunked(e.s))
    by {
      if Chunked(s) {
        assert Chunked(s1) && Stream(s1) == Stream(s);
        ChunkedRead(s1, FullPower);
        ChunkedStream(s1);
      }
    }
    match e
    case Raised(x, s2) => Raised(x, s2)
    case Done(m, s2) =>
      if m != FULL_POWER then Raised(CloseConnection(NotFullPower), Send(s2, LogicError))
      else Done((), s2.(timeout := TIMEOUT))
  }

  /** The opening lines of check_ok_message, check_confirmation_message and
      send_pick_up: a message m just read that is RECHARGING is replaced,
      after the recharge, by a fresh message of the given kind. Under
      chunked delivery this succeeds exactly when the stream holds the
      effective reply and a reply after a recharge fits the re-read. */
  function AbsorbRecharge(s: Session, m: string, kind: Kind): (r: Res<string>)
    ensures SameRobot(s, r.s)
    ensures m != RECHARGING ==> r == Done(m, s)
    ensures r.Done? ==> r.s.sent == s.sent
    ensures r.Done? && !HasFrame(m) ==> Absorbed(m + TERMINATOR + Stream(s)) == Some((r.value, Stream(r.s)))
    ensures r.Done? && m == RECHARGING ==> r.s.timeout == TIMEOUT
    ensures r.Raised? ==> RechargeFailure(s, r.exc, r.s)
    ensures Chunked(s) && !HasFrame(m) ==> var a := Absorbed(m + TERMINATOR + Stream(s));
      && (r.Done? <==> a.Some? && (m == RECHARGING ==> Fits(a.value.0, kind)))
      && (r.Done? ==> Chunked(r.s))
  {
    AbsorbedFirst(m, Stream(s));
    if m != RECHARGING then Done(m, s)
    else
      match HandleRecharging(s)
      case Raised(x, s1) => Raised(x, s1)
      case Done(_, s1) =>
        var e := ExtractMessage(s1, kind);
        AbsorbAfterRecharge(s, s1, e, kind);
        e
  }

  /** The effective reply of a stream that starts with the message m: m
      itself, or for RECHARGING the message after a FULL POWER. */
  lemma AbsorbedFirst(m: string, t: string)
    ensures !HasFrame(m) && m != RECHARGING ==> Absorbed(m + TERMINATOR + t) == Some((m, t))
    ensures m == RECHARGING ==>
      Absorbed(m + TERMINATOR + t) ==
        if !HasFrame(t) || Head(t) != FULL_POWER || !HasFrame(Tail(t)) then None
        else Some((Head(Tail(t)), Tail(Tail(t))))
  {
    LiteralsHoldNoTerminator();
    if !HasFrame(m) {
      FrameRoundTrip(m, t);
    }
  }

  /** The effective reply after a recharge that went through: the message
      read next, per Absorbed. */
  lemma AbsorbAfterRecharge(s: Session, s1: Session, e: Res<string>, kind: Kind)
    requires HandleRecharging(s) == Done((), s1) && e == ExtractMessage(s1, kind)
    ensures e.Done? ==> Absorbed(RECHARGING + TERMINATOR + Stream(s)) == Some((e.value, Stream(e.s)))
    ensures Chunked(s) ==> var a := Absorbed(RECHARGING + TERMINATOR + Stream(s));
      && (e.Done? <==> a.Some? && Fits(a.value.0, kind))
      && (e.Done? ==> Chunked(e.s))
  {
    AbsorbedFirst(RECHARGING, Stream(s));
    assert HasFrame(Stream(s)) && Head(Stream(s)) == FULL_POWER && Stream(s1) == Tail(Stream(s));
    if Chunked(s) {
      ChunkedRead(s1, kind);
      ChunkedStream(s1);
    }
  }

  /** The failures of awaiting an OK reply. */
  predicate OkFailure(s: Session, e: Exc, t: Session) {
    (FramingExc(e) || e == CloseConnection(NotFullPower) || e == CloseConnection(BadOkReply))
    && t.sent == s.sent + Notice(e)
  }

  /** The failures of checking a confirmation. */
  predicate ConfirmationFailure(s: Session, e: Exc, t: Session) {
    (FramingExc(e) || e == CloseConnection(NotFullPower) || e == CloseConnection(BadConfirmation))
    && t.sent == s.sent + Notice(e)
  }

  /** check_ok_message: the reply, after absorbing a recharge, must parse
      as `OK x y`; otherwise a syntax error closes the connection. */
  method CheckOk(s: Session, m: string) returns (r: Res<Vec>)
    requires !HasFrame(m)
    ensures SameRobot(s, r.s)
    ensures r.Done? ==> var a := Absorbed(m + TERMINATOR + Stream(s));
      a.Some? && ParseOk(a.value.0) == Some(r.value) && a.value.1 == Stream(r.s) && r.s.sent == s.sent
    ensures r.Done? && s.timeout == TIMEOUT ==> r.s.timeout == TIMEOUT
    ensures r.Raised? ==> OkFailure(s, r.exc, r.s)
    ensures var a := AbsorbRecharge(s, m, OkReply);
      && (a.Raised? ==> r == Raised(a.exc, a.s))
      && (a.Done? ==> (r.Done? <==> ParseOk(a.value).Some?))
      && (a.Done? && ParseOk(a.value).Some? ==> r == Done(ParseOk(a.value).value, a.s))
      && (a.Done? && ParseOk(a.value).None? ==> r == Raised(CloseConnection(BadOkReply), Send(a.s, SyntaxError)))
    ensures m != RECHARGING ==>
      && (r.Done? <==> ParseOk(m).Some?)
      && (r.Raised? ==> r == Raised(CloseConnection(BadOkReply), Send(s, SyntaxError)))
  {
    var reply :- AbsorbRecharge(s, m, OkReply);
    var (t, s1) := reply;
    match ParseOk(t)
    case None => r := Raised(CloseConnection(BadOkReply), Send(s1, SyntaxError));
    case Some(v) => r := Done(v, s1);
  }

  /** check_confirmation_message: the reply, after absorbing a recharge
      (re-read with the CONFIRM limit), must be 1 to 5 digits; the result
      is the hash it stands for. Anything else is a syntax error. */
  method CheckConfirmation(s: Session, m: string) returns (r: Res<nat>)
    requires !HasFrame(m)
    ensures SameRobot(s, r.s)
    ensures r.Done? ==> r.value < MODULUS
    ensures r.Done? ==> var a := Absorbed(m + TERMINATOR + Stream(s));
      && a.Some? && a.value.1 == Stream(r.s) && r.s.sent == s.sent
      && ParseConfirmation(a.value.0).Some?
      && r.value == ClientValue(ParseConfirmation(a.value.0).value)
    ensures r.Done? && s.timeout == TIMEOUT ==> r.s.timeout == TIMEOUT
    ensures r.Raised? ==> ConfirmationFailure(s, r.exc, r.s)
    ensures var a := AbsorbRecharge(s, m, Confirm);
      && (a.Raised? ==> r == Raised(a.exc, a.s))
      && (a.Done? ==> (r.Done? <==> ParseConfirmation(a.value).Some?))
      && (a.Done? && ParseConfirmation(a.value).Some? ==> r == Done(ClientValue(ParseConfirmation(a.value).value), a.s))
      && (a.Done? && ParseConfirmation(a.value).None? ==> r == Raised(CloseConnection(BadConfirmation), Send(a.s, SyntaxError)))
    ensures m != RECHARGING ==>
      && (r.Done? <==> ParseConfirmation(m).Some?)
      && (r.Raised? ==> r == Raised(CloseConnection(BadConfirmation), Send(s, SyntaxError)))
  {
    var reply :- AbsorbRecharge(s, m, Confirm);
    var (t, s1) := reply;
    match ParseConfirmation(t)
    case None => r := Raised(CloseConnection(BadConfirmation), Send(s1, SyntaxError));
    case Some(n) => r := Done(ClientValue(n), s1);
  }

  /** The first message of a chunked stream is the one the next chunk
      carries, and the rest of the stream is that of the remaining chunks. */
  lemma ChunkedSplit(s: Session)
    requires Chunked(s) && s.inbound != []
    ensures Stream(s) == Head(s.inbound[0]) + TERMINATOR + Stream(Rest(s))
    ensures !HasFrame(Head(s.inbound[0]))
  {
    ChunkedStream(s);
    FrameSplit(Stream(s));
  }

  /** Under chunked delivery, reading a reply with a read of kind first
      and absorbing a recharge with a re-read of kind again goes through
      exactly when the stream holds the effective reply and its reads are
      whole; the reply is then the stream's effective reply. */
  lemma ReplyReadChunked(s: Session, first: Kind, again: Kind)
    requires Chunked(s)
    ensures var e := ExtractMessage(s, first);
      && (e.Raised? ==> !ReadsWhole(Stream(s), first, again))
      && (e.Done? ==> var a := AbsorbRecharge(e.s, e.value, again);
           && Chunked(e.s) && !HasFrame(e.value) && Stream(s) == e.value + TERMINATOR + Stream(e.s)
           && (a.Done? <==> ReadsWhole(Stream(s), first, again))
           && (a.Done? ==> a.value == Absorbed(Stream(s)).value.0 && Chunked(a.s)))
  {
    ChunkedRead(s, first);
    ChunkedStream(s);
    if s.inbound != [] {
      ChunkedSplit(s);
      var m, s1 := Head(s.inbound[0]), Rest(s);
      FrameRoundTrip(m, Stream(s1));
      if Fits(m, first) {
        AbsorbReadsWhole(s1, m, first, again);
      }
    }
  }

  /** After a first message m that was read whole, absorbing a recharge
      goes through exactly when the rest of the effective reply is read
      whole too. */
  lemma AbsorbReadsWhole(s: Session, m: string, first: Kind, again: Kind)
    requires Chunked(s) && !HasFrame(m) && Fits(m, first)
    ensures var a, t := AbsorbRecharge(s, m, again), m + TERMINATOR + Stream(s);
      && (a.Done? <==> ReadsWhole(t, first, again))
      && (a.Done? ==> a.value == Absorbed(t).value.0 && Chunked(a.s))
  {
    FrameRoundTrip(m, Stream(s));
  }

  /** Under chunked delivery, the read of an OK reply and the recharge it
      may absorb go through with a reply that parses exactly when the
      stream reports a position. */
  lemma OkReadChunked(s: Session)
    requires Chunked(s)
    ensures var e := ExtractMessage(s, OkReply);
      && (e.Raised? ==> OkReport(Stream(s)).None?)
      && (e.Done? ==> var a := AbsorbRecharge(e.s, e.value, OkReply);
           && Chunked(e.s) && !HasFrame(e.value) && Stream(s) == e.value + TERMINATOR + Stream(e.s)
           && (a.Done? && ParseOk(a.value).Some? <==> OkReport(Stream(s)).Some?)
           && (a.Done? ==> Chunked(a.s)))
  {
    ReplyReadChunked(s, OkReply, OkReply);
    OkReportReadsWhole(Stream(s));
  }

  /** A stream that reports a position has its OK reply read whole: a
      reply that parses is at most 10 characters long. */
  lemma OkReportReadsWhole(t: string)
    ensures OkReport(t).Some? ==> ReadsWhole(t, OkReply, OkReply)
  {
    if OkReport(t).Some? {
      LiteralsHoldNoTerminator();
      FrameSplit(t);
      AbsorbedFirst(Head(t), Tail(t));
      assert Fits(Absorbed(t).value.0, OkReply);
    }
  }

  /** extract_message(..., "OK") followed by check_ok_message: the next
      coordinates the robot reports. Under chunked delivery the read
      succeeds exactly when the stream reports a position. */
  method AwaitOk(s: Session) returns (r: Res<Vec>)
    ensures SameRobot(s, r.s)
    ensures r.Done? ==> OkReport(Stream(s)) == Some((r.value, Stream(r.s))) && r.s.sent == s.sent
    ensures r.Done? ==> |Stream(r.s)| < |Stream(s)|
    ensures r.Done? && s.timeout == TIMEOUT ==> r.s.timeout == TIMEOUT
    ensures r.Raised? ==> OkFailure(s, r.exc, r.s)
    ensures Grows(s, r.s)
    ensures Chunked(s) ==> (r.Done? <==> OkReport(Stream(s)).Some?)
    ensures Chunked(s) && r.Done? ==> Chunked(r.s)
  {
    var read := ExtractMessage(s, OkReply);
    if Chunked(s) {
      OkReadChunked(s);
    }
    if read.Raised? {
      GrowsBy(s, read.s, Notice(read.exc));
      return Raised(read.exc, read.s);
    }
    var m, s1 := read.value, read.s;
    FrameSplit(Stream(s));
    r := CheckOk(s1, m);
    if r.Done? {
      AbsorbedShrinks(Stream(s));
      GrowsBy(s, r.s, []);
    } else {
      GrowsBy(s, r.s, Notice(r.exc));
    }
  }

  /** The effective reply and what is left after it are strictly shorter
      than the stream they came from. */
  lemma AbsorbedShrinks(t: string)
    requires Absorbed(t).Some?
    ensures |Absorbed(t).value.1| < |t|
  {
  }

  /** A RECHARGING message followed by FULL POWER is invisible: the caller
      sees only the reply that comes after them. */
  lemma RechargeIsTransparent(reply: string, rest: string)
    requires !HasFrame(reply)
    ensures Absorbed(RECHARGING + TERMINATOR + FULL_POWER + TERMINATOR + reply + TERMINATOR + rest)
         == Some((reply, rest))
  {
    LiteralsHoldNoTerminator();
    var t2 := reply + TERMINATOR + rest;
    var t1 := FULL_POWER + TERMINATOR + t2;
    var t := RECHARGING + TERMINATOR + t1;
    assert t == RECHARGING + TERMINATOR + FULL_POWER + TERMINATOR + reply + TERMINATOR + rest;
    FrameRoundTrip(RECHARGING, t1);
    FrameRoundTrip(FULL_POWER, t2);
    FrameRoundTrip(reply, rest);
  }
}
