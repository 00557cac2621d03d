/** authorize: the login handshake. The robot names itself, the server
    answers with a challenge derived from the name's hash, and the robot
    must confirm with a code that stands for the same hash. */
module Auth {
  import opened Numerals
  import opened Protocol
  import opened Geometry
  import opened State
  import opened Framer
  import opened Replies

  /** The sum of the character codes of a name: `sum(bytearray(name, "ascii"))`. */
  function CodeSum(name: string): nat {
    if name == [] then 0 else CodeSum(name[..|name| - 1]) + name[|name| - 1] as nat
  }

  /** The login hash: the code sum times 1000, modulo 65536. */
  function LoginHash(name: string): (h: nat)
    ensures h < MODULUS
  {
    (CodeSum(name) * 1000) % MODULUS
  }

  /** The challenge the server sends for a hash: the hash plus the server
      key, modulo 65536. */
  function ChallengeCode(h: nat): (c: nat)
    ensures c < MODULUS
  {
    (h + SERVER_KEY) % MODULUS
  }

  /** One more character adds its code times 1000 to the hash, modulo 65536:
      the hash can be computed as the name arrives. */
  lemma LoginHashAppend(name: string, c: char)
    ensures LoginHash(name + [c]) == (LoginHash(name) + (c as nat) * 1000) % MODULUS
  {
    assert (name + [c])[..|name|] == name;
    var k, d := CodeSum(name) * 1000, (c as nat) * 1000;
    assert CodeSum(name + [c]) * 1000 == k + d;
    var q := k / MODULUS;
    assert k + d == q * MODULUS + (k % MODULUS + d);
  }

  /** The robot recovers the hash from the challenge by subtracting the
      server key: the challenge loses nothing. */
  lemma ChallengeIsInvertible(h: nat)
    requires h < MODULUS
    ensures (ChallengeCode(h) - SERVER_KEY) % MODULUS == h
  {
  }

  /** A confirmation code n stands for the hash h exactly when n is
      h + CLIENT_KEY modulo 65536. */
  lemma ConfirmationStandsFor(n: int, h: nat)
    requires h < MODULUS
    ensures ClientValue(n) == h <==> n % MODULUS == (h + CLIENT_KEY) % MODULUS
  {
    var q := (n - CLIENT_KEY) / MODULUS;
    assert n - CLIENT_KEY == q * MODULUS + ClientValue(n);
    if ClientValue(n) == h {
      assert n == (q + 1) * MODULUS + (h + CLIENT_KEY - MODULUS);
    } else {
      assert n % MODULUS == (ClientValue(n) + CLIENT_KEY) % MODULUS;
    }
  }

  /** The hash a robot's confirmation reply stands for, with the stream
      left after it: the effective reply (after a recharge) must be 1 to 5
      digits. */
  function ConfirmationOf(t: string): Option<(nat, string)> {
    match Absorbed(t)
    case None => None
    case Some((m, rest)) =>
      match ParseConfirmation(m)
      case None => None
      case Some(n) => Some((ClientValue(n), rest))
  }

  /** A robot that confirms with (hash + CLIENT_KEY) mod 65536 in decimal
      is recognised as the owner of that hash. */
  lemma HonestRobotConfirms(h: nat, rest: string)
    requires h < MODULUS
    ensures ConfirmationOf(Decimal((h + CLIENT_KEY) % MODULUS) + TERMINATOR + rest) == Some((h, rest))
  {
    var d := Decimal((h + CLIENT_KEY) % MODULUS);
    DigitsHoldNoTerminator(d);
    FrameRoundTrip(d, rest);
    assert d != RECHARGING by {
      assert IsDigit(d[0]);
    }
    HonestConfirmationMatches(h);
  }

  /** Under chunked delivery, the read of a confirmation (12 characters
      at first, 7 after a recharge) and the recharge it may absorb go
      through with a reply of 1 to 5 digits exactly when the stream holds a
      confirmation whose reads are whole; the value is the hash it stands
      for. */
  lemma ConfirmReadChunked(s: Session)
    requires Chunked(s)
    ensures var e := ExtractMessage(s, Recharging);
      && (e.Raised? ==> !ReadsWhole(Stream(s), Recharging, Confirm))
      && (e.Done? ==> var a := AbsorbRecharge(e.s, e.value, Confirm);
           && !HasFrame(e.value) && Stream(s) == e.value + TERMINATOR + Stream(e.s)
           && (a.Done? && ParseConfirmation(a.value).Some? <==>
                 ConfirmationOf(Stream(s)).Some? && ReadsWhole(Stream(s), Recharging, Confirm))
           && (a.Done? && ParseConfirmation(a.value).Some? ==>
                 ClientValue(ParseConfirmation(a.value).value) == ConfirmationOf(Stream(s)).value.0))
  {
    ChunkedRead(s, Recharging);
    ChunkedStream(s);
    if s.inbound != [] {
      ChunkedSplit(s);
      var m, s1 := Head(s.inbound[0]), Rest(s);
      assert Head(Stream(s)) == m;
      if Fits(m, Recharging) {
        var a := AbsorbRecharge(s1, m, Confirm);
        var ab := Absorbed(Stream(s));
        assert a.Done? <==> ab.Some? && (m == RECHARGING ==> Fits(ab.value.0, Confirm));
        assert a.Done? ==> a.value == ab.value.0;
        assert ReadsWhole(Stream(s), Recharging, Confirm) <==> ab.Some? && (m == RECHARGING ==> Fits(ab.value.0, Confirm));
      }
    }
  }

  /** The first half of authorize: read the username (at most 12
      characters when buffered), store its hash and send the challenge. */
  method SendChallenge(s: Session) returns (r: Res<()>)
    ensures r.s.pos == s.pos && r.s.heading == s.heading && r.s.timeout == s.timeout
    ensures r.Done? ==>
      && HasFrame(Stream(s)) && r.s.hash == LoginHash(Head(Stream(s))) && Stream(r.s) == Tail(Stream(s))
      && r.s.sent == s.sent + [Challenge(ChallengeCode(r.s.hash))]
    ensures r.Raised? ==> FramingFailure(s, r.exc, r.s)
    ensures Chunked(s) ==> (r.Done? <==> HasFrame(Stream(s)) && Fits(Head(Stream(s)), Username))
    ensures Chunked(s) && r.Done? ==> Chunked(r.s)
    ensures Chunked(s) && s.inbound == [] ==> r == Raised(SocketTimeout, s)
  {
    var named := ExtractMessage(s, Username);
    if Chunked(s) {
      ChunkedRead(s, Username);
      ChunkedStream(s);
    }
    if named.Raised? {
      return Raised(named.exc, named.s);
    }
    var name, s1 := named.value, named.s;
    var h := LoginHash(name);
    return Done((), Send(s1.(hash := h), Challenge(ChallengeCode(h))));
  }

  /** The second half of authorize: read the confirmation (the first read
      uses the longer RECHARGING limit of 12, a re-read after a recharge
      the CONFIRM limit of 7), and answer OK when it stands for the stored
      hash, LOGIN FAILED otherwise. */
  method CheckLogin(s: Session) returns (r: Res<()>)
    ensures r.s.pos == s.pos && r.s.heading == s.heading && r.s.hash == s.hash
    ensures r.Done? ==> ConfirmationOf(Stream(s)) == Some((s.hash, Stream(r.s))) && r.s.sent == s.sent + [Ok]
    ensures r.Raised? && r.exc == CloseConnection(LoginRejected) ==>
      && ConfirmationOf(Stream(s)).Some? && ConfirmationOf(Stream(s)).value.0 != s.hash
      && r.s.sent == s.sent + [LoginFailed]
    ensures r.Raised? && r.exc != CloseConnection(LoginRejected) ==> ConfirmationFailure(s, r.exc, r.s)
    ensures r.Done? && s.timeout == TIMEOUT ==> r.s.timeout == TIMEOUT
    ensures var e := ExtractMessage(s, Recharging);
      e.Done? && e.value != RECHARGING && ParseConfirmation(e.value).Some? ==>
        && (r.Done? <==> ClientValue(ParseConfirmation(e.value).value) == s.hash)
        && (r.Raised? ==> r == Raised(CloseConnection(LoginRejected), Send(e.s, LoginFailed)))
    ensures Chunked(s) && ConfirmationOf(Stream(s)).Some? && ReadsWhole(Stream(s), Recharging, Confirm) ==>
      && (r.Done? <==> ConfirmationOf(Stream(s)).value.0 == s.hash)
      && (r.Raised? ==> r.exc == CloseConnection(LoginRejected) && r.s.sent == s.sent + [LoginFailed])
    ensures Chunked(s) && r.Done? ==> Chunked(r.s)
  {
    var read := ExtractMessage(s, Recharging);
    if Chunked(s) {
      ConfirmReadChunked(s);
      ChunkedRead(s, Recharging);
      ChunkedStream(s);
    }
    if read.Raised? {
      return Raised(read.exc, read.s);
    }
    var m, s1 := read.value, read.s;
    FrameSplit(Stream(s));
    var checked := CheckConfirmation(s1, m);
    if checked.Raised? {
      return Raised(checked.exc, checked.s);
    }
    if checked.value != s.hash {
      return Raised(CloseConnection(LoginRejected), Send(checked.s, LoginFailed));
    }
    return Done((), Send(checked.s, Ok));
  }

  /** A login the robot delivers one message per chunk, whose confirmation
      (after a recharge, if one comes first) is 1 to 5 digits that the reads
      take whole: the server's decision on it is determined by the stream. */
  predicate CleanLogin(s: Session) {
    && Chunked(s) && HasFrame(Stream(s)) && Fits(Head(Stream(s)), Username)
    && ConfirmationOf(Tail(Stream(s))).Some? && ReadsWhole(Tail(Stream(s)), Recharging, Confirm)
  }

  /** authorize: the challenge, then the check of the confirmation. A
      robot gets OK exactly when its confirmation stands for the hash of
      its username; a failure to read either message closes the
      connection, as does a wrong confirmation after LOGIN FAILED. */
  method Authorize(s: Session) returns (r: Res<()>)
    ensures r.s.pos == s.pos && r.s.heading == s.heading && Grows(s, r.s)
    ensures r.Done? ==>
      && HasFrame(Stream(s)) && r.s.hash == LoginHash(Head(Stream(s)))
      && ConfirmationOf(Tail(Stream(s))) == Some((r.s.hash, Stream(r.s)))
      && r.s.sent == s.sent + [Challenge(ChallengeCode(r.s.hash)), Ok]
    ensures r.Raised? && r.exc == CloseConnection(LoginRejected) ==>
      && HasFrame(Stream(s)) && r.s.hash == LoginHash(Head(Stream(s)))
      && ConfirmationOf(Tail(Stream(s))).Some? && ConfirmationOf(Tail(Stream(s))).value.0 != r.s.hash
      && r.s.sent == s.sent + [Challenge(ChallengeCode(r.s.hash)), LoginFailed]
    ensures r.Done? && s.timeout == TIMEOUT ==> r.s.timeout == TIMEOUT
    ensures r.Raised? ==> Closes(r.exc) && r.exc != CloseConnection(NoMessageFound)
    ensures CleanLogin(s) ==>
      && (r.Done? <==> ConfirmationOf(Tail(Stream(s))).value.0 == LoginHash(Head(Stream(s))))
      && (r.Raised? ==> r.exc == CloseConnection(LoginRejected))
    ensures Chunked(s) && s.inbound == [] ==> r == Raised(SocketTimeout, s)
    ensures Chunked(s) && r.Done? ==> Chunked(r.s)
  {
    var challenged := SendChallenge(s);
    if challenged.Raised? {
      GrowsBy(s, challenged.s, Notice(challenged.exc));
      return Raised(challenged.exc, challenged.s);
    }
    var s1 := challenged.s;
    var c := Challenge(ChallengeCode(s1.hash));
    GrowsBy(s, s1, [c]);
    r := CheckLogin(s1);
    if r.Done? {
      AppendTwo(s.sent, c, Ok);
      GrowsBy(s1, r.s, [Ok]);
    } else if r.exc == CloseConnection(LoginRejected) {
      AppendTwo(s.sent, c, LoginFailed);
      GrowsBy(s1, r.s, [LoginFailed]);
    } else {
      GrowsBy(s1, r.s, Notice(r.exc));
    }
    GrowsTrans(s, s1, r.s);
  }
}
