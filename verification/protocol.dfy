/** The wire protocol shared by the server and the robots: constants, the
    server's commands, the message kinds with their length limits, and the
    framing of messages by the two-byte terminator. */
module Protocol {
  import opened Numerals

  /** Every message, in both directions, ends with the bytes 0x07 0x08. */
  const BEL: char := '\U{7}'
  const BS: char := '\U{8}'
  const TERMINATOR: string := [BEL, BS]

  /** Read timeouts of the socket, in seconds: normal, and during a recharge. */
  const TIMEOUT: nat := 1
  const TIMEOUT_RECHARGING: nat := 5

  /** Authentication keys and the 16-bit modulus of all hash arithmetic. */
  const SERVER_KEY: nat := 54621
  const CLIENT_KEY: nat := 45328
  const MODULUS: nat := 65536

  /** Bounds of the 5x5 goal zone where the secret message is hidden. */
  const ZONE_LEFT: int := -2
  const ZONE_RIGHT: int := 2
  const ZONE_TOP: int := 2
  const ZONE_BOTTOM: int := -2

  /** The two literal client messages of the recharge interrupt. */
  const RECHARGING: string := "RECHARGING"
  const FULL_POWER: string := "FULL POWER"

  /** The kinds of client message the server waits for. */
  datatype Kind = Username | Confirm | OkReply | Recharging | FullPower | Message

  /** The most characters a message of each kind may hold before its terminator. */
  function MaxLen(k: Kind): (n: nat)
    ensures 7 <= n <= 100
  {
    match k
    case Username => 12
    case Confirm => 7
    case OkReply => 12
    case Recharging => 12
    case FullPower => 12
    case Message => 100
  }

  /** A message of m's length and its terminator fit one read of kind k,
      which asks the socket for at most MaxLen(k) bytes. */
  predicate Fits(m: string, k: Kind) {
    |m| + 2 <= MaxLen(k)
  }

  /** What the server sends: the fixed commands and the numeric challenge
      of the login. */
  datatype Command =
    | Move
    | TurnLeft
    | TurnRight
    | PickUp
    | Logout
    | Ok
    | LoginFailed
    | SyntaxError
    | LogicError
    | Challenge(code: nat)

  /** A command's text, without the terminator. */
  function Text(c: Command): string {
    match c
    case Move => "102 MOVE"
    case TurnLeft => "103 TURN LEFT"
    case TurnRight => "104 TURN RIGHT"
    case PickUp => "105 GET MESSAGE"
    case Logout => "106 LOGOUT"
    case Ok => "200 OK"
    case LoginFailed => "300 LOGIN FAILED"
    case SyntaxError => "301 SYNTAX ERROR"
    case LogicError => "302 LOGIC ERROR"
    case Challenge(n) => Decimal(n)
  }

  /** The bytes put on the wire for a command. */
  function Wire(c: Command): string {
    Text(c) + TERMINATOR
  }

  /** The terminator starts at index i of t. */
  predicate TerminatorAt(t: string, i: int) {
    0 <= i && i + 1 < |t| && t[i] == BEL && t[i + 1] == BS
  }

  /** The first terminator at or after index k, or -1. */
  function FindFrom(t: string, k: nat): (r: int)
    requires k <= |t|
    ensures r == -1 || (k <= r && TerminatorAt(t, r))
    ensures forall j :: k <= j && (r == -1 || j < r) ==> !TerminatorAt(t, j)
    decreases |t| - k
  {
    if k + 1 >= |t| then -1
    else if t[k] == BEL && t[k + 1] == BS then k
    else FindFrom(t, k + 1)
  }

  /** str.find of the terminator: the index of its first occurrence, or -1. */
  function FindTerminator(t: string): int {
    FindFrom(t, 0)
  }

  /** t holds at least one complete message. */
  predicate HasFrame(t: string) {
    FindTerminator(t) >= 0
  }

  /** The first message of t: the text before the first terminator. */
  function Head(t: string): string
    requires HasFrame(t)
  {
    t[..FindTerminator(t)]
  }

  /** What follows the first terminator of t. */
  function Tail(t: string): (rest: string)
    requires HasFrame(t)
    ensures |rest| + 2 <= |t|
  {
    t[FindTerminator(t) + 2..]
  }

  /** A string holds no terminator at all. */
  lemma NoFrameMeansNoTerminator(t: string, j: int)
    requires !HasFrame(t)
    ensures !TerminatorAt(t, j)
  {
  }

  /** Splitting at the first terminator loses and duplicates nothing, and
      the first message holds no terminator. */
  lemma FrameSplit(t: string)
    requires HasFrame(t)
    ensures t == Head(t) + TERMINATOR + Tail(t)
    ensures !HasFrame(Head(t))
  {
    var h := Head(t);
    forall j | 0 <= j ensures !TerminatorAt(h, j) {
      assert TerminatorAt(h, j) ==> TerminatorAt(t, j);
    }
  }

  /** Framing a message that holds no terminator and reading it back gives
      the message and the untouched rest of the stream. */
  lemma FrameRoundTrip(m: string, rest: string)
    requires !HasFrame(m)
    ensures HasFrame(m + TERMINATOR + rest)
    ensures Head(m + TERMINATOR + rest) == m
    ensures Tail(m + TERMINATOR + rest) == rest
  {
    var t := m + TERMINATOR + rest;
    assert TerminatorAt(t, |m|);
    forall j | 0 <= j < |m| ensures !TerminatorAt(t, j) {
      if j + 1 < |m| {
        NoFrameMeansNoTerminator(m, j);
        assert t[j] == m[j] && t[j + 1] == m[j + 1];
      } else {
        assert t[j + 1] == BEL;
      }
    }
    assert FindTerminator(t) == |m|;
    assert t[|m| + 2..] == rest;
  }

  /** Bytes received after a complete message do not change where the first
      message ends. */
  lemma FindIgnoresExtension(t: string, u: string)
    requires HasFrame(t)
    ensures HasFrame(t + u)
    ensures FindTerminator(t + u) == FindTerminator(t)
    ensures Head(t + u) == Head(t)
    ensures Tail(t + u) == Tail(t) + u
  {
    var i := FindTerminator(t);
    var tu := t + u;
    assert TerminatorAt(tu, i);
    forall j | 0 <= j < i ensures !TerminatorAt(tu, j) {
      assert !TerminatorAt(t, j);
      assert tu[j] == t[j] && tu[j + 1] == t[j + 1];
    }
    assert FindTerminator(tu) == i;
    assert tu[i + 2..] == t[i + 2..] + u;
  }

  /** No character of a decimal number is a control character. */
  lemma DigitsHoldNoTerminator(t: string)
    requires IsDigits(t)
    ensures !HasFrame(t)
  {
    forall j | 0 <= j ensures !TerminatorAt(t, j) {
      assert j < |t| ==> IsDigit(t[j]);
    }
  }

  /** Every command the server sends is exactly one message: a robot
      reading it back gets the command's text and nothing more. */
  lemma WireIsOneFrame(c: Command)
    ensures HasFrame(Wire(c))
    ensures Head(Wire(c)) == Text(c)
    ensures Tail(Wire(c)) == ""
  {
    var t := Text(c);
    if c.Challenge? {
      DigitsHoldNoTerminator(t);
    } else {
      forall j | 0 <= j ensures !TerminatorAt(t, j) {
        assert j < |t| ==> t[j] != BEL;
      }
    }
    FrameRoundTrip(t, "");
    assert Wire(c) == t + TERMINATOR + "";
  }
}
