# Robot server protocol engine, modelled in Dafny

This project models the per-connection engine of a small TCP server that
pilots robots. It covers one connection from start to finish:

- The robot logs in with a username and a hash-based challenge and response.
- The server finds the robot's heading from two position reports.
- It drives the robot to the bottom-left corner of a 5x5 goal zone.
- It walks a two-ring spiral through the zone, sending a PICK UP on every
  zone cell the robot lands on.
- A non-empty message found this way ends the connection with LOGOUT. Any
  protocol violation, timeout or hang-up closes the connection. A failed
  assertion is not caught by the handler, so the socket is left open. That
  happens for a robot that does not move while its heading is found, for a
  search not started on the zone's corner, and for the last check of
  turn_and_move (see Findings).

Every message, in both directions, ends with the two bytes 0x07 0x08. Each
kind of client message has its own length limit. At any point the robot may
send RECHARGING, which must be followed by FULL POWER before the awaited
reply.

The model is functional:

- **State.** One immutable `Session` record holds the server's robot record
  (unconsumed input, login hash, position, heading) and the socket's view of
  the client:
  - the chunks the client will still deliver;
  - the read timeout in force;
  - the log of every command sent.
- **Exceptions.** Each Python exception becomes the `Raised` case of
  `Res<T>`. Each operation of the source becomes a function (parsing and
  framing) or a method (the phases that send and read).
- **Specifications.** The operations that send and read are specified
  against an independent reading of the client's byte stream:
  - `Head`/`Tail` split the stream at the first terminator;
  - `Absorbed` skips a RECHARGING / FULL POWER pair;
  - `OkReport`, `MoveReport` and `ConfirmationOf` read a reply;
  - `LegProbed`, `Probed`, `AxisLine`, `Rings` and `Spiral` list the cells
    picked up on;
  - `StepSpec`, `LegSpec` and `TurnAndMoveSpec` read off the stream the
    reports a leg consumes and the commands it sends;
  - `Routes.RouteSpec` reads a fixed sequence of turn_and_move calls, leg
    after leg; `Search.ApproachSpec` reads the heading reports and the way
    to the corner, `Search.SweepRoute` lists the calls of the search, and
    `Handler.TravelSpec` and `Handler.ExhaustedSearch` read a whole
    connection that ends with an exhausted search.

  Of the endings of a connection, a rejected login and an exhausted search
  are tied to the stream this way. A found message, an abort and a failed
  assertion are stated by their causes: the PICK UP and its reply, the
  notice sent, the equal reports.
- **Chunked delivery.** Whether a read goes through also depends on how the
  client cuts its bytes into chunks. The converse clauses ("succeeds exactly
  when …") are stated for chunked delivery (`Framer.Chunked`): every chunk
  carries exactly one message and its terminator. Under it each read is
  decided by the next chunk alone.

Modules, following the source:

| module | file | what it holds |
|---|---|---|
| `Numerals` | numerals.dfy | `str()` and `int()` on decimal text |
| `Protocol` | protocol.dfy | constants, commands, length limits, framing by the terminator |
| `Geometry` | geometry.dfy | positions, headings, rotations, the zone, runs of cells |
| `State` | state.dfy | the session, exceptions, results, the sent log |
| `Framer` | framer.dfy | `extract_message` |
| `Replies` | replies.dfy | `check_ok_message`, `check_confirmation_message`, `handle_recharging` |
| `Auth` | auth.dfy | `authorize` and the hash arithmetic |
| `Navigation` | navigation.dfy | `send_move`, `send_turn`, `send_pick_up`, `turn_and_move` |
| `Routes` | routes.dfy | sequences of `turn_and_move` calls and how they read the stream |
| `Search` | search.dfy | `move_to_goal_init_pos`, `search_goal_zone`, the spiral |
| `Handler` | handler.dfy | `handle_connection` and its except clauses |

Three behaviours of the source that a reader might not expect, kept as they
are:

- The heading may be any non-zero delta, not only a unit vector
  (homework_1/server.py:96-97).
- The `$` of the two regexes also matches before one final newline, as
  Python's does, so `OK 1 2\n` and `123\n` are accepted (`Replies.RegexBody`).
- A message received in pieces is not checked against its kind's length
  limit; only one found whole in the buffer is
  (`Framer.ReceivedMessageIsNotLengthChecked`).

## Model

| member | source | states |
|---|---|---|
| Numerals.Decimal | homework_1/server.py:68 | `str(n)` has at least one digit, only digits, and starts with 0 exactly when n is 0 |
| Numerals.DecimalRoundTrip | homework_1/utils.py:203 | `int(str(n)) == n` for every natural n |
| Numerals.DecimalWidth | homework_1/utils.py:197 | a value below 10^k is written with at most k digits |
| Numerals.SignedDecimal | homework_1/utils.py:211 | a robot's signed coordinate text matches `-?\d+` and holds no blank or newline |
| Numerals.SignedRoundTrip | homework_1/utils.py:217 | `int()` reads back every signed integer the robot writes |
| Numerals.SignedIntHasNoBlank | homework_1/utils.py:217 | a `-?\d+` token holds no blank, so `split()` cannot cut it |
| Protocol.MaxLen | homework_1/utils.py:25 | every kind's length limit lies between 7 (CONFIRM) and 100 (MESSAGE) |
| Protocol.FindFrom | homework_1/utils.py:69 | `find` of the terminator returns -1 or the first index where it starts, with none before it |
| Protocol.FrameSplit | homework_1/utils.py:69-72 | splitting at the first terminator loses and duplicates nothing: stream == message + terminator + rest, and the message holds no terminator |
| Protocol.FrameRoundTrip | homework_1/utils.py:101-102 | a terminator-free message framed in front of any rest is read back as that message, leaving exactly the rest |
| Protocol.FindIgnoresExtension | homework_1/utils.py:88-89 | bytes appended after a complete message do not move the first terminator, so the message is the same and the rest grows by them |
| Protocol.DigitsHoldNoTerminator | homework_1/server.py:68 | decimal text never contains the terminator |
| Protocol.WireIsOneFrame | homework_1/utils.py:4-12 | every server command on the wire is exactly one message, read back as its text |
| Framer.Recv | homework_1/utils.py:82 | `recv(n)` returns at most n bytes of the next chunk and keeps the rest in flight; it times out only when nothing is in flight, and returns "" only for a closing client |
| Framer.ReceiveLoop | homework_1/utils.py:81-104 | the receiving loop returns the first message of the stream and leaves exactly its tail; on failure it has sent only the failure's notice (SYNTAX ERROR for a full chunk, nothing for a hang-up or timeout); with no chunk left it times out, and an empty chunk closes the connection at once |
| Framer.ExtractMessage | homework_1/utils.py:65-104 | the message returned is the stream's first message, and the stream left is its tail; a buffered message is accepted exactly when it fits the kind's limit, and a longer one is dropped from the buffer, answered with SYNTAX ERROR and closes the connection; a failure sends only its notice |
| Framer.EmptyChunkCloses | homework_1/utils.py:81-86 | with no message in the buffer, an empty next chunk (a client that hung up) closes the connection without a notice and consumes only that chunk |
| Framer.ChunkedStream | homework_1/utils.py:81-104 | under chunked delivery the stream is the next chunk's message and terminator followed by the remaining chunks' stream, and it holds a message exactly when a chunk is left |
| Framer.ChunkedRead | homework_1/utils.py:65-104 | under chunked delivery a read times out when no chunk is left, returns the next chunk's message whole when it fits the kind's limit, and otherwise sends SYNTAX ERROR and closes |
| Framer.ChunkTakenWhole | homework_1/utils.py:81-104 | a whole chunk whose message fits the read is returned at once, leaving the remaining chunks untouched |
| Framer.ChunkRefused | homework_1/utils.py:93-98 | a whole chunk whose message exceeds the read's limit arrives cut before its terminator and is refused with SYNTAX ERROR |
| Framer.ReadShrinksStream | homework_1/utils.py:101-102 | each read consumes the message and its two-byte terminator |
| Framer.ShortChunkKeepsReading | homework_1/utils.py:93-95 | a short chunk without a terminator is appended and reading goes on |
| Framer.FullChunkIsRefused | homework_1/utils.py:96-98 | a full-size chunk without a terminator closes with SYNTAX ERROR |
| Framer.CompletingChunkEndsLoop | homework_1/utils.py:100-104 | a chunk that completes a message returns the text before the terminator, whatever its length |
| Framer.ReceivedMessageIsNotLengthChecked | homework_1/utils.py:100-104 | an 8-character confirmation that arrives in short chunks is accepted although CONFIRM allows 7 |
| Framer.BufferedMessageIsLengthChecked | homework_1/utils.py:74-76 | the same 8-character confirmation found in the buffer is refused with SYNTAX ERROR |
| Replies.ParseConfirmation | homework_1/utils.py:197-199 | an accepted confirmation is a number below 100000 |
| Replies.ConfirmationRoundTrip | homework_1/utils.py:197-203 | every code below 100000 written in decimal is accepted and read back as itself |
| Replies.ClientValue | homework_1/utils.py:203 | the hash a confirmation stands for lies in [0, 65536) |
| Replies.HonestConfirmationMatches | homework_1/utils.py:203 | a robot answering (hash + 45328) mod 65536 is read back as that hash, and its answer always fits 5 digits |
| Replies.ParseOk | homework_1/utils.py:211-213 | an accepted OK reply is at most 10 characters long |
| Replies.ParseOkIsSound | homework_1/utils.py:211-217 | everything accepted has the form `OK <int> <int>`, and the two integers are returned |
| Replies.ParseOkIsComplete | homework_1/utils.py:211-217 | every reply of at most 10 characters of the form `OK <int> <int>` is accepted with its two integers (with Python's `$`, a final newline is allowed) |
| Replies.OkReplyRoundTrip | homework_1/utils.py:211-217 | a position the robot writes is read back unchanged when the reply has at most 10 characters, or at most 9 followed by a final newline, and is refused when it is longer |
| Replies.HandleRecharging | homework_1/utils.py:220-226 | success means the next message was exactly FULL POWER and the timeout is back to 1; a read failure is passed on, and any other message sends LOGIC ERROR and closes with the timeout still at 5; under chunked delivery it succeeds exactly when the next message is FULL POWER |
| Replies.AbsorbRecharge | homework_1/utils.py:207-209 | a message other than RECHARGING passes unchanged; RECHARGING is replaced by the reply after FULL POWER, which is the effective reply of the stream |
| Replies.RechargeIsTransparent | homework_1/utils.py:207-209 | RECHARGING then FULL POWER then a reply reads as that reply alone |
| Replies.AbsorbedFirst | homework_1/utils.py:207-209 | the effective reply of a stream is its first message, unless that is RECHARGING, in which case it is the message after FULL POWER |
| Replies.AbsorbAfterRecharge | homework_1/utils.py:207-209 | after a recharge that went through, the re-read returns the effective reply; under chunked delivery it does so exactly when that reply fits the re-read |
| Replies.ReplyReadChunked | homework_1/utils.py:206-209 | under chunked delivery, reading a reply and absorbing a recharge goes through exactly when the stream holds an effective reply whose reads are whole, and returns that reply |
| Replies.AbsorbReadsWhole | homework_1/utils.py:207-209 | after a first message read whole, absorbing a recharge goes through exactly when the rest of the effective reply is read whole too |
| Replies.OkReadChunked | homework_1/utils.py:206-217 | under chunked delivery, reading an OK reply yields one that parses exactly when the stream reports a position |
| Replies.OkReportReadsWhole | homework_1/utils.py:211-213 | a reply that parses is at most 10 characters long, so a stream that reports a position has its reply read whole |
| Replies.CheckOk | homework_1/utils.py:206-217 | a reply other than RECHARGING is accepted exactly when it parses as `OK x y` within 10 characters, and is otherwise answered with SYNTAX ERROR and a close; a RECHARGING is first replaced by the reply after FULL POWER, which is then judged the same way |
| Replies.CheckConfirmation | homework_1/utils.py:192-203 | a reply other than RECHARGING is accepted exactly when it is 1 to 5 digits, and is otherwise answered with SYNTAX ERROR and a close; the value returned is the hash it stands for, below 65536; a RECHARGING is first replaced by the reply after FULL POWER |
| Replies.AwaitOk | homework_1/utils.py:151-152 | reading an OK reply returns the position the stream reports and consumes exactly that reply; under chunked delivery it succeeds exactly when the stream reports a position |
| Auth.LoginHash | homework_1/server.py:67 | the login hash lies in [0, 65536) |
| Auth.LoginHashAppend | homework_1/server.py:67 | each further character adds its code times 1000 to the hash, modulo 65536 |
| Auth.ChallengeCode | homework_1/server.py:68 | the challenge lies in [0, 65536) |
| Auth.ChallengeIsInvertible | homework_1/server.py:68 | subtracting the server key from the challenge, modulo 65536, recovers the hash |
| Auth.ConfirmationStandsFor | homework_1/server.py:78 | a confirmation n stands for hash h exactly when n is congruent to h + 45328 modulo 65536 |
| Auth.HonestRobotConfirms | homework_1/server.py:74-78 | a robot that answers (hash + 45328) mod 65536 in decimal is recognised as the owner of that hash |
| Auth.SendChallenge | homework_1/server.py:66-71 | the stored hash is that of the first message, and the challenge sent is (hash + 54621) mod 65536; under chunked delivery it goes through exactly when the username fits its limit, and a client that sends nothing times out |
| Auth.CheckLogin | homework_1/server.py:74-82 | a confirmation of 1 to 5 digits gets OK exactly when it stands for the stored hash, and otherwise LOGIN FAILED and a close; a malformed one sends only its notice; under chunked delivery the same holds for the stream's effective confirmation, and a success leaves the rest of the stream chunked |
| Auth.ConfirmReadChunked | homework_1/server.py:74-75 | under chunked delivery the confirmation read (12 characters at first, 7 after a recharge) yields 1 to 5 digits exactly when the stream holds a confirmation read whole, and the value is the hash it stands for |
| Auth.Authorize | homework_1/server.py:64-82 | a login succeeds only when the confirmation after the username stands for the username's hash, and the log then gains the challenge and OK and the stream left is the one after the confirmation; a rejected login gains the challenge and LOGIN FAILED; for a login delivered whole the robot gets OK exactly when its confirmation stands for its username's hash, and LOGIN FAILED otherwise; a client that sends nothing times out |
| Geometry.RotationsAreInverse | homework_1/utils.py:56-61 | turning left and turning right undo each other, and both keep the four unit headings among themselves |
| Geometry.FourLeftsIsIdentity | homework_1/utils.py:56-57 | three left turns are one right turn, and four are none |
| Geometry.FourRightsIsIdentity | homework_1/utils.py:60-61 | four right turns are none |
| Geometry.RotateLeftNKeepsUnit | homework_1/utils.py:56-57 | left turns never turn a non-unit heading into a unit one, or the reverse |
| Geometry.UnitsFormOneCycle | homework_1/utils.py:123-125 | from a unit heading, fewer than four left turns reach any other unit heading |
| Geometry.NonUnitNeverAligns | homework_1/utils.py:123-125 | left turns from a non-unit heading never reach a unit heading |
| Geometry.AxisLineStep | homework_1/utils.py:131-135 | a run is its first step along the heading towards g, followed by the run from that cell |
| Geometry.AxisLineEnd | homework_1/utils.py:131-132 | a run ends on the goal coordinate with the other coordinate untouched |
| Geometry.ProbedMembers | homework_1/utils.py:140-141 | the cells picked up on are exactly the run's cells inside the zone |
| Geometry.ProbedAllInZone | homework_1/utils.py:140-142 | a run inside the zone is picked up on at every cell |
| Geometry.LegProbedIsProbedLine | homework_1/utils.py:131-142 | walking a run one MOVE at a time picks up on exactly its zone cells, in order |
| Navigation.SendMove | homework_1/utils.py:148-160 | send_move returns the position the stream reports, sending MOVE a second time exactly when the first report is the old position; under chunked delivery it succeeds exactly when the stream holds those reports |
| Navigation.SendTurn | homework_1/utils.py:163-177 | a turn rotates the heading left or right and reads one report; under chunked delivery it succeeds exactly when the stream reports the unchanged position, and a report of any other position closes with the coordinate mismatch |
| Navigation.SendPickUp | homework_1/utils.py:180-189 | the reply after a recharge is re-read with the MESSAGE limit; an empty effective reply continues and any other text is raised as the found message, with PICK UP as the last command sent; under chunked delivery it continues exactly when the stream's effective reply is empty |
| Navigation.PickUpReply | homework_1/utils.py:183-189 | the outcome of send_pick_up is decided by the stream's effective reply: empty continues, anything else is the found message |
| Navigation.EmptyReplyReadsWhole | homework_1/utils.py:183-187 | an empty effective reply is always read whole by the MESSAGE reads |
| Navigation.TurnLeftLoop | homework_1/utils.py:121-125 | the loop sends the fewest left turns, fewer than four, that reach the target, each reading one report of the unchanged position; under chunked delivery it succeeds exactly when those reports are in the stream; it ends only when heading and target are both unit headings or both not |
| Navigation.ReportsAppend | homework_1/utils.py:123-125 | reading k reports and then n more is reading k + n reports |
| Navigation.ReportsCutShort | homework_1/utils.py:123-125 | when k reports are followed by something other than a report of the same position, any longer run of reports is missing |
| Navigation.RightTurnCondition | homework_1/utils.py:116-117 | the source's test for a right turn holds exactly when the target is one right turn away |
| Navigation.RightTurn | homework_1/utils.py:116-119 | one TURN RIGHT reaches the target heading, sends exactly the turns `Turns` lists, and reads one report of the unchanged position; under chunked delivery it fails exactly when that report is missing |
| Navigation.LeftTurnsAreTurns | homework_1/utils.py:121-125 | unless one right turn suffices, the left-turn loop reaches the target within four turns exactly when `Turns` lists turns for it, and those are then the loop's left turns |
| Navigation.TurnPhase | homework_1/utils.py:111-128 | with distance to cover, the heading ends on the needed direction, and with none it is left as it was: the turns sent are one TURN RIGHT when that is a right turn away, otherwise at most two TURN LEFTs, each consuming one report of the unchanged position; under chunked delivery it succeeds exactly when those reports are in the stream |
| Navigation.CheckedMove | homework_1/utils.py:134-137 | a move is accepted exactly when the reported position is one step along the heading, and sends the MOVEs send_move sent; a report of any other position closes with the coordinate mismatch, MOVE being the last command |
| Navigation.StepMoved | homework_1/utils.py:134-141 | a correct report off the zone completes a step having sent only the MOVEs |
| Navigation.StepPicked | homework_1/utils.py:139-142 | a correct report on a zone cell followed by an empty effective reply completes a step with PICK UP after the MOVEs |
| Navigation.StepUnmoved | homework_1/utils.py:134-137 | a missing or wrong report fails the step |
| Navigation.StepUnpicked | homework_1/utils.py:139-142 | on a zone cell a missing or non-empty pick-up reply fails the step |
| Navigation.MoveStep | homework_1/utils.py:134-142 | one step of the moving loop sends and reads what `StepSpec` reads off the stream: the MOVEs and their report, then, on a zone cell only, a PICK UP whose effective reply is empty; under chunked delivery it succeeds exactly when `StepSpec` does |
| Navigation.LegStep | homework_1/utils.py:131-142 | a leg is one step towards the goal followed by the leg from the next cell, and fails when the step fails |
| Navigation.LegAdvance | homework_1/utils.py:131-142 | the cells picked up so far plus those of the rest of the run stay the whole run's after each step |
| Navigation.MoveLoop | homework_1/utils.py:131-142 | the moving loop ends on the goal coordinate with the other one unchanged, having picked up on exactly the run's zone cells, and sent and read what `LegSpec` reads off the stream, one step per cell; under chunked delivery it succeeds exactly when `LegSpec` does |
| Navigation.TurnAndMoveSplit | homework_1/utils.py:107-145 | away from the goal, turn_and_move is its turns, one report per turn, then the leg |
| Navigation.TurnedForLeg | homework_1/utils.py:111-131 | after the turn phase of a leg that is not skipped, what `TurnAndMoveSpec` still reads is the moving loop from there, and the heading is the one the leg ends with |
| Navigation.TurnAndMove | homework_1/utils.py:107-145 | turn_and_move does nothing at the goal; otherwise it sends and reads what `TurnAndMoveSpec` reads off the stream (the turns, one report per turn, then the leg), ends with the axis coordinate on the goal and the other unchanged, with the heading `HeadingAfter` names, and picks up on each zone cell of the way; under chunked delivery it succeeds exactly when `TurnAndMoveSpec` does |
| Navigation.TurnAndMoveAsWritten | homework_1/utils.py:145 | with the final check as written, a leg that is not skipped ends with an AssertionError only on x = 0; under chunked delivery, when all its reports are in the stream, it completes exactly when it does not end on x = 0 and otherwise raises AssertionError |
| Routes.RouteOne | homework_1/utils.py:107-145 | a route of one call reads the stream exactly as that call of turn_and_move does, and leaves the heading the call leaves |
| Routes.RouteAppend | homework_1/server.py:101-124 | calls made one after the other read the stream as the first ones, then the rest from where and with the heading the first ones left the robot |
| Routes.RouteEndAppend | homework_1/server.py:101-124 | the robot's place after two routes run one after the other is the second's end from the first's |
| Routes.CornerRouteEnd | homework_1/server.py:115-117 | the two calls of a corner route end on the corner |
| Routes.ReturnRouteEnd | homework_1/server.py:119-124 | the way back of a pass ends one row and one column in from where the pass started |
| Routes.RingRouteEnd | homework_1/server.py:115-124 | a pass from c ends one row and one column in from c, on the next ring's corner |
| Routes.ReadsThen | homework_1/server.py:101-124 | a route read up to the place where its first part ends goes on with the rest from there, and the whole route goes through exactly when the rest does |
| Routes.StopsEarly | homework_1/server.py:101-124 | a stream that cannot carry the first calls cannot carry any longer sequence of calls |
| Routes.CornerReads | homework_1/server.py:115-117 | a corner route is its x call, then its y call from where the x call ended |
| Routes.CornerStops | homework_1/server.py:115-117 | a stream that cannot carry the x call cannot carry the corner route |
| Routes.ReturnReads | homework_1/server.py:119-124 | the way back is its corner route, then the step right from where that ended |
| Routes.ReturnStops | homework_1/server.py:119-124 | a stream that cannot carry the corner route of the way back cannot carry the way back |
| Routes.RingReads | homework_1/server.py:115-124 | a pass is its way out to the far corner, then its way back from there |
| Routes.RingStops | homework_1/server.py:115-124 | a stream that cannot carry the way out of a pass cannot carry the pass |
| Search.CornerProbedIsProbed | homework_1/server.py:115-117 | two legs picked up on leg by leg are picked up on their joined cells |
| Search.ReturnProbedIsProbed | homework_1/server.py:119-124 | the same holds for the way back of a pass |
| Search.ReturnProbedSplit | homework_1/server.py:119-124 | the way back is picked up leg by leg: two corner legs, then one step right |
| Search.RingProbedIsProbed | homework_1/server.py:115-124 | the pick-ups of a pass are those of all its cells |
| Search.OuterRingIs | homework_1/server.py:115-124 | the pass from (-2, -2) with shift 4 lands on the listed outer ring |
| Search.InnerRingIs | homework_1/server.py:115-124 | the pass from (-1, -1) with shift 2 lands on the listed inner ring |
| Search.OuterRingMembers | homework_1/server.py:115-121 | the outer ring is the zone's border without its start corner, plus (-1, -1) |
| Search.OuterRingDistinct | homework_1/server.py:115-124 | the outer ring lands on no cell twice |
| Search.InnerRingCovers | homework_1/server.py:115-124 | the inner ring lands once on each cell of the 3x3 middle but (-1, -1) |
| Search.SpiralIsTwoRings | homework_1/server.py:109-127 | the two passes the loop makes land on the listed spiral |
| Search.SpiralCoversZone | homework_1/server.py:113-124 | the spiral lands on 24 distinct cells, exactly the zone without (-2, -2), and ends in (0, 0) |
| Search.SpiralIsProbed | homework_1/server.py:113-124 | every cell of the spiral gets a PICK UP |
| Search.SpiralStaysInZone | homework_1/server.py:113-124 | the spiral's cells all lie in the zone, so each one is picked up on |
| Search.SpiralLastLegFailsAsWritten | homework_1/server.py:113-124 | the loop's last pass is the one with shift 2 (the next shift is not positive), and its last leg moves from (-1, 0) right by one onto (0, 0), where the check as written fails |
| Search.RingsLastLeg | homework_1/server.py:115-124 | every pass ends with the leg from one row above its start right by one, after its two corner legs |
| Search.FirstMove | homework_1/server.py:88-90 | the first reported position becomes the robot's position, after one MOVE; under chunked delivery the MOVE goes through exactly when the stream reports a position, and the rest stays chunked |
| Search.TakeHeading | homework_1/server.py:93-98 | the heading is the non-zero difference between the send_move report and the first position, and the robot then stands on the second report; under chunked delivery it succeeds exactly when the report differs from the position, and an equal report raises AssertionError |
| Search.SendMoveAddsNoPickUp | homework_1/server.py:93 | send_move adds no PICK UP to the log |
| Search.HeadingReportsSplit | homework_1/server.py:88-93 | after the first report, the heading reports are there exactly when send_move's reports follow, and are those reports |
| Search.EstablishHeading | homework_1/server.py:88-98 | the heading leads from the first report to the second, and both are read off the stream in order; under chunked delivery it succeeds exactly when both reports are there and differ, and equal reports raise AssertionError |
| Search.ApproachCorner | homework_1/server.py:101-102 | the robot ends on (-2, -2), having picked up on the zone cells of the x leg and then the y leg and read what the two calls read off the stream; under chunked delivery it succeeds exactly when the stream carries both calls |
| Search.Leg | homework_1/utils.py:107-145 | one turn_and_move leg ends with the axis coordinate on the goal, picks up on its zone cells, reads what a one-call route reads off the stream and, unless a message is found, aborts only for a broken protocol; under chunked delivery it succeeds exactly when the stream carries the call |
| Search.MoveToGoalInitPos | homework_1/server.py:85-102 | the robot reaches (-2, -2) from its second reported position, picking up on the zone cells of the way, and sends and reads what `ApproachSpec` reads off the stream; under chunked delivery it succeeds exactly when `ApproachSpec` does |
| Search.ApproachFrom | homework_1/server.py:93-102 | once the heading is found, what is left of `ApproachSpec` is the route to the corner from the second report, on that heading |
| Search.ApproachOf | homework_1/server.py:93-102 | on a stream whose two heading reports differ, `ApproachSpec` is the route to the corner from the second one |
| Search.CornerLegs | homework_1/server.py:115-117 | two legs bring the robot to (gx, gy), picking up on their zone cells and reading what the corner route reads off the stream; under chunked delivery they succeed exactly when the stream carries it |
| Search.ReturnLegs | homework_1/server.py:119-124 | the way back ends one step right of and one row above the pass's start, picking up on its zone cells and reading what its route reads off the stream; under chunked delivery it succeeds exactly when the stream carries that route |
| Search.Ring | homework_1/server.py:115-124 | a pass ends on the next ring's corner, picking up on exactly the pass's zone cells and reading what its five calls read off the stream; under chunked delivery it succeeds exactly when the stream carries them |
| Search.PassProbed | homework_1/server.py:113-127 | one more pass extends the pick-ups of the spiral so far by that pass's |
| Search.Pass | homework_1/server.py:113-127 | pass k starts on ring k's corner and ends on ring k+1's, extending the spiral's pick-ups and reading pass k's calls off the stream; under chunked delivery it succeeds exactly when the stream carries them |
| Search.PassesEnd | homework_1/server.py:113-124 | the first k passes end on the corner of ring k |
| Search.SweepReads | homework_1/server.py:113-124 | the first k + 1 passes are the first k, then pass k from the corner of ring k |
| Search.StopsEarlyPasses | homework_1/server.py:113-124 | a stream that cannot carry the first k passes cannot carry more of them |
| Search.SweepStops | homework_1/server.py:113-124 | a stream that cannot carry some of the passes cannot carry the search |
| Search.SweptOneMore | homework_1/server.py:113-124 | a completed pass k extends the loop's state (place, pick-ups, log, stream read) by one pass |
| Search.SweepEnds | homework_1/server.py:113 | when the shifts stop being positive, the robot is in (0, 0) and the whole spiral was picked up on |
| Search.Sweep | homework_1/server.py:109-127 | unless a message is found, the loop ends in (0, 0) after one PICK UP on each spiral cell, having read every call of the search off the stream; under chunked delivery it ends so exactly when the stream carries them all |
| Search.SearchGoalZone | homework_1/server.py:105-127 | a search not started on (-2, -2) raises AssertionError at once and changes nothing; otherwise it finds a message or ends in (0, 0) having picked up on the whole spiral and read its calls off the stream; under chunked delivery it ends so exactly when it starts on the corner and the stream carries every call |
| Handler.Travel | homework_1/server.py:43-46 | after login the phases end in a found message, an abort, a failed assertion, or "no message found" after at least 24 PICK UPs; that last ending sends and reads what `TravelSpec` reads off the stream, and under chunked delivery happens exactly when `TravelSpec` does |
| Handler.AfterLogin | homework_1/server.py:43-59 | a found message is answered by LOGOUT right after its PICK UP; no other ending sends LOGOUT; only a failed assertion leaves the connection open; an exhausted search sends the log `TravelSpec` reads off the stream, and under chunked delivery happens exactly when `TravelSpec` does |
| Handler.Login | homework_1/server.py:42 | OK goes only to a robot that logged in, LOGIN FAILED only to one whose confirmation stands for another hash, and for a login delivered whole exactly so; after OK the stream left is the one after the confirmation, chunked when the login was delivered whole; a client that sends nothing times out |
| Handler.HandleConnection | homework_1/server.py:36-61 | a message is found only after a successful login, with the challenge and OK first and PICK UP, LOGOUT last; a rejected login sends exactly the challenge and LOGIN FAILED; for a login delivered whole the connection is rejected exactly when the confirmation does not stand for the username's hash; a client that sends nothing times out with nothing sent; an exhausted search follows a login and at least 24 PICK UPs, sends exactly the log `ExhaustedSearch` reads off the client's bytes, and for a login delivered whole happens exactly when `ExhaustedSearch` finds one |

## Left out

- The `Server` class (homework_1/server.py:7-33): binding, the fallback port,
  the accept loop and the thread per connection. This is I/O and
  concurrency, and each connection is independent.
- Real sockets. `recv` reads from a given list of chunks, `sendall` appends
  to a log of commands, `settimeout` sets a field, and `close` is a flag of
  the outcome.
- Time. A read times out exactly when the list of chunks is exhausted; the
  timeout's length is recorded but has no effect.
- `print` logging.
- Non-ASCII bytes. `decode("ascii")` would raise an uncaught
  UnicodeDecodeError; the model's strings are the decoded characters.
- Bytes and characters are treated alike: the username's code sum is taken
  over the characters.
- The unused `InvalidMessageError` class.
- The `assert msg_type in ...` and `assert to_send in [...]` checks. The
  types make them hold.
- The assertion at homework_1/utils.py:128. The position provably does not
  change during the turn phase (`Navigation.TurnPhase` ensures it).
- Navigation.TurnLeftLoop: with a non-unit heading, which only a zero-free,
  non-unit delta from the robot can produce, the source turns until the
  client stops answering. The model follows it: the loop ends only by
  exhausting the input, since each turn consumes a reply. No "non-unit
  heading" error is added.
- Search.CornerLegs: the source computes the y leg's goal after the x leg,
  from a y coordinate the x leg leaves alone. The model computes it up front.
- Handler.Travel: states that an exhausted search sent at least 24 PICK UPs
  rather than the exact count. The exact count depends on how many zone
  cells the approach crossed, which `Search.MoveToGoalInitPos` states.
- Handler.HandleConnection: the same: at least 24 PICK UPs after an
  exhausted search.
- Search.Sweep: uses the corrected final check of turn_and_move (see
  Findings). With the check as written, an exhausted search ends in an
  AssertionError on (0, 0) instead (`Search.SpiralLastLegFailsAsWritten`).
- Search.SearchGoalZone: the same corrected check, through `Search.Sweep`.
- Handler.AfterLogin: the same corrected check, through `Handler.Travel`.
- Handler.Travel: the same corrected check, so an exhausted search ends with
  "no message found" rather than the AssertionError the source raises.
- Handler.HandleConnection: the same corrected check, so its
  `Closed(NoMessageFound)` ending is one the source as written never
  reaches.
- Search.Leg: uses the corrected final check of turn_and_move. As written,
  any leg that ends on x = 0 raises AssertionError.
- Search.Ring: the same corrected check, through `Search.ReturnLegs`. As
  written, the inner pass's last leg (from (-1, 0) to (0, 0)) raises
  AssertionError.
- Search.Pass: the same corrected check, through `Search.Ring`; the inner
  pass fails as written.
- Search.ReturnLegs: the same corrected check, through `Search.Leg`; the
  step right of the inner pass fails as written.
- Handler.AfterLogin: of its endings, only an exhausted search is read off
  the stream by a reference definition (`Handler.TravelSpec`). A found
  message, an abort and a failed assertion are stated by their causes, not
  by a reading of the whole stream.
- Handler.HandleConnection: the same: only a rejected login, a silent
  client and an exhausted search are tied to the client's bytes as a
  whole.

## Findings

| source | as written | input that shows it | evidently intended | confidence | as-written member | corrected member |
|---|---|---|---|---|---|---|
| homework_1/utils.py:145 | `assert robot.x, robot.y == goal_coordinates` asserts only that `robot.x` is non-zero, with the comparison as the failure message | a search that finds nothing: the spiral's last leg moves from (-1, 0) to (0, 0), so the assertion fails there (Search.SpiralLastLegFailsAsWritten). The AssertionError escapes handle_connection, which never closes the connection or reports "No final message found" | the position check: the axis coordinate equals the goal's | not executed | Navigation.TurnAndMoveAsWritten | Navigation.TurnAndMove |

The rest of the model uses the corrected `Navigation.TurnAndMove`.
`Handler.Travel` therefore ends an exhausted search with "no message found".
