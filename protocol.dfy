/** The device line protocol of ServerManager.FSClient.run, as a pure
    function of the lines a fingerprint device sends. A session is run in
    bursts: each burst takes the lines that are ready, and says how the
    stream stands once they are used up. The thread, the socket and the
    polling of input.ready() are not modelled; an empty stream that the
    real loop would keep polling ends the burst as Idle. */
module Protocol {
  import opened Text
  import opened Log

  const DISCONNECT: string := "disconnect"
  const ENROLL_FINGER: string := "enrollFinger"
  const SCAN_FINGER: string := "scanFinger"
  const INFORMATION_BANNER: string :=
    "=======================     INFORMATION     ======================="

  /** How the input stream stands after the given lines: more may come
      later (Open), the device closed it so readLine returns null (Closed),
      or the next read throws an IOException (Broken). */
  datatype InputEnd = Open | Closed | Broken

  /** How a burst ends. Idle: the loop is polling an empty stream.
      Blocked: readLine waits inside a payload. Ended: is_connected was
      cleared. Failed: an IOException. Forced: the thread was interrupted. */
  datatype Exit = Idle | Blocked | Ended | Failed | Forced

  /** The exits that leave the loop and run the finally block. */
  predicate Terminal(x: Exit) {
    x == Ended || x == Failed || x == Forced
  }

  /** The eight payload lines of enrollFinger, in the order they are read. */
  datatype Enrollee = Enrollee(
    firstName: string, middleName: string, lastName: string, age: string,
    gender: string, phoneNumber: string, address: string, fingerprintId: string)

  /** What a burst produces: console messages, lines written back to the
      device, records handed to the database, how many input lines were
      read, and how the burst ended. */
  datatype Outcome = Outcome(
    messages: seq<Message>, sent: seq<string>, enrolled: seq<Enrollee>,
    consumed: nat, exit: Exit)

  /** A payload line: the line itself, or the text "null" that string
      concatenation gives for the null readLine returns on a closed stream. */
  function PayloadLine(input: seq<string>, k: nat): string {
    if k < |input| then input[k] else NULL_TEXT
  }

  /** The eight lines after the command line, read as an enrolment. */
  function EnrolleeAt(input: seq<string>): Enrollee {
    Enrollee(PayloadLine(input, 1), PayloadLine(input, 2), PayloadLine(input, 3),
             PayloadLine(input, 4), PayloadLine(input, 5), PayloadLine(input, 6),
             PayloadLine(input, 7), PayloadLine(input, 8))
  }

  /** How many payload lines a command line is followed by. */
  function Width(line: string): (w: nat)
    ensures w == 8 <==> line == ENROLL_FINGER
    ensures w == 1 <==> line == SCAN_FINGER
    ensures w == 0 <==> line != ENROLL_FINGER && line != SCAN_FINGER
  {
    if line == ENROLL_FINGER then 8 else if line == SCAN_FINGER then 1 else 0
  }

  const MATCH_LABEL: string := "Found match with finger ID: "
  const CLOSING_LABEL: string := "Closing connection for client "
  const FORCED_LABEL: string := "Forced to close connection with client "
  const NULL_TEXT: string := "null"
  const DISCONNECT_LINE: string := DISCONNECT + "\n"
  const CLOSING_INPUT_LABEL: string := "Closing input for client "
  const CLOSING_OUTPUT_LABEL: string := "Closing output for client "
  const CLOSING_SOCKET_LABEL: string := "Closing socket for client "
  const CLOSED_LABEL: string := "Successfully closed connection for client "
  const ENROLLED_LABEL: string := "Successfully enrolled: "
  const FIRST_NAME_LABEL: string := "First Name : "
  const MIDDLE_NAME_LABEL: string := "Middle Name: "
  const LAST_NAME_LABEL: string := "Last Name  : "
  const AGE_LABEL: string := "Age        : "
  const GENDER_LABEL: string := "Gender     : "
  const PHONE_LABEL: string := "Phone No.  : "
  const ADDRESS_LABEL: string := "Address    : "

  /** The console report of an enrolment. */
  function EnrollMessages(e: Enrollee): seq<Message> {
    [ Message(ENROLLED_LABEL + e.firstName + " " + e.middleName + " " + e.lastName, CLIENT),
      Message(INFORMATION_BANNER, CLIENT),
      Message(FIRST_NAME_LABEL + e.firstName, CLIENT),
      Message(MIDDLE_NAME_LABEL + e.middleName, CLIENT),
      Message(LAST_NAME_LABEL + e.lastName, CLIENT),
      Message(AGE_LABEL + e.age, CLIENT),
      Message(GENDER_LABEL + e.gender, CLIENT),
      Message(PHONE_LABEL + e.phoneNumber, CLIENT),
      Message(ADDRESS_LABEL + e.address, CLIENT) ]
  }

  function ScanMessage(id: string): Message {
    Message(MATCH_LABEL + id, CLIENT)
  }

  function ClosingMessage(name: string): Message {
    Message(CLOSING_LABEL + name, SERVER)
  }

  function ForcedMessage(name: string): Message {
    Message(FORCED_LABEL + name, WARNING)
  }

  /** The catch block for InterruptedException: report, send "disconnect"
      to the device (its output is still open) and stop. */
  function ForcedExit(name: string, messages: seq<Message>, stored: seq<Enrollee>, consumed: nat): Outcome {
    Outcome(messages + [ForcedMessage(name)], [DISCONNECT_LINE], stored, consumed, Forced)
  }

  /** An earlier iteration's messages, records and lines read, put in
      front of what follows it. */
  function Then(messages: seq<Message>, stored: seq<Enrollee>, read: nat, o: Outcome): Outcome {
    o.(messages := messages + o.messages, enrolled := stored + o.enrolled, consumed := read + o.consumed)
  }

  /** A command line whose payload runs past the lines that are ready, on a
      stream that is not closed: readLine waits or throws. */
  predicate Incomplete(input: seq<string>, end: InputEnd)
    requires |input| > 0
  {
    1 + Width(input[0]) > |input| && end != Closed
  }

  /** How many lines one iteration reads: the line and its payload, or all
      that is left of a closed stream that ran out inside the payload. */
  function StepLength(input: seq<string>): (k: nat)
    requires |input| > 0
    ensures 1 <= k <= |input|
  {
    if 1 + Width(input[0]) <= |input| then 1 + Width(input[0]) else |input|
  }

  /** The echo of the first line and what its command reports. */
  function LineMessages(input: seq<string>): seq<Message>
    requires |input| > 0
  {
    Emit(input[0], CLIENT) +
    (if input[0] == ENROLL_FINGER then EnrollMessages(EnrolleeAt(input))
     else if input[0] == SCAN_FINGER then [ScanMessage(PayloadLine(input, 1))]
     else [])
  }

  /** The record an enrollFinger line hands to the database, when it is up. */
  function LineStored(input: seq<string>, dbUp: bool): seq<Enrollee>
    requires |input| > 0
  {
    if input[0] == ENROLL_FINGER && dbUp then [EnrolleeAt(input)] else []
  }

  /** The loop once the ready lines are used up: input.ready() throws on a
      broken stream; otherwise nothing is read and only the interrupt check
      can end the loop. */
  function AtEnd(name: string, end: InputEnd, interrupted: bool): Outcome {
    if end == Broken then Outcome([], [], [], 0, Failed)
    else if interrupted then ForcedExit(name, [], [], 0)
    else Outcome([], [], [], 0, Idle)
  }

  /** The "disconnect" line: report and clear is_connected; the interrupt
      check at the end of the same iteration still runs. */
  function DisconnectLine(name: string, line: string, interrupted: bool): Outcome {
    var messages := Emit(line, CLIENT) + [ClosingMessage(name)];
    if interrupted then ForcedExit(name, messages, [], 1)
    else Outcome(messages, [], [], 1, Ended)
  }

  /** One iteration of the loop: it either ends the loop with an outcome,
      or reports and stores something after reading some lines and goes on. */
  datatype Pass = Stop(outcome: Outcome) | Go(messages: seq<Message>, stored: seq<Enrollee>, read: nat)

  /** What one iteration does with the lines that are ready: the empty
      input, a "disconnect", a payload that is not all there and an
      interrupt end the loop; any other line is read with its payload. */
  function OnePass(name: string, input: seq<string>, end: InputEnd, interrupted: bool, dbUp: bool): (p: Pass)
    ensures p.Stop? ==> p.outcome.consumed <= |input|
    ensures p.Go? ==> 1 <= p.read <= |input|
  {
    if |input| == 0 then Stop(AtEnd(name, end, interrupted))
    else if input[0] == DISCONNECT then Stop(DisconnectLine(name, input[0], interrupted))
    else if Incomplete(input, end) then
      Stop(Outcome(Emit(input[0], CLIENT), [], [], |input|, if end == Open then Blocked else Failed))
    else if interrupted then
      Stop(ForcedExit(name, LineMessages(input), LineStored(input, dbUp), StepLength(input)))
    else
      Go(LineMessages(input), LineStored(input, dbUp), StepLength(input))
  }

  /** The while (is_connected) loop over the lines still to be read, while
      is_connected holds: one pass after another until a pass ends it. */
  function Run(name: string, input: seq<string>, end: InputEnd, interrupted: bool, dbUp: bool): (o: Outcome)
    ensures o.consumed <= |input|
    decreases |input|
  {
    var p := OnePass(name, input, end, interrupted, dbUp);
    if p.Stop? then p.outcome
    else Then(p.messages, p.stored, p.read, Run(name, input[p.read..], end, interrupted, dbUp))
  }

  /** How a run can end: it sends "disconnect" only when forced, and is
      forced only when interrupted; an interrupted run never goes idle or
      ends by itself; it goes idle only having read every ready line of a
      stream that is not broken, blocks only on an open stream, and stores
      nothing while the database is down. */
  lemma {:induction false} RunShape(name: string, input: seq<string>, end: InputEnd, interrupted: bool, dbUp: bool)
    ensures var o := Run(name, input, end, interrupted, dbUp);
            && o.sent == (if o.exit == Forced then [DISCONNECT + "\n"] else [])
            && (o.exit == Forced ==> interrupted)
            && (interrupted ==> o.exit != Idle && o.exit != Ended)
            && (o.exit == Idle ==> o.consumed == |input| && end != Broken)
            && (o.exit == Blocked ==> end == Open && o.consumed == |input|)
            && (!dbUp ==> o.enrolled == [])
    decreases |input|
  {
    if |input| > 0 && input[0] != DISCONNECT && !Incomplete(input, end) && !interrupted {
      RunShape(name, input[StepLength(input)..], end, interrupted, dbUp);
    }
  }

  /** closeAll after setIO succeeded: input, output and socket are all
      closed, then the closing is reported. */
  function CloseMessages(name: string): seq<Message> {
    [ Message(CLOSING_INPUT_LABEL + name, SERVER),
      Message(CLOSING_OUTPUT_LABEL + name, SERVER),
      Message(CLOSING_SOCKET_LABEL + name, SERVER),
      Message(CLOSED_LABEL + name, SERVER) ]
  }

  /** closeAll once the loop has exited: its messages come last. */
  function WithClosing(name: string, o: Outcome): Outcome {
    if Terminal(o.exit) then o.(messages := o.messages + CloseMessages(name)) else o
  }

  /** One burst of a session: the loop runs only while is_connected holds,
      and every exit from the loop runs closeAll in the finally block. */
  function Session(name: string, input: seq<string>, end: InputEnd, interrupted: bool,
                   dbUp: bool, connected: bool): (o: Outcome)
    ensures Terminal(o.exit) ==> |o.messages| >= 4 && o.messages[|o.messages| - 4..] == CloseMessages(name)
    ensures !connected ==> o.exit == Ended && o.consumed == 0 && o.sent == []
  {
    var o := if connected then Run(name, input, end, interrupted, dbUp)
             else Outcome([], [], [], 0, Ended);
    if Terminal(o.exit) then o.(messages := o.messages + CloseMessages(name)) else o
  }

  // ----- a session blocked inside a payload -----

  /** The lines of a command whose payload is not all there yet: a command
      line that takes a payload, and fewer payload lines than it needs. */
  predicate Suspended(lines: seq<string>) {
    |lines| > 0 && 1 + Width(lines[0]) > |lines|
  }

  /** What is left of the input once each complete command at its front
      has been passed over: the command a burst that blocks is reading. */
  function Pending(input: seq<string>): (p: seq<string>)
    ensures |p| <= |input| && p == input[|input| - |p|..]
    decreases |input|
  {
    if |input| > 0 && input[0] != DISCONNECT && 1 + Width(input[0]) <= |input|
    then Pending(input[1 + Width(input[0])..])
    else input
  }

  /** The one pass that runs after is_connected was cleared while the pass
      was waiting: it finishes, and then the loop exits. */
  function LastPass(name: string, input: seq<string>, end: InputEnd, interrupted: bool, dbUp: bool): Outcome {
    var p := OnePass(name, input, end, interrupted, dbUp);
    if p.Stop? then p.outcome else Outcome(p.messages, [], p.stored, p.read, Ended)
  }

  /** Going on from a suspended command, the first pass echoes that
      command again and reads at least the lines it already had. */
  lemma ResumeShape(name: string, pending: seq<string>, more: seq<string>, end: InputEnd,
                    interrupted: bool, dbUp: bool)
    requires Suspended(pending)
    ensures var lines := pending + more;
            var echo := Emit(pending[0], CLIENT);
            var o := Run(name, lines, end, interrupted, dbUp);
            var l := LastPass(name, lines, end, interrupted, dbUp);
            && echo <= o.messages && |pending| <= o.consumed
            && echo <= l.messages && |pending| <= l.consumed
  {
    var lines := pending + more;
    var echo := Emit(pending[0], CLIENT);
    assert lines[0] == pending[0] && pending[0] != DISCONNECT;
    var k := StepLength(lines);
    assert |pending| <= k;
    var first := LineMessages(lines);
    assert echo <= first;
    if Incomplete(lines, end) {
      assert OnePass(name, lines, end, interrupted, dbUp).outcome.messages == echo;
    } else if interrupted {
      assert OnePass(name, lines, end, interrupted, dbUp)
             == Stop(ForcedExit(name, first, LineStored(lines, dbUp), k));
      assert (first + [ForcedMessage(name)])[..|echo|] == first[..|echo|];
    } else {
      assert OnePass(name, lines, end, interrupted, dbUp) == Go(first, LineStored(lines, dbUp), k);
      var rest := Run(name, lines[k..], end, interrupted, dbUp);
      assert Run(name, lines, end, interrupted, dbUp) == Then(first, LineStored(lines, dbUp), k, rest);
      assert (first + rest.messages)[..|echo|] == first[..|echo|];
    }
  }

  /** A burst blocks only on an open stream, inside the command that
      Pending finds. */
  lemma {:induction false} BlockedPending(name: string, input: seq<string>, end: InputEnd,
                                          interrupted: bool, dbUp: bool)
    requires Run(name, input, end, interrupted, dbUp).exit == Blocked
    ensures end == Open && Suspended(Pending(input))
    decreases |input|
  {
    var pass := OnePass(name, input, end, interrupted, dbUp);
    if pass.Stop? {
      assert |input| > 0 && input[0] != DISCONNECT && Incomplete(input, end) && end == Open;
      assert Pending(input) == input;
    } else {
      var k := pass.read;
      assert k == 1 + Width(input[0]) && Run(name, input[k..], end, interrupted, dbUp).exit == Blocked;
      assert Pending(input) == Pending(input[k..]);
      BlockedPending(name, input[k..], end, interrupted, dbUp);
    }
  }

  /** What going on from a suspended command adds to the session: the
      command's echo was already reported and its lines already counted. */
  function Resumed(pending: seq<string>, o: Outcome): Outcome
    requires |pending| > 0 && Emit(pending[0], CLIENT) <= o.messages && |pending| <= o.consumed
  {
    o.(messages := o.messages[|Emit(pending[0], CLIENT)|..], consumed := o.consumed - |pending|)
  }

  /** The rest of a session that was suspended in a command, once the new
      lines arrive: the loop over the command's lines and the new ones (or
      only the pass it was in, when is_connected was cleared meanwhile),
      without what was already reported, and closeAll if the loop exits. */
  function Continue(name: string, pending: seq<string>, more: seq<string>, end: InputEnd,
                    interrupted: bool, dbUp: bool, connected: bool): Outcome
    requires Suspended(pending)
  {
    var lines := pending + more;
    ResumeShape(name, pending, more, end, interrupted, dbUp);
    var o := if connected then Run(name, lines, end, interrupted, dbUp)
             else LastPass(name, lines, end, interrupted, dbUp);
    WithClosing(name, Resumed(pending, o))
  }

  /** Going on from a suspended command is the closed burst over its lines
      and the new ones, less the echo and the lines already counted. */
  lemma ContinueClosed(name: string, pending: seq<string>, more: seq<string>, end: InputEnd,
                       interrupted: bool, dbUp: bool, connected: bool)
    requires Suspended(pending)
    ensures var lines := pending + more;
            var echo := |Emit(pending[0], CLIENT)|;
            var o := if connected then Session(name, lines, end, interrupted, dbUp, true)
                     else WithClosing(name, LastPass(name, lines, end, interrupted, dbUp));
            && echo <= |o.messages| && |pending| <= o.consumed
            && Continue(name, pending, more, end, interrupted, dbUp, connected)
               == o.(messages := o.messages[echo..], consumed := o.consumed - |pending|)
  {
    var lines := pending + more;
    ResumeShape(name, pending, more, end, interrupted, dbUp);
    var o := if connected then Run(name, lines, end, interrupted, dbUp)
             else LastPass(name, lines, end, interrupted, dbUp);
    ResumedWithClosing(name, pending, o);
    assert connected ==> Session(name, lines, end, interrupted, dbUp, true) == WithClosing(name, o);
  }

  /** Dropping the echo and the counted lines, and adding closeAll at the
      end, can be done in either order. */
  lemma ResumedWithClosing(name: string, pending: seq<string>, o: Outcome)
    requires |pending| > 0 && Emit(pending[0], CLIENT) <= o.messages && |pending| <= o.consumed
    ensures var echo := |Emit(pending[0], CLIENT)|;
            var c := WithClosing(name, o);
            && echo <= |c.messages| && |pending| <= c.consumed
            && WithClosing(name, Resumed(pending, o))
               == c.(messages := c.messages[echo..], consumed := c.consumed - |pending|)
  {
    var echo := |Emit(pending[0], CLIENT)|;
    assert (o.messages + CloseMessages(name))[echo..] == o.messages[echo..] + CloseMessages(name);
  }

  /** A complete first command reads the same and reports the same
      whatever follows it. */
  lemma StepExtends(input: seq<string>, more: seq<string>, dbUp: bool)
    requires |input| > 0 && 1 + Width(input[0]) <= |input|
    ensures LineMessages(input + more) == LineMessages(input)
    ensures LineStored(input + more, dbUp) == LineStored(input, dbUp)
    ensures StepLength(input + more) == StepLength(input)
  {
    forall k | 0 <= k <= Width(input[0])
      ensures PayloadLine(input + more, k) == PayloadLine(input, k)
    {
    }
    if input[0] == ENROLL_FINGER {
      assert EnrolleeAt(input + more) == EnrolleeAt(input);
    }
  }

  /** A command complete within the input is read and reported the same
      when more lines follow, and the loop goes on after it over the rest
      and the new lines. */
  lemma RunGoExtends(name: string, input: seq<string>, more: seq<string>, end: InputEnd,
                     interrupted: bool, dbUp: bool)
    requires OnePass(name, input, Open, interrupted, dbUp).Go?
    ensures var pass := OnePass(name, input, Open, interrupted, dbUp);
            && pass.read == 1 + Width(input[0])
            && Run(name, input + more, end, interrupted, dbUp)
               == Then(pass.messages, pass.stored, pass.read, Run(name, input[pass.read..] + more, end, interrupted, dbUp))
  {
    var k := OnePass(name, input, Open, interrupted, dbUp).read;
    StepExtends(input, more, dbUp);
    assert (input + more)[k..] == input[k..] + more;
  }

  /** Lines that arrive in two bursts are served as if they had arrived in
      one: a burst that blocks inside a command, followed by going on from
      that command over the new lines, reports, stores, sends and reads
      what one burst over all the lines does, and ends the same way. */
  lemma {:induction false} RunResumes(name: string, input: seq<string>, more: seq<string>, end: InputEnd,
                                      interrupted: bool, dbUp: bool)
    requires Run(name, input, Open, interrupted, dbUp).exit == Blocked
    ensures Suspended(Pending(input))
    ensures var p := Pending(input);
            var o := Run(name, p + more, end, interrupted, dbUp);
            Emit(p[0], CLIENT) <= o.messages && |p| <= o.consumed
    ensures var first := Run(name, input, Open, interrupted, dbUp);
            var p := Pending(input);
            Run(name, input + more, end, interrupted, dbUp)
            == Then(first.messages, first.enrolled, first.consumed,
                    Resumed(p, Run(name, p + more, end, interrupted, dbUp)))
    decreases |input|
  {
    var pass := OnePass(name, input, Open, interrupted, dbUp);
    if pass.Stop? {
      ResumeAtBlock(name, input, more, end, interrupted, dbUp);
      ResumedUndo(input, Run(name, input + more, end, interrupted, dbUp));
    } else {
      var k := pass.read;
      RunGoExtends(name, input, more, end, interrupted, dbUp);
      assert Pending(input) == Pending(input[k..]);
      RunResumes(name, input[k..], more, end, interrupted, dbUp);
      var p := Pending(input);
      var later := Run(name, input[k..], Open, interrupted, dbUp);
      assert Run(name, input, Open, interrupted, dbUp) == Then(pass.messages, pass.stored, k, later);
      ResumeStep(Run(name, input + more, end, interrupted, dbUp), Run(name, input[k..] + more, end, interrupted, dbUp),
                 Resumed(p, Run(name, p + more, end, interrupted, dbUp)), Run(name, input, Open, interrupted, dbUp),
                 later, pass.messages, pass.stored, k);
    }
  }

  /** A burst whose first pass blocks has read the whole input, echoed its
      first line and nothing else. */
  lemma ResumeAtBlock(name: string, input: seq<string>, more: seq<string>, end: InputEnd,
                      interrupted: bool, dbUp: bool)
    requires OnePass(name, input, Open, interrupted, dbUp).Stop?
    requires Run(name, input, Open, interrupted, dbUp).exit == Blocked
    ensures Suspended(input) && Pending(input) == input
    ensures Run(name, input, Open, interrupted, dbUp) == Outcome(Emit(input[0], CLIENT), [], [], |input|, Blocked)
    ensures var o := Run(name, input + more, end, interrupted, dbUp);
            Emit(input[0], CLIENT) <= o.messages && |input| <= o.consumed
  {
    assert |input| > 0 && input[0] != DISCONNECT && Incomplete(input, Open);
    ResumeShape(name, input, more, end, interrupted, dbUp);
  }

  /** Putting back the echo and the counted lines undoes Resumed. */
  lemma ResumedUndo(pending: seq<string>, o: Outcome)
    requires |pending| > 0 && Emit(pending[0], CLIENT) <= o.messages && |pending| <= o.consumed
    ensures Then(Emit(pending[0], CLIENT), [], |pending|, Resumed(pending, o)) == o
  {
    var echo := Emit(pending[0], CLIENT);
    assert echo + o.messages[|echo|..] == o.messages;
  }

  /** One more iteration in front of both the single burst and the first
      of the two bursts keeps them related. */
  lemma ResumeStep(whole: Outcome, mid: Outcome, r: Outcome, first: Outcome, later: Outcome,
                   messages: seq<Message>, stored: seq<Enrollee>, read: nat)
    requires whole == Then(messages, stored, read, mid)
    requires mid == Then(later.messages, later.enrolled, later.consumed, r)
    requires first == Then(messages, stored, read, later)
    ensures whole == Then(first.messages, first.enrolled, first.consumed, r)
  {
    Compose(whole, mid, r, messages, stored, read, later.messages, later.enrolled, later.consumed);
  }

  /** The same for whole sessions: a burst that blocks inside a command,
      then the rest of the session once the new lines arrive, is one burst
      over all the lines, closeAll included. */
  lemma SessionResumes(name: string, input: seq<string>, more: seq<string>, end: InputEnd,
                       interrupted: bool, dbUp: bool)
    requires Session(name, input, Open, interrupted, dbUp, true).exit == Blocked
    ensures Suspended(Pending(input))
    ensures var first := Session(name, input, Open, interrupted, dbUp, true);
            Session(name, input + more, end, interrupted, dbUp, true)
            == Then(first.messages, first.enrolled, first.consumed,
                    Continue(name, Pending(input), more, end, interrupted, dbUp, true))
  {
    RunResumes(name, input, more, end, interrupted, dbUp);
    var first := Run(name, input, Open, interrupted, dbUp);
    var p := Pending(input);
    var r := Resumed(p, Run(name, p + more, end, interrupted, dbUp));
    SessionClosesRun(name, input, Open, interrupted, dbUp);
    SessionClosesRun(name, input + more, end, interrupted, dbUp);
    assert Continue(name, p, more, end, interrupted, dbUp, true) == WithClosing(name, r);
    ThenWithClosing(name, first.messages, first.enrolled, first.consumed, r);
  }

  /** A connected session is its loop's burst followed by closeAll. */
  lemma SessionClosesRun(name: string, input: seq<string>, end: InputEnd, interrupted: bool, dbUp: bool)
    ensures Session(name, input, end, interrupted, dbUp, true)
            == WithClosing(name, Run(name, input, end, interrupted, dbUp))
  {
  }

  /** closeAll after what follows an earlier iteration comes at the end of
      the whole. */
  lemma ThenWithClosing(name: string, messages: seq<Message>, stored: seq<Enrollee>, read: nat, o: Outcome)
    ensures WithClosing(name, Then(messages, stored, read, o))
            == Then(messages, stored, read, WithClosing(name, o))
  {
    assert messages + (o.messages + CloseMessages(name)) == (messages + o.messages) + CloseMessages(name);
  }

  // ----- a database failure does not change the session -----

  /** The insert into user_info may fail: the SQLException is caught and
      the session goes on exactly as if it had succeeded, only without the
      stored record. */
  lemma {:induction false} DatabaseFailureIgnored(name: string, input: seq<string>, end: InputEnd,
                                                 interrupted: bool)
    ensures var up := Run(name, input, end, interrupted, true);
            var down := Run(name, input, end, interrupted, false);
            && down.messages == up.messages && down.sent == up.sent
            && down.consumed == up.consumed && down.exit == up.exit
            && down.enrolled == []
    decreases |input|
  {
    if |input| > 0 && input[0] != DISCONNECT && !Incomplete(input, end) && !interrupted {
      DatabaseFailureIgnored(name, input[StepLength(input)..], end, interrupted);
    }
  }

  // ----- frames: the device's side of the protocol -----

  /** One event a device reports: a line of chatter, the end of the
      connection, an enrolment with its payload, or a scan match. */
  datatype Frame = Chatter(line: string) | Disconnect | Enroll(e: Enrollee) | Scan(id: string)

  /** Chatter is any line that is not one of the three command words. */
  predicate WellFormed(f: Frame) {
    f.Chatter? ==> f.line != DISCONNECT && f.line != ENROLL_FINGER && f.line != SCAN_FINGER
  }

  /** The lines a device writes for a frame. */
  function FrameLines(f: Frame): (ls: seq<string>)
    ensures |ls| >= 1
  {
    match f
    case Chatter(line) => [line]
    case Disconnect => [DISCONNECT]
    case Enroll(e) => [ENROLL_FINGER, e.firstName, e.middleName, e.lastName, e.age,
                       e.gender, e.phoneNumber, e.address, e.fingerprintId]
    case Scan(id) => [SCAN_FINGER, id]
  }

  /** Width reads a frame's length off its first line: a well-formed
      frame is its command line and exactly Width of it payload lines, and
      the width tells an enrolment from a scan from a one-line frame. */
  lemma FrameWidth(f: Frame)
    requires WellFormed(f)
    ensures |FrameLines(f)| == 1 + Width(FrameLines(f)[0])
    ensures Width(FrameLines(f)[0]) == 8 <==> f.Enroll?
    ensures Width(FrameLines(f)[0]) == 1 <==> f.Scan?
  {
  }

  function Encode(frames: seq<Frame>): seq<string> {
    if frames == [] then [] else FrameLines(frames[0]) + Encode(frames[1..])
  }

  /** What the server reports for a frame, echo included. */
  function FrameMessages(f: Frame): seq<Message> {
    match f
    case Chatter(line) => Emit(line, CLIENT)
    case Disconnect => [Message(DISCONNECT, CLIENT)]
    case Enroll(e) => [Message(ENROLL_FINGER, CLIENT)] + EnrollMessages(e)
    case Scan(id) => [Message(SCAN_FINGER, CLIENT), ScanMessage(id)]
  }

  function FrameStored(f: Frame, dbUp: bool): seq<Enrollee> {
    if f.Enroll? && dbUp then [f.e] else []
  }

  function FramesMessages(frames: seq<Frame>): seq<Message> {
    if frames == [] then [] else FrameMessages(frames[0]) + FramesMessages(frames[1..])
  }

  function FramesStored(frames: seq<Frame>, dbUp: bool): seq<Enrollee> {
    if frames == [] then [] else FrameStored(frames[0], dbUp) + FramesStored(frames[1..], dbUp)
  }

  /** A frame other than Disconnect, followed by any further input, is one
      iteration of the loop: it reads exactly the frame's lines, takes the
      payload lines in order, and never dispatches on them. */
  lemma FrameStep(name: string, f: Frame, after: seq<string>, end: InputEnd, dbUp: bool)
    requires WellFormed(f) && !f.Disconnect?
    ensures Run(name, FrameLines(f) + after, end, false, dbUp)
         == Then(FrameMessages(f), FrameStored(f, dbUp), |FrameLines(f)|,
                 Run(name, after, end, false, dbUp))
  {
    var input := FrameLines(f) + after;
    assert input[0] == FrameLines(f)[0];
    assert StepLength(input) == |FrameLines(f)|;
    assert input[StepLength(input)..] == after;
    if f.Enroll? {
      assert EnrolleeAt(input) == f.e;
    } else if f.Scan? {
      assert PayloadLine(input, 1) == f.id;
    }
    assert LineMessages(input) == FrameMessages(f);
    assert LineStored(input, dbUp) == FrameStored(f, dbUp);
  }

  /** Two iterations in a row: their messages, records and line counts
      add up. */
  lemma Compose(here: Outcome, mid: Outcome, o: Outcome, m1: seq<Message>, s1: seq<Enrollee>, k1: nat,
                m2: seq<Message>, s2: seq<Enrollee>, k2: nat)
    requires here == Then(m1, s1, k1, mid) && mid == Then(m2, s2, k2, o)
    ensures here == Then(m1 + m2, s1 + s2, k1 + k2, o)
  {
    assert m1 + (m2 + o.messages) == (m1 + m2) + o.messages;
    assert s1 + (s2 + o.enrolled) == (s1 + s2) + o.enrolled;
  }

  /** The frames of an encoding are processed one after another: a run over
      well-formed frames without a Disconnect reports each frame's messages
      in order, stores each enrolment, and carries on after their lines. */
  lemma {:induction false} RunFrames(name: string, frames: seq<Frame>, after: seq<string>,
                                     end: InputEnd, dbUp: bool)
    requires forall i :: 0 <= i < |frames| ==> WellFormed(frames[i]) && !frames[i].Disconnect?
    ensures Run(name, Encode(frames) + after, end, false, dbUp)
         == Then(FramesMessages(frames), FramesStored(frames, dbUp), |Encode(frames)|,
                 Run(name, after, end, false, dbUp))
    decreases |frames|
  {
    if frames == [] {
      assert Encode(frames) + after == after;
      assert FramesMessages(frames) + Run(name, after, end, false, dbUp).messages
          == Run(name, after, end, false, dbUp).messages;
    } else {
      var f := frames[0];
      var tail := Encode(frames[1..]) + after;
      assert Encode(frames) + after == FrameLines(f) + tail;
      FrameStep(name, f, tail, end, dbUp);
      RunFrames(name, frames[1..], after, end, dbUp);
      ghost var here := Run(name, FrameLines(f) + tail, end, false, dbUp);
      ghost var mid := Run(name, tail, end, false, dbUp);
      ghost var there := Run(name, after, end, false, dbUp);
      Compose(here, mid, there, FrameMessages(f), FrameStored(f, dbUp), |FrameLines(f)|,
              FramesMessages(frames[1..]), FramesStored(frames[1..], dbUp), |Encode(frames[1..])|);
    }
  }

  /** A Disconnect frame ends the session: whatever frames came before it,
      nothing after its line is read, and neither the later lines nor how
      the stream ends make any difference. */
  lemma DisconnectEnds(name: string, frames: seq<Frame>, after: seq<string>, end: InputEnd, dbUp: bool)
    requires forall i :: 0 <= i < |frames| ==> WellFormed(frames[i]) && !frames[i].Disconnect?
    ensures var o := Run(name, Encode(frames) + [DISCONNECT] + after, end, false, dbUp);
            && o.exit == Ended
            && o.consumed == |Encode(frames)| + 1
            && o.messages == FramesMessages(frames) + [Message(DISCONNECT, CLIENT), ClosingMessage(name)]
            && o.enrolled == FramesStored(frames, dbUp)
            && o == Run(name, Encode(frames) + [DISCONNECT], Open, false, dbUp)
  {
    var e := Encode(frames);
    assert e + [DISCONNECT] + after == e + ([DISCONNECT] + after);
    RunFrames(name, frames, [DISCONNECT] + after, end, dbUp);
    RunFrames(name, frames, [DISCONNECT], Open, dbUp);
    assert ([DISCONNECT] + after)[0] == DISCONNECT;
  }

  /** What the server reads back is exactly what the device wrote: every
      well-formed sequence of frames that does not disconnect is read
      completely, every enrolment is stored in order when the database is
      up, and the session then waits for more input. */
  lemma EncodedFramesRead(name: string, frames: seq<Frame>, dbUp: bool)
    requires forall i :: 0 <= i < |frames| ==> WellFormed(frames[i]) && !frames[i].Disconnect?
    ensures Run(name, Encode(frames), Open, false, dbUp)
         == Outcome(FramesMessages(frames), [], FramesStored(frames, dbUp), |Encode(frames)|, Idle)
  {
    assert Encode(frames) + [] == Encode(frames);
    RunFrames(name, frames, [], Open, dbUp);
  }
}
