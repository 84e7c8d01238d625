/** CommandExecutor.execute: the operator console's command router, over
    any command table, together with the parts of MainWindow it drives
    (the server manager it starts and stops, and the current event
    record). The enroll window, the database and the login window are
    answers the router receives (World); debugLog's printing is not
    modelled. */
module Router {
  import opened Text
  import opened Log
  import opened CommandMatch
  import opened Protocol
  import opened Server
  import opened EnrollForm
  import opened ExportQuery
  import opened Exporter
  import Const

  const NOT_RECOGNIZED: Message :=
    Message("Not a recognizable command. See list of available commands.", INVALID)
  const SERVER_NULL: Message := Message("Server is null. Run the server at least once.", INVALID)
  const SERVER_CLOSED: Message := Message("Server must be running before executing this command.", INVALID)
  const INVALID_SYNTAX: Message := Message("Invalid syntax.", INVALID)
  const CLIENT_MISSING: Message := Message("Client does not exist.", INVALID)
  const FOUND_SUFFIX: string := " found!"
  const NO_CLIENTS: Message := Message("No clients found.", ERROR)
  const MISSING_ARGUMENT: Message := Message("Missing argument.", ERROR)
  const INVALID_DATE: Message := Message("Invalid date format. {yyyy-mm-dd}", INVALID)
  const DATA_NULL: Message := Message("Data is null. Check if database tables exist.", ERROR)
  const EXPORT_LABEL: string := "Export: "
  const EVENT_UPDATED: Message := Message("Event data updated.", INFO)
  const MISSING_ARGUMENTS: Message := Message("Missing arguments.", ERROR)
  const SOCKET_IN_USE: Message :=
    Message("Error opening socket. The server may already be running in another process.", ERROR)
  const BAD_ADDRESS: Message :=
    Message("Invalid hostname or port. The hostname is either null or the port is out of range.", ERROR)
  const NO_SERVER_TO_STOP: Message := Message("Server is null. Start the server first.", ERROR)
  const STOP_FAILED: Message := Message("Error when closing server.", ERROR)
  const ENROLL: string := "enroll"
  const REBOOT: string := "reboot"
  const UNSPECIFIED: string := "Unspecified"

  /** The offsets at which enroll, disconnect and reboot take the name. */
  const ENROLL_AT: nat := 7
  const DISCONNECT_AT: nat := 11
  const REBOOT_AT: nat := 7

  /** How binding the new server socket ends: bound, an IOException (the
      port is taken), or an IllegalArgumentException (bad host or port). */
  datatype BindResult = Bound | SocketError | BadAddress

  /** What the rest of the application answers while a command runs: the
      login window's port, how binding a socket to it ends, the enroll
      window once it closes (None unless Submit was pressed), whether
      initTables succeeds, and what the attendance query returns (None for
      the null it gives when the query fails). */
  datatype World = World(port: int, bind: BindResult, form: Option<FormValues>,
                         initTablesOk: bool, attendance: Option<seq<string>>)

  // ----- the checks -----

  /** checkValidServer: the INVALID report, or nothing when the server
      exists and its socket is open. */
  function ServerCheck(server: ServerManager?): (r: seq<Message>)
    reads server
    ensures r == [] <==> server != null && !server.IsClosed()
    ensures server == null ==> r == [SERVER_NULL]
    ensures server != null && server.IsClosed() ==> r == [SERVER_CLOSED]
  {
    if server == null then [SERVER_NULL]
    else if server.IsClosed() then [SERVER_CLOSED]
    else []
  }

  /** checkValidSyntax: "Invalid syntax." when the input is shorter than
      the command needs. */
  function SyntaxCheck(input: string, validLength: nat): (r: seq<Message>)
    ensures r == [] <==> |input| >= validLength
    ensures r != [] ==> r == [INVALID_SYNTAX]
  {
    if |input| < validLength then [INVALID_SYNTAX] else []
  }

  /** The index of the first client with the given name, or -1. */
  function FirstNamed(clients: seq<FSClient>, target: string): (k: int)
    ensures -1 <= k < |clients|
    ensures k >= 0 ==> clients[k].name == target
    ensures forall j :: 0 <= j < |clients| && (k < 0 || j < k) ==> clients[j].name != target
    decreases |clients|
  {
    if clients == [] then -1
    else if clients[0].name == target then 0
    else
      var k := FirstNamed(clients[1..], target);
      if k < 0 then -1 else k + 1
  }

  /** Skipping clients without the name does not change the search. */
  lemma {:induction false} FirstNamedSuffix(clients: seq<FSClient>, target: string, i: nat)
    requires i <= |clients|
    requires forall j :: 0 <= j < i ==> clients[j].name != target
    ensures var k := FirstNamed(clients[i..], target);
            FirstNamed(clients, target) == (if k < 0 then -1 else k + i)
    decreases i
  {
    if i > 0 {
      assert clients[1..][i - 1..] == clients[i..];
      FirstNamedSuffix(clients[1..], target, i - 1);
    }
  }

  /** findClient: the registry is scanned in order for the exact name; the
      first client carrying it is reported and returned; null stands for
      the NullPointerException thrown when none does. */
  method FindClient(server: ServerManager, target: string) returns (client: FSClient?, messages: seq<Message>)
    ensures var k := FirstNamed(server.fsclients, target);
            && client == (if k < 0 then null else server.fsclients[k])
            && messages == (if k < 0 then [] else [Message(target + FOUND_SUFFIX, INFO)])
  {
    var clients := server.fsclients;
    for i := 0 to |clients|
      invariant forall j :: 0 <= j < i ==> clients[j].name != target
    {
      if target == clients[i].name {
        assert FirstNamed(clients[i..], target) == 0;
        FirstNamedSuffix(clients, target, i);
        return clients[i], [Message(clients[i].name + FOUND_SUFFIX, INFO)];
      }
    }
    FirstNamedSuffix(clients, target, |clients|);
    return null, [];
  }

  /** The client a command naming a client reaches: the server must exist
      and be open, the input must reach the name at offset `at`, and the
      rest of the input must be the name of a registered client. */
  function Resolution(server: ServerManager?, input: string, at: nat): (client: FSClient?)
    reads server
    ensures client != null ==> server != null && client in server.fsclients && |input| >= at && client.name == input[at..]
    ensures client == null && server != null && !server.IsClosed() && |input| >= at ==>
              forall c :: c in server.fsclients ==> c.name != input[at..]
  {
    if ServerCheck(server) != [] || SyntaxCheck(input, at) != [] then null
    else
      var k := FirstNamed(server.fsclients, input[at..]);
      if k < 0 then null else server.fsclients[k]
  }

  /** What the gate reports: the first failing check alone, or the
      "found!" line. */
  function GateReport(server: ServerManager?, input: string, at: nat): (r: seq<Message>)
    reads server
    ensures |r| == 1
    ensures r[0].kind == INFO <==> Resolution(server, input, at) != null
    ensures Resolution(server, input, at) != null ==> r[0].text == input[at..] + FOUND_SUFFIX
  {
    var checks := ServerCheck(server) + SyntaxCheck(input, at);
    if checks != [] then [checks[0]]
    else if Resolution(server, input, at) == null then [CLIENT_MISSING]
    else [Message(input[at..] + FOUND_SUFFIX, INFO)]
  }

  /** The gate shared by enroll, disconnect and reboot, as the cases run
      it: the checks in order, stopping at the first that fails. */
  method Target(server: ServerManager?, input: string, at: nat) returns (client: FSClient?, messages: seq<Message>)
    ensures client == Resolution(server, input, at)
    ensures messages == GateReport(server, input, at)
  {
    messages := ServerCheck(server);
    if messages != [] {
      return null, messages;
    }
    messages := SyntaxCheck(input, at);
    if messages != [] {
      return null, messages;
    }
    client, messages := FindClient(server, input[at..]);
    if client == null {
      messages := [CLIENT_MISSING];
    }
  }

  // ----- what the cases send and report -----

  /** The lines an enrolment sends the device, in order. */
  function EnrollCommands(f: FormValues): (lines: seq<string>)
    ensures |lines| == 9 && lines[0] == ENROLL && lines[1] == IntToString(f.fingerprintId)
    ensures lines[2..] == [f.firstName, f.middleName, f.lastName, f.age, f.gender, f.phoneNumber, f.address]
  {
    [ENROLL, IntToString(f.fingerprintId), f.firstName, f.middleName, f.lastName,
     f.age, f.gender, f.phoneNumber, f.address]
  }

  /** sendCommand ends each line with a newline. */
  function Terminated(lines: seq<string>): (r: seq<string>)
    ensures |r| == |lines| && forall k :: 0 <= k < |lines| ==> r[k] == lines[k] + "\n"
  {
    seq(|lines|, k requires 0 <= k < |lines| => lines[k] + "\n")
  }

  /** The nine lines as they reach the device. */
  function EnrollLines(f: FormValues): (r: seq<string>)
    ensures r == Terminated(EnrollCommands(f))
  {
    [ENROLL + "\n", IntToString(f.fingerprintId) + "\n", f.firstName + "\n", f.middleName + "\n",
     f.lastName + "\n", f.age + "\n", f.gender + "\n", f.phoneNumber + "\n", f.address + "\n"]
  }

  /** The "clients info" line of one client. */
  function ClientLine(c: FSClient): Message {
    Message("|#| " + c.name + " | " + c.address + "|#|", INFO)
  }

  /** initTables' outcome as the router reports it. */
  function InitTablesMessage(ok: bool): (m: Message)
    ensures m.kind == (if ok then INFO else ERROR)
  {
    if ok then Message("Init Database OK", INFO) else Message("Init Database FAIL", ERROR)
  }

  /** The two lines of "event see". */
  function EventReport(name: string, location: string): seq<Message> {
    [Message("Current Event Name: " + name, INFO), Message("Current Event Location: " + location, INFO)]
  }

  /** The export mode is the single character at index 7. */
  function ExportMode(input: string): string
    requires |input| >= 8
  {
    input[7..8]
  }

  /** Mode 1 with a date the pattern accepts but Date.valueOf throws on (a
      day of 0, 00 or 32 to 99): nothing catches that exception, so it
      leaves the router. */
  predicate ExportDateThrows(input: string) {
    |input| >= 9 && ExportMode(input) == "1" && IsDateText(input[9..]) && DateValueOf(input[9..]).None?
  }

  // ----- the cases' effects -----

  /** Appending the nine lines one at a time appends EnrollLines. */
  lemma EnrollAppend(before: seq<string>, f: FormValues)
    ensures before + [ENROLL + "\n"] + [IntToString(f.fingerprintId) + "\n"] + [f.firstName + "\n"]
              + [f.middleName + "\n"] + [f.lastName + "\n"] + [f.age + "\n"] + [f.gender + "\n"]
              + [f.phoneNumber + "\n"] + [f.address + "\n"]
            == before + EnrollLines(f)
  {
  }

  /** The nine lines of an enrolment go out one sendCommand at a time. */
  method SendEnrollment(client: FSClient, f: FormValues)
    requires client.phase == Serving || client.phase == Reading
    modifies client
    ensures client.outbox == old(client.outbox) + EnrollLines(f)
    ensures client.phase == old(client.phase) && client.isConnected == old(client.isConnected)
  {
    var m;
    m := client.SendCommand(ENROLL);
    m := client.SendCommand(IntToString(f.fingerprintId));
    m := client.SendCommand(f.firstName);
    m := client.SendCommand(f.middleName);
    m := client.SendCommand(f.lastName);
    m := client.SendCommand(f.age);
    m := client.SendCommand(f.gender);
    m := client.SendCommand(f.phoneNumber);
    m := client.SendCommand(f.address);
    EnrollAppend(old(client.outbox), f);
  }

  /** Case 5: the registry is read before the server is checked, so a
      null server throws (failed); an open server with no clients reports
      that; otherwise one line per client, in registry order. */
  method ClientsInfo(server: ServerManager?) returns (messages: seq<Message>, failed: bool)
    ensures failed <==> server == null
    ensures server == null ==> messages == []
    ensures server != null && server.IsClosed() ==> messages == [SERVER_CLOSED]
    ensures server != null && !server.IsClosed() && server.fsclients == [] ==> messages == [NO_CLIENTS]
    ensures server != null && !server.IsClosed() && server.fsclients != [] ==>
              |messages| == |server.fsclients|
              && forall k :: 0 <= k < |messages| ==> messages[k] == ClientLine(server.fsclients[k])
  {
    if server == null {
      return [], true;
    }
    var clients := server.fsclients;
    failed := false;
    messages := ServerCheck(server);
    if messages != [] {
      return;
    }
    if |clients| == 0 {
      return [NO_CLIENTS], false;
    }
    for i := 0 to |clients|
      invariant |messages| == i && forall k :: 0 <= k < i ==> messages[k] == ClientLine(clients[k])
    {
      messages := messages + [ClientLine(clients[i])];
    }
  }

  /** Case 8. The mode is the character at index 7, taken before the try
      block, so a shorter input throws out of the router (failed). For mode
      "1" the date is everything from index 9, and an input of exactly 8
      characters reports "Missing argument."; a rejected date is reported
      before the database is asked (queried says whether it was), and an
      accepted one Date.valueOf throws on leaves the router; a null
      answer is reported; otherwise the rows go to a new file named after
      the date. Modes 2 to 4 do nothing yet; any other mode is invalid. */
  method Export(input: string, attendance: Option<seq<string>>, dir: Directory)
    returns (messages: seq<Message>, queried: bool, failed: bool)
    modifies dir
    ensures failed <==> |input| < 8 || ExportDateThrows(input)
    ensures failed ==> messages == []
    ensures queried <==>
              |input| >= 9 && ExportMode(input) == "1" && IsDateText(input[9..]) && DateValueOf(input[9..]).Some?
    ensures |input| == 8 && ExportMode(input) == "1" ==> messages == [MISSING_ARGUMENT]
    ensures |input| >= 9 && ExportMode(input) == "1" && !IsDateText(input[9..]) ==> messages == [INVALID_DATE]
    ensures queried && attendance.None? ==> messages == [DATA_NULL]
    ensures |input| >= 8 && ExportMode(input) in {"2", "3", "4"} ==> messages == []
    ensures |input| >= 8 && ExportMode(input) !in {"1", "2", "3", "4"} ==> messages == [INVALID_SYNTAX]
    ensures !(queried && attendance.Some?) ==> dir.files == old(dir.files)
    ensures queried && attendance.Some? ==>
              exists n: nat ::
                && Candidate(input[9..], n) !in old(dir.files)
                && (forall j :: 0 <= j < n ==> Candidate(input[9..], j) in old(dir.files))
                && dir.files == old(dir.files)[Candidate(input[9..], n) := Content(attendance.value)]
                && messages == [Message(EXPORT_LABEL + Candidate(input[9..], n), INFO)]
  {
    queried, failed := false, false;
    if |input| < 8 {
      return [], false, true;
    }
    var exportType := input[7..8];
    if exportType == "1" {
      if |input| < 9 {
        return [MISSING_ARGUMENT], false, false;
      }
      var date := input[9..];
      var exportData := new TempExportQueryData();
      var validFormat, thrown := exportData.BuildDate(date);
      if thrown {
        return [], false, true;
      }
      if !validFormat {
        return [INVALID_DATE], false, false;
      }
      queried := true;
      if attendance.None? {
        return [DATA_NULL], true, false;
      }
      var filename, n := dir.BuildAttendanceCsv(date, attendance.value);
      messages := [Message(EXPORT_LABEL + filename, INFO)];
    } else if exportType == "2" || exportType == "3" || exportType == "4" {
      messages := [];
    } else {
      messages := [INVALID_SYNTAX];
    }
  }

  /** EventData (its class is not part of this model): the current event's
      name and location, with their setters. */
  class EventData {
    var currentEventName: string
    var currentEventLocation: string

    /** MainWindow's init: both fields set to "Unspecified". */
    constructor()
      ensures currentEventName == UNSPECIFIED && currentEventLocation == UNSPECIFIED
    {
      currentEventName := UNSPECIFIED;
      currentEventLocation := UNSPECIFIED;
    }

    method SetCurrentEventName(name: string)
      modifies this
      ensures currentEventName == name && currentEventLocation == old(currentEventLocation)
    {
      currentEventName := name;
    }

    method SetCurrentEventLocation(location: string)
      modifies this
      ensures currentEventLocation == location && currentEventName == old(currentEventName)
    {
      currentEventLocation := location;
    }

    /** Case 10: the input is split on single spaces; tokens 2 and 3
        become the name and the location, both or neither; with fewer than
        four tokens the lookup throws before either setter runs. */
    method EventNew(input: string) returns (messages: seq<Message>)
      modifies this
      ensures var tokens := Split(input, ' ');
              && (|tokens| >= 4 ==> currentEventName == tokens[2] && currentEventLocation == tokens[3]
                                    && messages == [EVENT_UPDATED])
              && (|tokens| < 4 ==> currentEventName == old(currentEventName)
                                   && currentEventLocation == old(currentEventLocation)
                                   && messages == [MISSING_ARGUMENTS])
    {
      var inputToken := Split(input, ' ');
      if |inputToken| < 4 {
        return [MISSING_ARGUMENTS];
      }
      var newName, newLoc := inputToken[2], inputToken[3];
      SetCurrentEventName(newName);
      SetCurrentEventLocation(newLoc);
      messages := [EVENT_UPDATED];
    }
  }

  /** With the shipped command table only ids 0 to 3 are ever chosen, so
      cases 4 to 10 are reached only through a longer table. */
  lemma ShippedTableIds(input: string)
    ensures 0 <= FirstMatch(Const.COMMANDS, input) <= 3
  {
    FirstMatchSpec(Const.COMMANDS, input);
  }

  /** "event new NAME LOCATION" with a space-free, non-empty name and
      location splits into exactly the four tokens case 10 reads. */
  lemma EventNewTokens(name: string, location: string)
    requires name != "" && location != ""
    requires ' ' !in name && ' ' !in location
    ensures Split("event new " + name + " " + location, ' ') == ["event", "new", name, location]
  {
    var parts := ["event", "new", name, location];
    assert Join(parts, ' ') == "event new " + name + " " + location by {
      assert parts[1..][1..][1..] == [location];
      assert Join(parts[1..][1..], ' ') == name + [' '] + location;
    }
    SplitJoin(parts, ' ');
  }

  /** The lines a client-directed case sends its target: the enrolment
      when the form was submitted, "disconnect", "reboot". */
  function Delivery(id: int, form: Option<FormValues>): seq<string> {
    if id == 3 then (if form.Some? then EnrollLines(form.value) else [])
    else if id == 4 then [DISCONNECT + "\n"]
    else if id == 6 then [REBOOT + "\n"]
    else []
  }

  /** The cases that reach a client by name: enroll, disconnect, reboot. */
  predicate ReachesClient(id: int) {
    id == 3 || id == 4 || id == 6
  }

  /** Where each client-directed case takes the name from. */
  function NameAt(id: int): nat {
    if id == 4 then DISCONNECT_AT else if id == 3 then ENROLL_AT else REBOOT_AT
  }

  /** What cases 3, 4 and 6 do to the client they resolved: the
      enrolment (only once the form was submitted), "disconnect" followed
      by disconnect(), or "reboot". */
  method Deliver(client: FSClient, id: int, form: Option<FormValues>)
    requires ReachesClient(id)
    requires client.phase == Serving || client.phase == Reading
    modifies client
    ensures client.outbox == old(client.outbox) + Delivery(id, form)
    ensures client.isConnected == (old(client.isConnected) && id != 4)
    ensures client.phase == old(client.phase)
  {
    if id == 3 {
      if form.Some? {
        SendEnrollment(client, form.value);
      }
    } else if id == 4 {
      var m := client.SendCommand(DISCONNECT);
      client.Disconnect();
    } else {
      var m := client.SendCommand(REBOOT);
    }
  }

  // ----- MainWindow as the router sees it -----

  class App {
    var serverManager: ServerManager?
    const eventData: EventData

    /** The clients of the current server. */
    function Registered(): set<FSClient>
      reads this, serverManager
    {
      if serverManager == null then {} else set c | c in serverManager.fsclients
    }

    /** The registry of the current server, if any, is well formed. */
    predicate Valid()
      reads this, serverManager, Registered()
    {
      serverManager != null ==> serverManager.Valid()
    }

    /** No server yet, and the event record initialised. */
    constructor()
      ensures serverManager == null && fresh(eventData)
      ensures eventData.currentEventName == UNSPECIFIED && eventData.currentEventLocation == UNSPECIFIED
      ensures Valid()
    {
      serverManager := null;
      eventData := new EventData();
    }

    /** start_server: a new server manager bound to the port replaces the
        old one, and its thread starts running; when binding throws, the
        error is reported and the old manager stays. */
    method StartServer(port: int, bind: BindResult) returns (messages: seq<Message>)
      requires Valid()
      modifies this
      ensures bind == Bound ==>
                && fresh(serverManager) && serverManager.port == port && serverManager.fsclients == []
                && serverManager.isRunning && !serverManager.IsClosed() && messages == []
      ensures bind == SocketError ==> serverManager == old(serverManager) && messages == [SOCKET_IN_USE]
      ensures bind == BadAddress ==> serverManager == old(serverManager) && messages == [BAD_ADDRESS]
      ensures Valid()
    {
      match bind
      case Bound =>
        var manager := new ServerManager(port);
        manager.Start();
        serverManager := manager;
        messages := [];
      case SocketError =>
        messages := [SOCKET_IN_USE];
      case BadAddress =>
        messages := [BAD_ADDRESS];
    }

    /** stop_server: a missing manager is reported and turned into the
        IOException the handler reports; otherwise stopServer runs, and its
        refusal (the server is not running) is reported the same way. */
    method StopServer() returns (messages: seq<Message>)
      requires Valid()
      modifies serverManager
      ensures serverManager == null ==> messages == [NO_SERVER_TO_STOP, STOP_FAILED]
      ensures serverManager != null && old(serverManager.isRunning) ==>
                && messages == [Message("Closing server...", WARNING)]
                && !serverManager.isRunning && serverManager.IsClosed()
      ensures serverManager != null && !old(serverManager.isRunning) ==>
                && messages == [Message("Server is currently not running.", ERROR), STOP_FAILED]
                && serverManager.socketClosed == old(serverManager.socketClosed)
      ensures serverManager != null ==> serverManager.fsclients == old(serverManager.fsclients)
      ensures Valid()
    {
      if serverManager == null {
        return [NO_SERVER_TO_STOP, STOP_FAILED];
      }
      var ok;
      ok, messages := serverManager.StopServer();
      if !ok {
        messages := messages + [STOP_FAILED];
      }
    }

    /** Cases 1 and 2: start_server and stop_server. Neither touches a
        client. */
    method ServerCommand(id: int, world: World) returns (messages: seq<Message>)
      requires id == 1 || id == 2
      requires Valid()
      modifies this, serverManager
      ensures Valid()
      ensures id == 1 ==> (world.bind == Bound <==> serverManager != old(serverManager))
      ensures id == 1 && world.bind == Bound ==>
                && fresh(serverManager) && serverManager.port == world.port && serverManager.fsclients == []
                && serverManager.isRunning && !serverManager.IsClosed() && messages == []
      ensures id == 1 && world.bind == SocketError ==> messages == [SOCKET_IN_USE]
      ensures id == 1 && world.bind == BadAddress ==> messages == [BAD_ADDRESS]
      ensures id == 2 ==> serverManager == old(serverManager)
      ensures id == 2 && serverManager == null ==> messages == [NO_SERVER_TO_STOP, STOP_FAILED]
      ensures id == 2 && serverManager != null && old(serverManager.isRunning) ==>
                && messages == [Message("Closing server...", WARNING)]
                && !serverManager.isRunning && serverManager.IsClosed()
      ensures id == 2 && serverManager != null && !old(serverManager.isRunning) ==>
                && messages == [Message("Server is currently not running.", ERROR), STOP_FAILED]
                && serverManager.socketClosed == old(serverManager.socketClosed)
      ensures id == 2 && serverManager != null ==> serverManager.fsclients == old(serverManager.fsclients)
    {
      if id == 1 {
        messages := StartServer(world.port, world.bind);
      } else {
        messages := StopServer();
      }
    }

    /** Cases 3, 4 and 6: the gate, then, for a resolved client, the
        enrolment (only once the form was submitted), "disconnect" followed
        by disconnect(), or "reboot". No other client is touched. */
    method ClientCommand(id: int, input: string, form: Option<FormValues>)
      returns (messages: seq<Message>, client: FSClient?)
      requires ReachesClient(id)
      requires Valid()
      modifies Registered()
      ensures Valid()
      ensures messages == GateReport(serverManager, input, NameAt(id))
      ensures client == Resolution(serverManager, input, NameAt(id))
      ensures forall c :: c in old(Registered()) ==>
                && c.outbox == old(c.outbox) + (if c == client then Delivery(id, form) else [])
                && c.isConnected == (old(c.isConnected) && !(c == client && id == 4))
                && c.phase == old(c.phase)
    {
      client, messages := Target(serverManager, input, NameAt(id));
      if client != null {
        Deliver(client, id, form);
      }
    }

    /** The cases that touch neither the server manager nor a client:
        5 lists the clients, 7 initialises the tables, 8 exports, 9 reports
        the event and 10 replaces it; any other id does nothing. */
    method LocalCommand(id: int, input: string, world: World, dir: Directory)
      returns (messages: seq<Message>, failed: bool)
      requires !ReachesClient(id)
      modifies eventData, dir
      ensures failed <==> (id == 5 && serverManager == null) || (id == 8 && (|input| < 8 || ExportDateThrows(input)))
      ensures id == 5 && serverManager != null && serverManager.IsClosed() ==> messages == [SERVER_CLOSED]
      ensures id == 5 && serverManager != null && !serverManager.IsClosed() && serverManager.fsclients == [] ==>
                messages == [NO_CLIENTS]
      ensures id == 5 && serverManager != null && !serverManager.IsClosed() && serverManager.fsclients != [] ==>
                && |messages| == |serverManager.fsclients|
                && forall k :: 0 <= k < |messages| ==> messages[k] == ClientLine(serverManager.fsclients[k])
      ensures id == 7 ==> messages == [InitTablesMessage(world.initTablesOk)]
      ensures id == 8 && failed ==> messages == []
      ensures id == 8 && |input| == 8 && ExportMode(input) == "1" ==> messages == [MISSING_ARGUMENT]
      ensures id == 8 && |input| >= 9 && ExportMode(input) == "1" && !IsDateText(input[9..]) ==>
                messages == [INVALID_DATE]
      ensures id == 8 && |input| >= 8 && ExportMode(input) in {"2", "3", "4"} ==> messages == []
      ensures id == 8 && |input| >= 8 && ExportMode(input) !in {"1", "2", "3", "4"} ==> messages == [INVALID_SYNTAX]
      ensures id == 8 && |input| >= 9 && ExportMode(input) == "1" && IsDateText(input[9..])
              && DateValueOf(input[9..]).Some? ==>
                if world.attendance.None? then messages == [DATA_NULL] && dir.files == old(dir.files)
                else exists n: nat ::
                  && Candidate(input[9..], n) !in old(dir.files)
                  && (forall j :: 0 <= j < n ==> Candidate(input[9..], j) in old(dir.files))
                  && dir.files == old(dir.files)[Candidate(input[9..], n) := Content(world.attendance.value)]
                  && messages == [Message(EXPORT_LABEL + Candidate(input[9..], n), INFO)]
      ensures id != 8 || !(|input| >= 9 && ExportMode(input) == "1" && IsDateText(input[9..])
                           && DateValueOf(input[9..]).Some? && world.attendance.Some?) ==>
                dir.files == old(dir.files)
      ensures id == 9 ==> messages == EventReport(old(eventData.currentEventName), old(eventData.currentEventLocation))
      ensures id == 10 ==> var tokens := Split(input, ' ');
                && (|tokens| >= 4 ==> eventData.currentEventName == tokens[2]
                                      && eventData.currentEventLocation == tokens[3]
                                      && messages == [EVENT_UPDATED])
                && (|tokens| < 4 ==> eventData.currentEventName == old(eventData.currentEventName)
                                     && eventData.currentEventLocation == old(eventData.currentEventLocation)
                                     && messages == [MISSING_ARGUMENTS])
      ensures id != 10 ==> eventData.currentEventName == old(eventData.currentEventName)
                           && eventData.currentEventLocation == old(eventData.currentEventLocation)
    {
      messages, failed := [], false;
      if id == 5 {
        messages, failed := ClientsInfo(serverManager);
      } else if id == 7 {
        messages := [InitTablesMessage(world.initTablesOk)];
      } else if id == 8 {
        var queried;
        messages, queried, failed := Export(input, world.attendance, dir);
      } else if id == 9 {
        messages := EventReport(eventData.currentEventName, eventData.currentEventLocation);
      } else if id == 10 {
        messages := eventData.EventNew(input);
      }
    }

    /** execute: empty input is ignored; otherwise the table gives the id
        and the id picks the case. Case 0 reports an unrecognised command;
        1 and 2 start and stop the server; 3, 4 and 6 reach a client; 5
        lists the clients; 7 initialises the tables; 8 exports; 9 reports
        the event and 10 replaces it. failed stands for an exception that
        leaves the router. */
    method Execute(table: seq<Const.Command>, input: string, world: World, dir: Directory)
      returns (messages: seq<Message>, id: int, failed: bool)
      requires Valid()
      modifies this, eventData, dir, serverManager, Registered()
      ensures Valid()
      ensures input == "" ==> id == 0 && messages == [] && !failed
      ensures input != "" ==> id == FirstMatch(table, input)
      ensures id == 0 && input != "" ==> messages == [NOT_RECOGNIZED]
      ensures failed <==> (id == 5 && old(serverManager) == null) || (id == 8 && (|input| < 8 || ExportDateThrows(input)))
      ensures id != 1 ==> serverManager == old(serverManager)
      ensures id == 1 ==> (world.bind == Bound <==> serverManager != old(serverManager))
      ensures ReachesClient(id) ==> messages == GateReport(old(serverManager), input, NameAt(id))
      ensures forall c :: c in old(Registered()) ==>
                && c.outbox == old(c.outbox) +
                     (if ReachesClient(id) && c == Resolution(old(serverManager), input, NameAt(id))
                      then Delivery(id, world.form) else [])
                && c.isConnected == (old(c.isConnected)
                     && !(id == 4 && c == Resolution(old(serverManager), input, NameAt(id))))
      ensures id == 7 ==> messages == [InitTablesMessage(world.initTablesOk)]
      ensures id != 8 ==> dir.files == old(dir.files)
      ensures id == 9 ==> messages == EventReport(old(eventData.currentEventName), old(eventData.currentEventLocation))
      ensures id != 10 ==> eventData.currentEventName == old(eventData.currentEventName)
                           && eventData.currentEventLocation == old(eventData.currentEventLocation)
    {
      messages, id, failed := [], 0, false;
      if CheckNullText(input) {
        return;
      }
      id := CheckValidCommand(table, input);
      if id == 0 {
        messages := [NOT_RECOGNIZED];
      } else if id == 1 || id == 2 {
        messages := ServerCommand(id, world);
      } else if ReachesClient(id) {
        var client;
        messages, client := ClientCommand(id, input, world.form);
      } else {
        messages, failed := LocalCommand(id, input, world, dir);
      }
    }
  }
}
