/** ServerManager and its inner class FSClient: the registry of connected
    fingerprint devices, the accept step and the shutdown branch of the
    server loop, stopServer, and each device session. Threads are
    sequentialised: a session runs when its burst of input is handed to
    Serve, and the server's shutdown runs every interrupted session to its
    end in registry order. The random indices behind a client name are
    passed in. */
module Server {
  import opened Text
  import opened Log
  import opened Const
  import opened Protocol

  /** Where a session's thread is: constructed, inside its loop, waiting
      in readLine for payload lines, or finished (its finally block ran). */
  datatype Phase = Created | Serving | Reading | Done

  predicate Distinct<T(==)>(s: seq<T>) {
    forall i, j :: 0 <= i < j < |s| ==> s[i] != s[j]
  }

  // ----- ArrayList.remove(Object) -----

  /** Drops the first element equal to x; a sequence without x is kept. */
  function RemoveFirst<T(==)>(s: seq<T>, x: T): seq<T>
    decreases |s|
  {
    if s == [] then []
    else if s[0] == x then s[1..]
    else [s[0]] + RemoveFirst(s[1..], x)
  }

  /** Removing an absent element changes nothing. */
  lemma {:induction false} RemoveFirstAbsent<T>(s: seq<T>, x: T)
    requires x !in s
    ensures RemoveFirst(s, x) == s
    decreases |s|
  {
    if s != [] {
      RemoveFirstAbsent(s[1..], x);
      assert [s[0]] + s[1..] == s;
    }
  }

  /** Removing a present element cuts out its first occurrence and keeps
      everything else in order. */
  lemma {:induction false} RemoveFirstPresent<T>(s: seq<T>, x: T) returns (i: nat)
    requires x in s
    ensures i < |s| && s[i] == x && x !in s[..i]
    ensures RemoveFirst(s, x) == s[..i] + s[i + 1..]
    decreases |s|
  {
    if s[0] == x {
      i := 0;
    } else {
      var j := RemoveFirstPresent(s[1..], x);
      i := j + 1;
      assert s[..i] == [s[0]] + s[1..][..j];
      assert s[i + 1..] == s[1..][j + 1..];
    }
  }

  /** As a multiset, removal takes away one copy of x, if there is one. */
  lemma {:induction false} RemoveFirstCount<T>(s: seq<T>, x: T)
    ensures multiset(RemoveFirst(s, x)) == multiset(s) - multiset{x}
    decreases |s|
  {
    if s != [] {
      assert s == [s[0]] + s[1..];
      if s[0] != x {
        RemoveFirstCount(s[1..], x);
      }
    }
  }

  /** In a registry without duplicates, removal leaves exactly the other
      clients, still without duplicates. */
  lemma RemoveFirstDistinct<T>(s: seq<T>, x: T)
    requires Distinct(s)
    ensures Distinct(RemoveFirst(s, x))
    ensures forall y :: y in RemoveFirst(s, x) <==> y in s && y != x
  {
    if x in s {
      var i := RemoveFirstPresent(s, x);
      var r := s[..i] + s[i + 1..];
      assert forall k :: 0 <= k < |r| ==> r[k] == if k < i then s[k] else s[k + 1];
      forall y ensures y in r <==> y in s && y != x {
        if y in s && y != x {
          var k :| 0 <= k < |s| && s[k] == y;
          assert k != i;
          assert r[if k < i then k else k - 1] == y;
        }
      }
    } else {
      RemoveFirstAbsent(s, x);
    }
  }

  const SEND_ERROR_LABEL: string := "Error sending command to "

  /** The last two reports of a shutdown, once the registry is empty. */
  const SHUTDOWN_DONE: seq<Message> :=
    [Message("All clients have been disconnected.", INFO), Message("Server sucessfully closed.", INFO)]

  // ----- generateClientName -----

  /** generateClientName with the eight random draws from
      [0, CHARSET.length()) given: character i is CHARSET at draw i. */
  method GenerateClientName(indices: seq<nat>) returns (name: string)
    requires |indices| == 8 && forall i :: 0 <= i < 8 ==> indices[i] < |CHARSET|
    ensures |name| == 8
    ensures forall i :: 0 <= i < 8 ==> name[i] == CHARSET[indices[i]] && IsAlphanumeric(name[i])
  {
    CharsetLayout();
    name := "";
    for i := 0 to 8
      invariant |name| == i
      invariant forall k :: 0 <= k < i ==> name[k] == CHARSET[indices[k]] && IsAlphanumeric(name[k])
    {
      name := name + [CHARSET[indices[i]]];
    }
  }

  /** Every eight-character name of ASCII letters and digits is produced
      by exactly one choice of draws. */
  lemma NameDraws(name: string) returns (indices: seq<nat>)
    requires |name| == 8 && forall i :: 0 <= i < 8 ==> IsAlphanumeric(name[i])
    ensures |indices| == 8 && forall i :: 0 <= i < 8 ==> indices[i] < |CHARSET| && CHARSET[indices[i]] == name[i]
    ensures forall other: seq<nat> ::
              |other| == 8 && (forall i :: 0 <= i < 8 ==> other[i] < |CHARSET| && CHARSET[other[i]] == name[i])
              ==> other == indices
  {
    CharsetShape();
    indices := seq(8, i requires 0 <= i < 8 => CharsetIndex(name[i]));
  }

  // ----- the session's closing during a shutdown -----

  function ConnectedMessage(address: string): Message {
    Message("Just connected to client " + address, SERVER)
  }

  /** What an interrupted session with nothing to read reports as it ends:
      the forced close if it was still connected, then closeAll. */
  function ShutdownClosing(name: string, connected: bool): seq<Message> {
    (if connected then [ForcedMessage(name)] else []) + CloseMessages(name)
  }

  lemma ShutdownClosingIsSession(name: string, connected: bool, dbUp: bool)
    ensures Session(name, [], Open, true, dbUp, connected).messages == ShutdownClosing(name, connected)
    ensures Session(name, [], Open, true, dbUp, connected).sent == if connected then [DISCONNECT + "\n"] else []
    ensures Terminal(Session(name, [], Open, true, dbUp, connected).exit)
  {
  }

  /** The closings of the given sessions, in order. */
  function Closings(snapshot: seq<(string, bool)>): seq<Message> {
    if snapshot == [] then [] else ShutdownClosing(snapshot[0].0, snapshot[0].1) + Closings(snapshot[1..])
  }

  /** The name and connected flag of each session still inside its loop's
      polling, in registry order: the sessions an interrupt reaches. */
  function Finishing(clients: seq<FSClient>): seq<(string, bool)>
    reads set c | c in clients
  {
    if clients == [] then []
    else (if clients[0].phase == Serving then [(clients[0].name, clients[0].isConnected)] else [])
         + Finishing(clients[1..])
  }

  /** The sessions waiting in readLine, in registry order: an interrupt
      does not reach them. */
  function Stalled(clients: seq<FSClient>): seq<FSClient>
    reads set c | c in clients
  {
    if clients == [] then []
    else (if clients[0].phase == Reading then [clients[0]] else []) + Stalled(clients[1..])
  }

  /** The waiting sessions are some of the clients, in order, each once if
      the clients are. */
  lemma {:induction false} StalledIn(clients: seq<FSClient>)
    ensures forall c :: c in Stalled(clients) ==> c in clients && c.phase == Reading
    ensures Distinct(clients) ==> Distinct(Stalled(clients))
    decreases |clients|
  {
    if clients != [] {
      StalledIn(clients[1..]);
      var rest := Stalled(clients[1..]);
      if clients[0].phase == Reading && Distinct(clients) {
        assert clients[0] !in clients[1..] by {
          forall j | 0 <= j < |clients[1..]| ensures clients[1..][j] != clients[0] {
            assert clients[j + 1] != clients[0];
          }
        }
        assert Distinct(clients[1..]) by {
          forall a, b | 0 <= a < b < |clients[1..]| ensures clients[1..][a] != clients[1..][b] {
            assert clients[a + 1] != clients[b + 1];
          }
        }
        var r := [clients[0]] + rest;
        forall a, b | 0 <= a < b < |r| ensures r[a] != r[b] {
          if a == 0 {
            assert r[b] == rest[b - 1];
          } else {
            assert r[a] == rest[a - 1] && r[b] == rest[b - 1];
          }
        }
      } else if Distinct(clients) {
        assert Distinct(clients[1..]) by {
          forall a, b | 0 <= a < b < |clients[1..]| ensures clients[1..][a] != clients[1..][b] {
            assert clients[a + 1] != clients[b + 1];
          }
        }
      }
    }
  }

  /** Interrupting a session changes neither list. */
  twostate lemma {:induction false} InterruptKeepsLists(clients: seq<FSClient>)
    requires forall c :: c in clients ==> c.phase == old(c.phase) && c.isConnected == old(c.isConnected)
    ensures Finishing(clients) == old(Finishing(clients)) && Stalled(clients) == old(Stalled(clients))
    decreases |clients|
  {
    if clients != [] {
      InterruptKeepsLists(clients[1..]);
    }
  }

  // ----- the server -----

  class ServerManager {
    const port: int
    var fsclients: seq<FSClient>
    var isRunning: bool
    var socketClosed: bool

    /** The registry holds each client once, every client belongs to this
        server, and every registered session is still inside its loop. */
    predicate Valid()
      reads this, set c | c in fsclients
    {
      && Distinct(fsclients)
      && forall c :: c in fsclients ==> c.server == this && (c.phase == Serving || c.phase == Reading)
    }

    /** A bound, open socket; run() has not started. */
    constructor(port: int)
      ensures this.port == port && fsclients == [] && !isRunning && !socketClosed
      ensures Valid()
    {
      this.port := port;
      fsclients := [];
      isRunning := false;
      socketClosed := false;
    }

    /** isClosed: whether the listening socket has been closed. */
    predicate IsClosed()
      reads this
    {
      socketClosed
    }

    /** The start of run(): the loop's flag is raised. */
    method Start()
      modifies this
      ensures isRunning && socketClosed == old(socketClosed) && fsclients == old(fsclients)
    {
      isRunning := true;
    }

    function WaitingMessages(): seq<Message>
      reads this
    {
      [ Message("Server started.", INFO),
        Message("Waiting for a connection on port " + IntToString(port), SERVER) ]
    }

    /** One pass of the run() loop in which accept succeeds: a new client
        is appended at the end of the registry, earlier entries untouched,
        and its thread starts its session. */
    method AcceptStep(address: string, indices: seq<nat>) returns (client: FSClient, messages: seq<Message>)
      requires isRunning && !socketClosed && Valid()
      requires |indices| == 8 && forall i :: 0 <= i < 8 ==> indices[i] < |CHARSET|
      modifies this
      ensures fresh(client)
      ensures fsclients == old(fsclients) + [client]
      ensures client.server == this && client.address == address
      ensures |client.name| == 8 && forall i :: 0 <= i < 8 ==> client.name[i] == CHARSET[indices[i]]
      ensures client.phase == Serving && client.isConnected && !client.interrupted && client.outbox == []
      ensures messages == WaitingMessages() + [ConnectedMessage(address)]
      ensures isRunning && !socketClosed && Valid()
    {
      messages := WaitingMessages();
      client := new FSClient(this, address, indices);
      fsclients := fsclients + [client];
      var started := client.Start();
      messages := messages + started;
    }

    /** stopServer: refused with an error when the server is not running,
        and nothing changes; otherwise the flag is cleared and the socket
        closed, so IsClosed() holds afterwards. */
    method StopServer() returns (ok: bool, messages: seq<Message>)
      modifies this
      ensures ok == old(isRunning)
      ensures !ok ==> messages == [Message("Server is currently not running.", ERROR)]
                      && isRunning == old(isRunning) && socketClosed == old(socketClosed)
      ensures ok ==> messages == [Message("Closing server...", WARNING)] && !isRunning && IsClosed()
      ensures fsclients == old(fsclients)
    {
      if !isRunning {
        return false, [Message("Server is currently not running.", ERROR)];
      }
      isRunning := false;
      messages := [Message("Closing server...", WARNING)];
      socketClosed := true;
      ok := true;
    }

    /** removeClient: the first entry equal to the client goes. */
    method RemoveClient(client: FSClient)
      modifies this
      ensures fsclients == RemoveFirst(old(fsclients), client)
      ensures isRunning == old(isRunning) && socketClosed == old(socketClosed)
    {
      fsclients := RemoveFirst(fsclients, client);
    }

    /** The pass of the run() loop in which accept throws (the socket was
        closed by stopServer): every client is interrupted, and each
        session in its loop's polling notices at its next check, sends
        "disconnect", closes and removes itself. A session waiting in
        readLine does not notice, so the server, which spins until the
        registry is empty, is still waiting (waiting) as long as one is
        left, and only then reports the shutdown. */
    method AcceptFails() returns (messages: seq<Message>, waiting: bool)
      requires Valid()
      modifies this, set c | c in fsclients
      ensures fsclients == old(Stalled(fsclients))
      ensures waiting <==> fsclients != []
      ensures forall c :: c in old(fsclients) ==> c.interrupted
      ensures forall c :: c in old(fsclients) && old(c.phase) == Serving ==>
                && c.phase == Done
                && c.outbox == old(c.outbox) + (if old(c.isConnected) then [DISCONNECT + "\n"] else [])
      ensures forall c :: c in old(fsclients) && old(c.phase) == Reading ==>
                && c.phase == Reading && c.pending == old(c.pending)
                && c.isConnected == old(c.isConnected) && c.outbox == old(c.outbox)
      ensures messages == WaitingMessages()
                          + [Message("Disconnecting all clients from the server...", WARNING)]
                          + Closings(old(Finishing(fsclients)))
                          + (if waiting then [] else SHUTDOWN_DONE)
      ensures isRunning == old(isRunning) && socketClosed == old(socketClosed)
      ensures Valid()
    {
      messages := WaitingMessages() + [Message("Disconnecting all clients from the server...", WARNING)];
      ghost var before := fsclients;
      StalledIn(before);
      InterruptAll();
      InterruptKeepsLists(fsclients);
      var closings := DrainRegistry(0);
      messages := messages + closings;
      assert fsclients == old(Stalled(before));
      waiting := |fsclients| != 0;
      if !waiting {
        messages := messages + SHUTDOWN_DONE;
      }
    }

    /** Every registered client is interrupted, in registry order; nothing
        else changes. */
    method InterruptAll()
      modifies set c | c in fsclients
      ensures forall c :: c in fsclients ==>
                && c.interrupted && c.phase == old(c.phase) && c.pending == old(c.pending)
                && c.isConnected == old(c.isConnected) && c.outbox == old(c.outbox)
    {
      for i := 0 to |fsclients|
        invariant forall c :: c in fsclients ==>
                    && c.phase == old(c.phase) && c.isConnected == old(c.isConnected) && c.outbox == old(c.outbox)
                    && c.pending == old(c.pending)
        invariant forall k :: 0 <= k < i ==> fsclients[k].interrupted
      {
        fsclients[i].Interrupt();
      }
    }

    /** The wait at the end of shutdown, from the k-th client on (the ones
        before it wait in readLine): meanwhile each interrupted session
        in its loop's polling, in registry order, finishes and removes
        itself, and the sessions waiting in readLine stay. */
    method DrainRegistry(k: nat) returns (messages: seq<Message>)
      requires k <= |fsclients| && Distinct(fsclients)
      requires forall c :: c in fsclients ==>
                 c.server == this && (c.phase == Serving || c.phase == Reading) && c.interrupted
      requires forall j :: 0 <= j < k ==> fsclients[j].phase == Reading
      modifies this, set c | c in fsclients
      ensures fsclients == old(fsclients[..k] + Stalled(fsclients[k..]))
      ensures forall c :: c in old(fsclients) ==> c.interrupted
      ensures forall c :: c in old(fsclients) && old(c.phase) == Serving ==>
                && c.phase == Done
                && c.outbox == old(c.outbox) + (if old(c.isConnected) then [DISCONNECT + "\n"] else [])
      ensures forall c :: c in old(fsclients) && old(c.phase) == Reading ==>
                && c.phase == Reading && c.pending == old(c.pending)
                && c.isConnected == old(c.isConnected) && c.outbox == old(c.outbox)
      ensures messages == Closings(old(Finishing(fsclients[k..])))
      ensures isRunning == old(isRunning) && socketClosed == old(socketClosed)
      decreases |fsclients| - k, 1
    {
      if k == |fsclients| {
        return [];
      }
      ghost var clients := fsclients;
      var client := fsclients[k];
      assert clients[k..] == [client] + clients[k + 1..];
      assert clients[k..][1..] == clients[k + 1..];
      if client.phase == Serving {
        messages := FinishNext(k);
        return;
      }
      assert Finishing(clients[k..]) == Finishing(clients[k + 1..]);
      assert Stalled(clients[k..]) == [client] + Stalled(clients[k + 1..]);
      assert clients[..k + 1] == clients[..k] + [client];
      messages := DrainRegistry(k + 1);
    }

    /** The k-th registered session of that wait, still in its loop's
        polling, finishes first; then the wait goes on. */
    method FinishNext(k: nat) returns (messages: seq<Message>)
      requires k < |fsclients| && Distinct(fsclients) && fsclients[k].phase == Serving
      requires forall c :: c in fsclients ==>
                 c.server == this && (c.phase == Serving || c.phase == Reading) && c.interrupted
      requires forall j :: 0 <= j < k ==> fsclients[j].phase == Reading
      modifies this, set c | c in fsclients
      ensures fsclients == old(fsclients[..k] + Stalled(fsclients[k..]))
      ensures forall c :: c in old(fsclients) ==> c.interrupted
      ensures forall c :: c in old(fsclients) && old(c.phase) == Serving ==>
                && c.phase == Done
                && c.outbox == old(c.outbox) + (if old(c.isConnected) then [DISCONNECT + "\n"] else [])
      ensures forall c :: c in old(fsclients) && old(c.phase) == Reading ==>
                && c.phase == Reading && c.pending == old(c.pending)
                && c.isConnected == old(c.isConnected) && c.outbox == old(c.outbox)
      ensures messages == Closings(old(Finishing(fsclients[k..])))
      ensures isRunning == old(isRunning) && socketClosed == old(socketClosed)
      decreases |fsclients| - k, 0
    {
      ghost var clients := fsclients;
      var client := fsclients[k];
      assert clients[k..] == [client] + clients[k + 1..];
      assert clients[k..][1..] == clients[k + 1..];
      ghost var finishing := Finishing(clients[k + 1..]);
      ghost var stalled := Stalled(clients[k + 1..]);
      assert Finishing(clients[k..]) == [(client.name, client.isConnected)] + finishing;
      assert Stalled(clients[k..]) == stalled;
      var closing := SessionFinishes(k);
      assert fsclients[..k] == clients[..k] && fsclients[k..] == clients[k + 1..];
      forall c | c in fsclients ensures c in clients && c != client {
        assert c in clients[..k] + clients[k + 1..];
      }
      assert Finishing(fsclients[k..]) == finishing && Stalled(fsclients[k..]) == stalled;
      ghost var rest := fsclients;
      var later := DrainRegistry(k);
      messages := closing + later;
      forall c | c in clients && c != client
        ensures c.interrupted
        ensures old(c.phase) == Serving ==>
                  c.phase == Done && c.outbox == old(c.outbox) + (if old(c.isConnected) then [DISCONNECT + "\n"] else [])
        ensures old(c.phase) == Reading ==>
                  c.phase == Reading && c.pending == old(c.pending) && c.isConnected == old(c.isConnected) && c.outbox == old(c.outbox)
      {
        assert c in rest by {
          assert c in clients[..k] + clients[k + 1..];
        }
      }
    }

    /** While the server waits, the k-th registered session, in its
        loop's polling, notices its interrupt at its next check and
        finishes: it sends "disconnect" if it was still connected, closes
        its streams and removes itself. */
    method SessionFinishes(k: nat) returns (messages: seq<Message>)
      requires k < |fsclients| && Distinct(fsclients)
      requires fsclients[k].server == this && fsclients[k].phase == Serving && fsclients[k].interrupted
      modifies this, fsclients[k]
      ensures fsclients == old(fsclients[..k] + fsclients[k + 1..])
      ensures old(fsclients)[k].phase == Done && old(fsclients)[k].interrupted
      ensures old(fsclients)[k].outbox
              == old(fsclients[k].outbox) + (if old(fsclients[k].isConnected) then [DISCONNECT + "\n"] else [])
      ensures messages == ShutdownClosing(old(fsclients[k].name), old(fsclients[k].isConnected))
      ensures isRunning == old(isRunning) && socketClosed == old(socketClosed)
    {
      var client := fsclients[k];
      ghost var clients := fsclients;
      ShutdownClosingIsSession(client.name, client.isConnected, false);
      var stored, consumed, exit;
      messages, stored, consumed, exit := client.Serve([], Open, false);
      var i := RemoveFirstPresent(clients, client);
      assert i == k;
    }
  }

  // ----- the session -----

  /** How a run of readLine calls went: all lines read (null past the end
      of a closed stream), still waiting for a line, or an IOException. */
  datatype ReadStatus = Complete | Waiting | Thrown

  /** n readLine calls in a row on the lines still unread. */
  method ReadLines(unread: seq<string>, n: nat, end: InputEnd) returns (lines: seq<string>, rest: seq<string>, status: ReadStatus)
    ensures status == Complete <==> n <= |unread| || end == InputEnd.Closed
    ensures status == Waiting <==> n > |unread| && end == Open
    ensures status == Complete ==>
              && |lines| == n && (forall k :: 0 <= k < n ==> lines[k] == PayloadLine(unread, k))
              && rest == unread[if n <= |unread| then n else |unread|..]
    ensures status != Complete ==> rest == []
  {
    lines, rest := [], unread;
    var i := 0;
    while i < n
      invariant 0 <= i <= n && |lines| == i
      invariant forall k :: 0 <= k < i ==> lines[k] == PayloadLine(unread, k)
      invariant rest == unread[if i <= |unread| then i else |unread|..]
      invariant i <= |unread| || end == InputEnd.Closed
    {
      if rest != [] {
        lines := lines + [rest[0]];
        rest := rest[1..];
      } else if end == InputEnd.Closed {
        lines := lines + ["null"];
      } else {
        return lines, [], if end == Open then Waiting else Thrown;
      }
      i := i + 1;
    }
    status := Complete;
  }

  /** Reads the first ready line, echoes it and, for enrollFinger and
      scanFinger, reads its payload and reports it; the enrolment is handed
      to the database when it is up. The payload may not all be there yet:
      then readLine waits, or throws on a broken stream. */
  method ReadCommand(unread: seq<string>, end: InputEnd, dbUp: bool)
    returns (messages: seq<Message>, stored: seq<Enrollee>, rest: seq<string>, status: ReadStatus)
    requires |unread| > 0
    ensures status == Complete <==> !Incomplete(unread, end)
    ensures status == Waiting <==> Incomplete(unread, end) && end == Open
    ensures status == Complete ==>
              && messages == LineMessages(unread) && stored == LineStored(unread, dbUp)
              && rest == unread[StepLength(unread)..]
    ensures status != Complete ==> messages == Emit(unread[0], CLIENT) && stored == [] && rest == []
  {
    var line := unread[0];
    messages, stored, rest, status := Emit(line, CLIENT), [], unread[1..], Complete;
    if line == ENROLL_FINGER || line == SCAN_FINGER {
      var payload, after;
      payload, after, status := ReadLines(rest, Width(line), end);
      if status != Complete {
        return messages, stored, after, status;
      }
      rest := after;
      if line == ENROLL_FINGER {
        var e := Enrollee(payload[0], payload[1], payload[2], payload[3],
                          payload[4], payload[5], payload[6], payload[7]);
        assert e == EnrolleeAt(unread) by {
          assert forall k :: 0 <= k < 8 ==> payload[k] == PayloadLine(unread, k + 1);
        }
        if dbUp {
          stored := [e];
        }
        messages := messages + EnrollMessages(e);
      } else {
        assert payload[0] == PayloadLine(unread, 1);
        messages := messages + [ScanMessage(payload[0])];
      }
    }
    assert rest == unread[StepLength(unread)..];
  }

  class FSClient {
    const server: ServerManager
    const address: string
    const name: string
    var phase: Phase
    var isConnected: bool
    var interrupted: bool
    /** Everything written to the device's output stream, in order. */
    var outbox: seq<string>
    /** While the thread waits in readLine: the lines of the command it is
        reading, as far as they have arrived. */
    var pending: seq<string>

    /** A client for an accepted socket, named from the given draws. */
    constructor(server: ServerManager, address: string, indices: seq<nat>)
      requires |indices| == 8 && forall i :: 0 <= i < 8 ==> indices[i] < |CHARSET|
      ensures this.server == server && this.address == address
      ensures |name| == 8 && forall i :: 0 <= i < 8 ==> name[i] == CHARSET[indices[i]]
      ensures phase == Created && !isConnected && !interrupted && outbox == [] && pending == []
    {
      var generated := GenerateClientName(indices);
      this.server := server;
      this.address := address;
      this.name := generated;
      phase := Created;
      isConnected := false;
      interrupted := false;
      outbox := [];
      pending := [];
    }

    /** The start of the thread's run(): connected, announced, and the
        streams opened. */
    method Start() returns (messages: seq<Message>)
      requires phase == Created
      modifies this
      ensures phase == Serving && isConnected
      ensures interrupted == old(interrupted) && outbox == old(outbox) && pending == old(pending)
      ensures messages == [ConnectedMessage(address)]
    {
      isConnected := true;
      messages := [ConnectedMessage(address)];
      phase := Serving;
    }

    /** disconnect: clears the loop's flag and nothing else. */
    method Disconnect()
      modifies this
      ensures !isConnected
      ensures phase == old(phase) && interrupted == old(interrupted) && outbox == old(outbox)
      ensures pending == old(pending)
    {
      isConnected := false;
    }

    /** Thread.interrupt: raises the flag the loop checks. */
    method Interrupt()
      modifies this
      ensures interrupted
      ensures phase == old(phase) && isConnected == old(isConnected) && outbox == old(outbox)
      ensures pending == old(pending)
    {
      interrupted := true;
    }

    /** sendCommand: the command and a newline go to the device; once the
        session has closed its output, the write fails and is reported. */
    method SendCommand(command: string) returns (messages: seq<Message>)
      requires phase != Created
      modifies this
      ensures phase == Done ==> outbox == old(outbox)
                                  && messages == [Message(SEND_ERROR_LABEL + name, ERROR)]
      ensures phase != Done ==> outbox == old(outbox) + [command + "\n"] && messages == []
      ensures phase == old(phase) && isConnected == old(isConnected) && interrupted == old(interrupted)
      ensures pending == old(pending)
    {
      if phase == Done {
        messages := [Message(SEND_ERROR_LABEL + name, ERROR)];
      } else {
        outbox := outbox + [command + "\n"];
        messages := [];
      }
    }

    /** The catch block for InterruptedException: the warning is reported,
        "disconnect" is sent to the device and is_connected is cleared. */
    method ForceClose() returns (warning: Message)
      requires phase == Serving
      modifies this
      ensures warning == ForcedMessage(name) && !isConnected
      ensures phase == old(phase) && interrupted == old(interrupted) && outbox == old(outbox) + [DISCONNECT + "\n"]
      ensures pending == old(pending)
    {
      warning := ForcedMessage(name);
      var failed := SendCommand(DISCONNECT);
      Disconnect();
    }

    /** A pass of the session loop with no line ready: input.ready()
        throws on a broken stream; otherwise only the interrupt check runs,
        and the loop keeps polling. */
    method Poll(end: InputEnd, dbUp: bool) returns (messages: seq<Message>, exit: Exit)
      requires phase == Serving && isConnected
      modifies this
      ensures Run(name, [], end, interrupted, dbUp)
              == Outcome(messages, if exit == Forced then [DISCONNECT + "\n"] else [], [], 0, exit)
      ensures phase == Serving && interrupted == old(interrupted) && pending == old(pending)
      ensures outbox == old(outbox) + (if exit == Forced then [DISCONNECT + "\n"] else [])
      ensures isConnected <==> exit != Forced
    {
      if end == Broken {
        return [], Failed;
      }
      if interrupted {
        var warning := ForceClose();
        return [warning], Forced;
      }
      return [], Idle;
    }

    /** A pass of the session loop with a line ready: it is read, echoed
        and dispatched; then the interrupt check runs. The pass either ends
        the loop, with the outcome Run gives for the lines it saw, or leaves
        the loop going on the lines that remain. */
    method Step(unread: seq<string>, end: InputEnd, dbUp: bool)
      returns (messages: seq<Message>, stored: seq<Enrollee>, rest: seq<string>, exit: Exit)
      requires phase == Serving && isConnected && |unread| > 0
      modifies this
      ensures phase == Serving && interrupted == old(interrupted) && pending == old(pending) && |rest| < |unread|
      ensures exit == Ended && isConnected ==>
                && rest == unread[|unread| - |rest|..]
                && Run(name, unread, end, interrupted, dbUp)
                   == Then(messages, stored, |unread| - |rest|, Run(name, rest, end, interrupted, dbUp))
      ensures !(exit == Ended && isConnected) ==>
                Run(name, unread, end, interrupted, dbUp)
                == Outcome(messages, if exit == Forced then [DISCONNECT + "\n"] else [], stored, |unread| - |rest|, exit)
      ensures outbox == old(outbox) + (if exit == Forced then [DISCONNECT + "\n"] else [])
      ensures exit != Ended ==> (isConnected <==> exit != Forced)
    {
      stored, exit := [], Ended;
      if unread[0] == DISCONNECT {
        messages := Emit(unread[0], CLIENT) + [ClosingMessage(name)];
        rest := unread[1..];
        Disconnect();
      } else {
        var status;
        messages, stored, rest, status := ReadCommand(unread, end, dbUp);
        if status != Complete {
          return messages, stored, rest, if status == Waiting then Exit.Blocked else Failed;
        }
      }
      if interrupted {
        var warning := ForceClose();
        return messages + [warning], stored, rest, Forced;
      }
    }

    /** The while (is_connected) loop over the lines that are ready: its
        outcome is the one Run gives, and it sends "disconnect" exactly when
        it was forced to stop. */
    method Loop(input: seq<string>, end: InputEnd, dbUp: bool)
      returns (messages: seq<Message>, stored: seq<Enrollee>, consumed: nat, exit: Exit)
      requires phase == Serving
      modifies this
      ensures old(isConnected) ==>
                Run(name, input, end, interrupted, dbUp)
                == Outcome(messages, if exit == Forced then [DISCONNECT + "\n"] else [], stored, consumed, exit)
      ensures !old(isConnected) ==> messages == [] && stored == [] && consumed == 0 && exit == Ended
      ensures outbox == old(outbox) + (if exit == Forced then [DISCONNECT + "\n"] else [])
      ensures phase == Serving && interrupted == old(interrupted) && pending == old(pending)
      ensures isConnected <==> exit != Ended && exit != Forced
    {
      messages, stored, consumed, exit := [], [], 0, Ended;
      if !isConnected {
        return;
      }
      ghost var spec := Run(name, input, end, interrupted, dbUp);
      var unread := input;
      // is_connected is cleared only by the pass that then returns
      while true
        invariant |unread| <= |input| && isConnected
        invariant phase == Serving && interrupted == old(interrupted) && outbox == old(outbox)
        invariant pending == old(pending)
        invariant spec == Then(messages, stored, |input| - |unread|, Run(name, unread, end, interrupted, dbUp))
        decreases |unread|
      {
        ghost var m0, s0, k0 := messages, stored, |input| - |unread|;
        if unread == [] {
          var m, x := Poll(end, dbUp);
          messages, exit, consumed := messages + m, x, |input|;
          return;
        }
        ghost var here := Run(name, unread, end, interrupted, dbUp);
        var m, s, rest, x := Step(unread, end, dbUp);
        ghost var read := |unread| - |rest|;
        messages, stored, exit := messages + m, stored + s, x;
        if !(x == Ended && isConnected) {
          consumed := |input| - |rest|;
          return;
        }
        Compose(spec, here, Run(name, rest, end, interrupted, dbUp), m0, s0, k0, m, s, read);
        unread := rest;
      }
    }

    /** The finally block once the loop has exited: closeAll closes the
        streams and the socket, and removeClient takes the first entry
        for this client out of the registry. */
    method Finish() returns (messages: seq<Message>)
      requires phase == Serving
      modifies this, server
      ensures messages == CloseMessages(name) && phase == Done
      ensures server.fsclients == RemoveFirst(old(server.fsclients), this)
      ensures isConnected == old(isConnected) && interrupted == old(interrupted) && outbox == old(outbox)
      ensures pending == old(pending)
      ensures server.isRunning == old(server.isRunning) && server.socketClosed == old(server.socketClosed)
      ensures old(server.Valid()) ==> server.Valid()
    {
      ghost var registry := server.fsclients;
      ghost var wasValid := server.Valid();
      messages := CloseMessages(name);
      phase := Done;
      server.RemoveClient(this);
      if wasValid {
        RemoveFirstDistinct(registry, this);
        forall c | c in server.fsclients ensures c in registry && c != this {
          assert c in RemoveFirst(registry, this);
        }
      }
    }

    /** A burst of the session over the lines that are ready, as the
        Session function describes it; when the loop exits, the finally
        block closes the streams and removes the client from the
        registry. */
    method Serve(input: seq<string>, end: InputEnd, dbUp: bool)
      returns (messages: seq<Message>, stored: seq<Enrollee>, consumed: nat, exit: Exit)
      requires phase == Serving
      modifies this, server
      ensures var o := Session(name, input, end, old(interrupted), dbUp, old(isConnected));
              && messages == o.messages && stored == o.enrolled && consumed == o.consumed
              && exit == o.exit && outbox == old(outbox) + o.sent
      ensures Terminal(exit) ==> phase == Done && server.fsclients == RemoveFirst(old(server.fsclients), this)
      ensures !Terminal(exit) ==> phase == (if exit == Blocked then Reading else Serving)
                                  && server.fsclients == old(server.fsclients)
      ensures exit == Blocked ==> pending == Pending(input) && Suspended(pending)
      ensures exit != Blocked ==> pending == old(pending)
      ensures isConnected <==> exit != Ended && exit != Forced
      ensures interrupted == old(interrupted)
      ensures server.isRunning == old(server.isRunning) && server.socketClosed == old(server.socketClosed)
      ensures old(server.Valid()) ==> server.Valid()
    {
      messages, stored, consumed, exit := Loop(input, end, dbUp);
      if Terminal(exit) {
        var closing := Finish();
        messages := messages + closing;
      } else if exit == Blocked {
        Suspend(input, end, dbUp);
      }
    }

    /** The loop waits in readLine: the thread keeps the lines of the
        command it is reading. */
    method Suspend(input: seq<string>, end: InputEnd, dbUp: bool)
      requires Run(name, input, end, interrupted, dbUp).exit == Blocked
      modifies this
      ensures phase == Reading && pending == Pending(input) && Suspended(pending)
      ensures isConnected == old(isConnected) && interrupted == old(interrupted) && outbox == old(outbox)
    {
      BlockedPending(name, input, end, interrupted, dbUp);
      var p := Pending(input);
      assert Suspended(p);
      phase := Reading;
      pending := p;
    }

    /** The pass that was waiting in readLine when disconnect() cleared
        is_connected: it reads and reports its command, runs the interrupt
        check, and then the loop exits and the finally block runs; it may
        also still be waiting. */
    method PassAfterDisconnect(lines: seq<string>, end: InputEnd, dbUp: bool)
      returns (messages: seq<Message>, stored: seq<Enrollee>, consumed: nat, exit: Exit)
      requires phase == Serving && !isConnected && |lines| > 0 && lines[0] != DISCONNECT
      modifies this, server
      ensures var o := WithClosing(name, LastPass(name, lines, end, old(interrupted), dbUp));
              && messages == o.messages && stored == o.enrolled && consumed == o.consumed
              && exit == o.exit && outbox == old(outbox) + o.sent
      ensures Terminal(exit) ==> phase == Done && server.fsclients == RemoveFirst(old(server.fsclients), this)
      ensures !Terminal(exit) ==> exit == Blocked && phase == Reading && server.fsclients == old(server.fsclients)
      ensures exit == Blocked ==> pending == lines && Suspended(pending)
      ensures exit != Blocked ==> pending == old(pending)
      ensures !isConnected && interrupted == old(interrupted)
      ensures server.isRunning == old(server.isRunning) && server.socketClosed == old(server.socketClosed)
      ensures old(server.Valid()) ==> server.Valid()
    {
      var rest, status;
      messages, stored, rest, status := ReadCommand(lines, end, dbUp);
      consumed := |lines| - |rest|;
      if status != Complete {
        exit := if status == Waiting then Exit.Blocked else Failed;
      } else if interrupted {
        var warning := ForceClose();
        messages, exit := messages + [warning], Forced;
      } else {
        exit := Ended;
      }
      if exit == Exit.Blocked {
        phase := Reading;
        pending := lines;
      } else {
        var closing := Finish();
        messages := messages + closing;
      }
    }

    /** The readLine a session waits in returns once the missing lines
        arrive, or the stream is closed or breaks: the command goes on over
        the lines it had and the new ones, and so does the loop, unless
        is_connected was cleared meanwhile. By SessionResumes this is what
        one burst over all the lines would have done. */
    method Resume(more: seq<string>, end: InputEnd, dbUp: bool)
      returns (messages: seq<Message>, stored: seq<Enrollee>, consumed: nat, exit: Exit)
      requires phase == Reading && Suspended(pending)
      modifies this, server
      ensures var o := Continue(name, old(pending), more, end, old(interrupted), dbUp, old(isConnected));
              && messages == o.messages && stored == o.enrolled && consumed == o.consumed
              && exit == o.exit && outbox == old(outbox) + o.sent
      ensures Terminal(exit) ==> phase == Done && server.fsclients == RemoveFirst(old(server.fsclients), this)
      ensures !Terminal(exit) ==> phase == (if exit == Blocked then Reading else Serving)
                                  && server.fsclients == old(server.fsclients)
      ensures exit == Blocked ==> pending == Pending(old(pending) + more) && Suspended(pending)
      ensures old(isConnected) ==> (isConnected <==> exit != Ended && exit != Forced)
      ensures !old(isConnected) ==> !isConnected
      ensures interrupted == old(interrupted)
      ensures server.isRunning == old(server.isRunning) && server.socketClosed == old(server.socketClosed)
      ensures old(server.Valid()) ==> server.Valid()
    {
      if isConnected {
        messages, stored, consumed, exit := ResumeLoop(more, end, dbUp);
      } else {
        messages, stored, consumed, exit := ResumePass(more, end, dbUp);
      }
    }

    /** Resume while still connected: the loop goes on over the lines. */
    method ResumeLoop(more: seq<string>, end: InputEnd, dbUp: bool)
      returns (messages: seq<Message>, stored: seq<Enrollee>, consumed: nat, exit: Exit)
      requires phase == Reading && Suspended(pending) && isConnected
      modifies this, server
      ensures var o := Continue(name, old(pending), more, end, old(interrupted), dbUp, true);
              && messages == o.messages && stored == o.enrolled && consumed == o.consumed
              && exit == o.exit && outbox == old(outbox) + o.sent
      ensures Terminal(exit) ==> phase == Done && server.fsclients == RemoveFirst(old(server.fsclients), this)
      ensures !Terminal(exit) ==> phase == (if exit == Blocked then Reading else Serving)
                                  && server.fsclients == old(server.fsclients)
      ensures exit == Blocked ==> pending == Pending(old(pending) + more) && Suspended(pending)
      ensures isConnected <==> exit != Ended && exit != Forced
      ensures interrupted == old(interrupted)
      ensures server.isRunning == old(server.isRunning) && server.socketClosed == old(server.socketClosed)
      ensures old(server.Valid()) ==> server.Valid()
    {
      var before := pending;
      var lines := before + more;
      ContinueClosed(name, before, more, end, interrupted, dbUp, true);
      var echo := |Emit(lines[0], CLIENT)|;
      phase := Serving;
      messages, stored, consumed, exit := Serve(lines, end, dbUp);
      messages := messages[echo..];
      consumed := consumed - |before|;
    }

    /** Resume once disconnect() has cleared is_connected: only the pass it
        was in finishes. */
    method ResumePass(more: seq<string>, end: InputEnd, dbUp: bool)
      returns (messages: seq<Message>, stored: seq<Enrollee>, consumed: nat, exit: Exit)
      requires phase == Reading && Suspended(pending) && !isConnected
      modifies this, server
      ensures var o := Continue(name, old(pending), more, end, old(interrupted), dbUp, false);
              && messages == o.messages && stored == o.enrolled && consumed == o.consumed
              && exit == o.exit && outbox == old(outbox) + o.sent
      ensures Terminal(exit) ==> phase == Done && server.fsclients == RemoveFirst(old(server.fsclients), this)
      ensures !Terminal(exit) ==> exit == Blocked && phase == Reading && server.fsclients == old(server.fsclients)
      ensures exit == Blocked ==> pending == Pending(old(pending) + more) && Suspended(pending)
      ensures !isConnected && interrupted == old(interrupted)
      ensures server.isRunning == old(server.isRunning) && server.socketClosed == old(server.socketClosed)
      ensures old(server.Valid()) ==> server.Valid()
    {
      var before := pending;
      var lines := before + more;
      ContinueClosed(name, before, more, end, interrupted, dbUp, false);
      var echo := |Emit(lines[0], CLIENT)|;
      phase := Serving;
      messages, stored, consumed, exit := PassAfterDisconnect(lines, end, dbUp);
      if exit == Exit.Blocked {
        assert Pending(lines) == lines;
      }
      messages := messages[echo..];
      consumed := consumed - |before|;
    }
  }
}
