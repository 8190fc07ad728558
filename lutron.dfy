/**
 * The persistent control session: the module globals of the session
 * controller as the fields of one object, its socket and timer callbacks as
 * methods. Timers are flags; the socket and the parent process are
 * append-only logs.
 */
module Lutron {
  import opened Wrappers
  import opened Lines

  /** What the controller does to its telnet client objects, numbered from 1 as they are made. */
  datatype ClientCall = Dial(client: nat, address: string, port: int) | End(client: nat) | Destroy(client: nat)

  const HeartbeatCommand: string := "gettime"
  const ConnectedMessage: string := "catch-service-connected"
  const LoginFailedMessage: string := "catch-service-login-failed"
  const DisconnectedMessage: string := "catch-service-disconnected"

  /** An argument counts as given when JavaScript finds it truthy. */
  predicate GivenAddress(a: Option<string>) { a.Some? && a.value != "" }
  predicate GivenPort(p: Option<int>) { p.Some? && p.value != 0 }

  /** All fields of a session at one moment. */
  datatype Session = Session(
    client: nat, lifecycle: seq<ClientCall>,
    heartbeatActive: bool, reconnectScheduled: bool,
    doNotReconnect: bool, retrying: bool, isAlive: Option<bool>,
    sentToSocket: seq<string>, responses: seq<string>)

  class LutronSession {
    /** 0 while `client` is undefined, else the number of the current client object. */
    var client: nat
    var lifecycle: seq<ClientCall>
    /** The heartbeat interval and the reconnect timeout are pending. */
    var heartbeatActive: bool
    var reconnectScheduled: bool
    /** `undefined` at load behaves as `false` in every test the code makes. */
    var doNotReconnect: bool
    var retrying: bool
    /** `None` until the implicit global is first assigned; reading it before throws. */
    var isAlive: Option<bool>
    /** Texts passed to `client.send`. */
    var sentToSocket: seq<string>
    /** Messages sent to the parent process. */
    var responses: seq<string>

    function Snapshot(): Session
      reads this
    {
      Session(client, lifecycle, heartbeatActive, reconnectScheduled, doNotReconnect, retrying, isAlive,
              sentToSocket, responses)
    }

    /** The heartbeat runs only once `isAlive` exists, and `isAlive` is only written by a client's events. */
    predicate Valid()
      reads this
    {
      (heartbeatActive ==> isAlive.Some?) && (isAlive.Some? ==> client > 0)
    }

    /** The module as loaded. */
    constructor ()
      ensures Valid()
      ensures Snapshot() == Session(0, [], false, false, false, false, None, [], [])
    {
      client, lifecycle := 0, [];
      heartbeatActive, reconnectScheduled := false, false;
      doNotReconnect, retrying, isAlive := false, false, None;
      sentToSocket, responses := [], [];
    }

    /** `sendToSocket`: the message plus CR goes to the client, if there is one. */
    method SendToSocket(message: string)
      modifies this
      ensures old(client) == 0 ==> Snapshot() == old(Snapshot())
      ensures old(client) > 0 ==> Snapshot() == old(Snapshot()).(sentToSocket := old(sentToSocket) + [message + "\r"])
    {
      if client > 0 {
        sentToSocket := sentToSocket + [message + "\r"];
      }
    }

    /**
     * `connect(ipAddress, port)`: always makes a new client object; opens a
     * connection only when both arguments are given.
     */
    method Connect(ipAddress: Option<string>, port: Option<int>)
      requires Valid()
      modifies this
      ensures Valid()
      ensures client == old(client) + 1
      ensures GivenAddress(ipAddress) && GivenPort(port) ==>
                Snapshot() == old(Snapshot()).(client := client,
                                               lifecycle := old(lifecycle) + [Dial(client, ipAddress.value, port.value)])
      ensures !(GivenAddress(ipAddress) && GivenPort(port)) ==> Snapshot() == old(Snapshot()).(client := client)
    {
      client := client + 1;
      if GivenPort(port) && GivenAddress(ipAddress) {
        lifecycle := lifecycle + [Dial(client, ipAddress.value, port.value)];
      }
    }

    /** `close`: cancel a pending reconnect, forbid reconnecting and end the client. */
    method Close()
      modifies this
      ensures old(client) == 0 ==> Snapshot() == old(Snapshot())
      ensures old(client) > 0 ==> Snapshot() == old(Snapshot()).(reconnectScheduled := false, doNotReconnect := true,
                                                                 lifecycle := old(lifecycle) + [End(client)])
    {
      if client > 0 {
        reconnectScheduled := false;
        doNotReconnect := true;
        lifecycle := lifecycle + [End(client)];
      }
    }

    /**
     * A message from the parent process: exactly "connect\n" connects (with no
     * arguments), exactly "close\n" closes, anything else goes to the socket.
     */
    method ProcessCommand(command: string)
      requires Valid()
      modifies this
      ensures Valid()
      ensures command == "connect\n" ==> Snapshot() == old(Snapshot()).(client := old(client) + 1)
      ensures command == "close\n" && old(client) > 0 ==>
                Snapshot() == old(Snapshot()).(reconnectScheduled := false, doNotReconnect := true,
                                               lifecycle := old(lifecycle) + [End(client)])
      ensures command == "close\n" && old(client) == 0 ==> Snapshot() == old(Snapshot())
      ensures command != "connect\n" && command != "close\n" ==>
                Snapshot() == old(Snapshot()).(sentToSocket := old(sentToSocket)
                                                 + (if old(client) > 0 then [command + "\r"] else []))
    {
      if command == "connect\n" {
        Connect(None, None);
      } else if command == "close\n" {
        Close();
      } else {
        SendToSocket(command);
      }
    }

    /** `ready`: report the connection, stop retrying, cancel the reconnect and start the heartbeat. */
    method ConnectEventHandler()
      requires Valid() && client > 0
      modifies this
      ensures Valid()
      ensures Snapshot() == old(Snapshot()).(responses := old(responses) + [ConnectedMessage], retrying := false,
                                             reconnectScheduled := false, isAlive := Some(true),
                                             heartbeatActive := true)
    {
      responses := responses + [ConnectedMessage];
      retrying := false;
      reconnectScheduled := false;
      StartHeartbeat();
    }

    /** `startHearbeat` */
    method StartHeartbeat()
      requires client > 0
      modifies this
      ensures Valid()
      ensures Snapshot() == old(Snapshot()).(isAlive := Some(true), heartbeatActive := true)
    {
      isAlive := Some(true);
      heartbeatActive := true;
    }

    /**
     * `data`: forward the replies of the response, in order, if the session
     * was alive; then mark it alive. If `isAlive` was never assigned, the
     * first reply line reads it and throws, and nothing changes.
     */
    method ParseResponse(response: string)
      requires Valid() && client > 0
      modifies this
      ensures Valid()
      ensures old(isAlive).None? && Forwarded(response) != [] ==> Snapshot() == old(Snapshot())
      ensures !(old(isAlive).None? && Forwarded(response) != []) ==>
                Snapshot() == old(Snapshot()).(isAlive := Some(true),
                                               responses := old(responses)
                                                 + (if old(isAlive) == Some(true) then Forwarded(response) else []))
    {
      var lines := SplitLines(response);
      var i := 0;
      while i < |lines|
        invariant 0 <= i <= |lines|
        invariant Snapshot() == old(Snapshot()).(responses := responses)
        invariant responses == old(responses) + (if isAlive == Some(true) then Replies(lines[..i]) else [])
        invariant isAlive.None? ==> Replies(lines[..i]) == []
      {
        assert lines[..i + 1] == lines[..i] + [lines[i]];
        RepliesAppend(lines[..i], [lines[i]]);
        if lines[i] != Prompt && |lines[i]| > 0 {
          if isAlive.None? {
            // ReferenceError: isAlive is not defined
            RepliesExactly(lines);
            return;
          }
          if isAlive == Some(true) {
            responses := responses + [lines[i]];
          }
        }
        i := i + 1;
      }
      assert lines[..i] == lines;
      isAlive := Some(true);
    }

    /**
     * A heartbeat tick: a session that showed life since the last tick is
     * probed with `gettime`; a silent one is destroyed, reconnect allowed.
     */
    method CheckHeartbeat()
      requires Valid() && heartbeatActive
      modifies this
      ensures Valid()
      ensures old(isAlive) == Some(true) ==>
                Snapshot() == old(Snapshot()).(isAlive := Some(false),
                                               sentToSocket := old(sentToSocket) + [HeartbeatCommand + "\r"])
      ensures old(isAlive) != Some(true) ==>
                Snapshot() == old(Snapshot()).(doNotReconnect := false, lifecycle := old(lifecycle) + [Destroy(client)])
    {
      if isAlive == Some(true) {
        isAlive := Some(false);
        SendToSocket(HeartbeatCommand);
        return;
      }
      doNotReconnect := false;
      lifecycle := lifecycle + [Destroy(client)];
    }

    /** `failedlogin`: report it, forbid reconnecting, destroy the client. */
    method FailedLoginEventHandler()
      requires Valid() && client > 0
      modifies this
      ensures Valid()
      ensures Snapshot() == old(Snapshot()).(responses := old(responses) + [LoginFailedMessage],
                                             doNotReconnect := true, lifecycle := old(lifecycle) + [Destroy(client)])
    {
      responses := responses + [LoginFailedMessage];
      doNotReconnect := true;
      lifecycle := lifecycle + [Destroy(client)];
    }

    /** `timeout`: allow reconnecting, destroy the client. */
    method TimeoutEventHandler()
      requires Valid() && client > 0
      modifies this
      ensures Valid()
      ensures Snapshot() == old(Snapshot()).(doNotReconnect := false, lifecycle := old(lifecycle) + [Destroy(client)])
    {
      doNotReconnect := false;
      lifecycle := lifecycle + [Destroy(client)];
    }

    /** A rejected connection attempt: allow reconnecting, destroy the client. */
    method ErrorEventHandler()
      requires Valid() && client > 0
      modifies this
      ensures Valid()
      ensures Snapshot() == old(Snapshot()).(doNotReconnect := false, lifecycle := old(lifecycle) + [Destroy(client)])
    {
      doNotReconnect := false;
      lifecycle := lifecycle + [Destroy(client)];
    }

    /**
     * `close` of the client: cancel both timers, report the disconnection,
     * and unless reconnecting is forbidden schedule one reconnect.
     */
    method CloseEventHandler()
      requires Valid()
      modifies this
      ensures Valid()
      ensures !heartbeatActive
      ensures reconnectScheduled <==> !old(doNotReconnect)
      ensures retrying == (old(retrying) || !old(doNotReconnect))
      ensures Snapshot() == old(Snapshot()).(heartbeatActive := false, reconnectScheduled := !old(doNotReconnect),
                                             retrying := retrying,
                                             responses := old(responses) + [DisconnectedMessage])
    {
      heartbeatActive := false;
      reconnectScheduled := false;
      responses := responses + [DisconnectedMessage];
      if !retrying && !doNotReconnect {
        retrying := true;
      }
      if !doNotReconnect {
        reconnectScheduled := true;
      }
    }

    /** The reconnect timeout fires: `connect` is called with no arguments. */
    method ReconnectTimerFires()
      requires Valid() && reconnectScheduled
      modifies this
      ensures Valid()
      ensures Snapshot() == old(Snapshot()).(reconnectScheduled := false, client := old(client) + 1)
    {
      reconnectScheduled := false;
      Connect(None, None);
    }
  }

  /** Two ticks with no data between them: one probe, then the client is destroyed. */
  method TwoSilentTicks(s: LutronSession)
    requires s.Valid() && s.heartbeatActive && s.isAlive == Some(true)
    modifies s
    ensures s.sentToSocket == old(s.sentToSocket) + ["gettime\r"]
    ensures s.lifecycle == old(s.lifecycle) + [Destroy(s.client)]
    ensures !s.doNotReconnect && s.client == old(s.client)
  {
    assert HeartbeatCommand + "\r" == "gettime\r";
    s.CheckHeartbeat();
    s.CheckHeartbeat();
  }

  /** A reply between two ticks keeps the session: no client call at all. */
  method TickReplyTick(s: LutronSession, reply: string)
    requires s.Valid() && s.heartbeatActive && s.isAlive == Some(true)
    modifies s
    ensures s.lifecycle == old(s.lifecycle)
    ensures s.sentToSocket == old(s.sentToSocket) + ["gettime\r", "gettime\r"]
    ensures s.responses == old(s.responses)
  {
    assert HeartbeatCommand + "\r" == "gettime\r";
    s.CheckHeartbeat();
    s.ParseResponse(reply);
    s.CheckHeartbeat();
  }

  /** An explicit close followed by the client's close event schedules no reconnect. */
  method ExplicitCloseNeverReconnects(s: LutronSession)
    requires s.Valid() && s.client > 0
    modifies s
    ensures !s.reconnectScheduled && !s.heartbeatActive && s.doNotReconnect
    ensures s.lifecycle == old(s.lifecycle) + [End(s.client)]
    ensures s.responses == old(s.responses) + [DisconnectedMessage]
  {
    s.Close();
    s.CloseEventHandler();
  }

  /** A failed login is destroyed and not retried. */
  method FailedLoginNeverReconnects(s: LutronSession)
    requires s.Valid() && s.client > 0
    modifies s
    ensures !s.reconnectScheduled
    ensures s.responses == old(s.responses) + [LoginFailedMessage, DisconnectedMessage]
  {
    s.FailedLoginEventHandler();
    s.CloseEventHandler();
  }

  /**
   * A timeout leads to exactly one scheduled reconnect, but that reconnect
   * calls `connect` without arguments: a new client object is made and no
   * connection is opened.
   */
  method TimeoutReconnectNeverDials(s: LutronSession)
    requires s.Valid() && s.client > 0
    modifies s
    ensures s.lifecycle == old(s.lifecycle) + [Destroy(old(s.client))]
    ensures s.client == old(s.client) + 1 && !s.reconnectScheduled && s.retrying
  {
    s.TimeoutEventHandler();
    s.CloseEventHandler();
    assert s.reconnectScheduled;
    s.ReconnectTimerFires();
  }
}
