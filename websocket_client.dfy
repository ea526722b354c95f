/**
 * The agent's WebSocket client (communication/websocket_client.py): a
 * bounded connection retry loop over a `connected` flag and a
 * `retry_count` that is reset only by success, reconnect on close, and
 * disconnect on a failed send.
 *
 * The transport is an input: `network(k)` says whether the k-th connection
 * attempt is opened within its five one-second waits, and `delivery(k)`
 * whether the k-th send succeeds. The socket is the log `sent` of what was
 * delivered. The payload type `D` is whatever the caller sends.
 */
module Transport {
  /** A message as the client serialises it. */
  datatype Outbound<D> =
    | Message(event: string, serverId: string, channel: string, agentVersion: string, data: D)
    | Subscribe(channel: string, serverId: string, agentVersion: string,
                hostname: string, platform: string, platformVersion: string,
                timestamp: string, dataEvents: seq<string>)

  /**
   * The connect loop from a retry count, an attempt index and the
   * connection flag: the final retry count, flag and attempt index.
   */
  function ConnectFrom(retryCount: int, connected: bool, attempt: nat, maxRetries: int, network: nat -> bool): (r: (int, bool, nat))
    ensures connected ==> r == (retryCount, true, attempt)
    ensures attempt <= r.2
    decreases maxRetries - retryCount
  {
    if connected || retryCount >= maxRetries then (retryCount, connected, attempt)
    else if network(attempt) then (0, true, attempt + 1)
    else ConnectFrom(retryCount + 1, false, attempt + 1, maxRetries, network)
  }

  /** A command received from the server, as `_handle_command` tells them apart. */
  datatype CommandKind = Restart | Update | UnknownCommand

  /** `_on_message` then `_handle_command`: only messages whose event is `command` are handled. */
  function CommandOf(event: string, command: string): (r: CommandKind)
    ensures r == Restart <==> event == "command" && command == "restart"
    ensures r == Update <==> event == "command" && command == "update"
  {
    if event != "command" then UnknownCommand
    else if command == "restart" then Restart
    else if command == "update" then Update
    else UnknownCommand
  }

  class WebSocketClient<D> {
    const uri: string
    const serverId: string
    const channel: string
    const agentVersion: string
    const maxRetries: int
    const hostname: string
    const platform: string
    const platformVersion: string
    const network: nat -> bool
    const delivery: nat -> bool

    /** `self.ws is not None`: some attempt has created a socket. */
    var hasSocket: bool
    var connected: bool
    var retryCount: int
    /** How many connection attempts and sends have been made so far. */
    var attempts: nat
    var sends: nat
    var closeRequested: bool
    var sent: seq<Outbound<D>>

    /** The flag is only raised by a socket's open callback, so a connected client has a socket. */
    ghost predicate Valid()
      reads this
    {
      connected ==> hasSocket
    }

    constructor (uri: string, serverId: string, channel: string, agentVersion: string, retries: int,
                 hostname: string, platform: string, platformVersion: string,
                 network: nat -> bool, delivery: nat -> bool)
      ensures Valid()
      ensures this.uri == uri && this.serverId == serverId && this.channel == channel
      ensures this.agentVersion == agentVersion && this.maxRetries == retries
      ensures this.hostname == hostname && this.platform == platform && this.platformVersion == platformVersion
      ensures this.network == network && this.delivery == delivery
      ensures !hasSocket && !connected && retryCount == 0 && attempts == 0 && sends == 0
      ensures !closeRequested && sent == []
    {
      this.uri := uri;
      this.serverId := serverId;
      this.channel := channel;
      this.agentVersion := agentVersion;
      this.maxRetries := retries;
      this.hostname := hostname;
      this.platform := platform;
      this.platformVersion := platformVersion;
      this.network := network;
      this.delivery := delivery;
      hasSocket := false;
      connected := false;
      retryCount := 0;
      attempts := 0;
      sends := 0;
      closeRequested := false;
      sent := [];
    }

    /**
     * `connect`: attempt while the retry budget lasts and the client is not
     * connected. Success resets the count; giving up leaves it where it is.
     */
    method Connect() returns (ok: bool)
      requires Valid()
      modifies this
      ensures Valid()
      ensures (retryCount, connected, attempts) == ConnectFrom(old(retryCount), old(connected), old(attempts), maxRetries, network)
      ensures ok == connected
      ensures hasSocket == (old(hasSocket) || attempts > old(attempts))
      ensures sent == old(sent) && sends == old(sends) && closeRequested == old(closeRequested)
    {
      while retryCount < maxRetries && !connected
        invariant Valid()
        invariant ConnectFrom(retryCount, connected, attempts, maxRetries, network)
          == ConnectFrom(old(retryCount), old(connected), old(attempts), maxRetries, network)
        invariant old(attempts) <= attempts
        invariant hasSocket == (old(hasSocket) || attempts > old(attempts))
        invariant sent == old(sent) && sends == old(sends) && closeRequested == old(closeRequested)
        decreases maxRetries - retryCount
      {
        hasSocket := true;
        var isOpen := network(attempts);
        attempts := attempts + 1;
        if isOpen {
          connected := true;
          retryCount := 0;
          return true;
        } else {
          assert ConnectFrom(retryCount, false, attempts - 1, maxRetries, network)
            == ConnectFrom(retryCount + 1, false, attempts, maxRetries, network);
          retryCount := retryCount + 1;
        }
      }
      ok := connected;
    }

    /** `disconnect`: close the socket if there is one. */
    method Disconnect()
      modifies this
      ensures closeRequested == (old(closeRequested) || hasSocket)
      ensures hasSocket == old(hasSocket) && connected == old(connected) && retryCount == old(retryCount)
      ensures attempts == old(attempts) && sends == old(sends) && sent == old(sent)
    {
      if hasSocket {
        closeRequested := true;
      }
    }

    /** `_on_open`, called by the socket once it is open. */
    method OnOpen()
      requires hasSocket
      modifies this
      ensures Valid() && connected
      ensures hasSocket == old(hasSocket) && retryCount == old(retryCount) && attempts == old(attempts)
      ensures sends == old(sends) && sent == old(sent) && closeRequested == old(closeRequested)
    {
      connected := true;
    }

    /** `_on_error`. */
    method OnError()
      modifies this
      ensures !connected
      ensures hasSocket == old(hasSocket) && retryCount == old(retryCount) && attempts == old(attempts)
      ensures sends == old(sends) && sent == old(sent) && closeRequested == old(closeRequested)
    {
      connected := false;
    }

    /** `_on_close`: drop the flag, and reconnect only while the retry budget lasts. */
    method OnClose()
      requires Valid()
      modifies this
      ensures Valid()
      ensures old(retryCount) < maxRetries ==>
        (retryCount, connected, attempts) == ConnectFrom(old(retryCount), false, old(attempts), maxRetries, network)
      ensures old(retryCount) >= maxRetries ==>
        !connected && retryCount == old(retryCount) && attempts == old(attempts)
      ensures sends == old(sends) && sent == old(sent) && closeRequested == old(closeRequested)
    {
      connected := false;
      if retryCount < maxRetries {
        var _ := Connect();
      }
    }

    /**
     * `send_message`: reconnect first if needed and give up without
     * sending when that fails; a failed send drops the flag.
     */
    method SendMessage(event: string, data: D) returns (ok: bool)
      requires Valid()
      modifies this
      ensures Valid()
      ensures !old(connected) ==>
        && retryCount == ConnectFrom(old(retryCount), false, old(attempts), maxRetries, network).0
        && attempts == ConnectFrom(old(retryCount), false, old(attempts), maxRetries, network).2
      ensures old(connected) ==> retryCount == old(retryCount) && attempts == old(attempts)
      ensures ok ==> sent == old(sent) + [Message(event, serverId, channel, agentVersion, data)] && connected
      ensures !ok ==> sent == old(sent) && !connected
      ensures ok <==> (old(connected) || ConnectFrom(old(retryCount), false, old(attempts), maxRetries, network).1)
                      && delivery(old(sends))
    {
      if !connected {
        var reconnected := Connect();
        if !reconnected {
          return false;
        }
      }
      var delivered := delivery(sends);
      sends := sends + 1;
      if delivered {
        sent := sent + [Message(event, serverId, channel, agentVersion, data)];
        ok := true;
      } else {
        connected := false;
        ok := false;
      }
    }

    /**
     * `send_subscribe_message`: sent on whatever socket there is, without
     * checking the flag; with no socket at all the send raises.
     */
    method SendSubscribeMessage(timestamp: string) returns (ok: bool)
      requires Valid()
      modifies this
      ensures Valid()
      ensures ok <==> old(hasSocket) && delivery(old(sends))
      ensures ok ==> sent == old(sent) + [Subscribe(channel, serverId, agentVersion, hostname, platform, platformVersion, timestamp, ["agent.subscribe"])]
      ensures ok ==> connected == old(connected)
      ensures !ok ==> sent == old(sent) && !connected
      ensures sends == old(sends) + (if old(hasSocket) then 1 else 0)
      ensures retryCount == old(retryCount) && attempts == old(attempts) && hasSocket == old(hasSocket)
    {
      if !hasSocket {
        connected := false;
        return false;
      }
      var delivered := delivery(sends);
      sends := sends + 1;
      if delivered {
        sent := sent + [Subscribe(channel, serverId, agentVersion, hostname, platform, platformVersion, timestamp, ["agent.subscribe"])];
        ok := true;
      } else {
        connected := false;
        ok := false;
      }
    }
  }

  // ---------------------------------------------------------------------
  // Properties of the retry loop.
  // ---------------------------------------------------------------------

  /**
   * What the loop ends with: a success resets the count after the first
   * attempt that opens, with every earlier attempt a failure; giving up
   * leaves the count at the budget (or above it, when it already was)
   * after exactly one attempt per unit of budget left.
   */
  lemma {:induction false} ConnectOutcome(retryCount: int, attempt: nat, maxRetries: int, network: nat -> bool)
    ensures var r := ConnectFrom(retryCount, false, attempt, maxRetries, network);
      && (r.1 ==> r.0 == 0 && attempt < r.2 && network(r.2 - 1))
      && (forall k :: attempt <= k < r.2 - 1 ==> !network(k))
      && (!r.1 ==> r.0 == (if retryCount >= maxRetries then retryCount else maxRetries))
      && (!r.1 ==> r.2 == attempt + (if retryCount >= maxRetries then 0 else maxRetries - retryCount))
    decreases maxRetries - retryCount
  {
    if retryCount < maxRetries && !network(attempt) {
      ConnectOutcome(retryCount + 1, attempt + 1, maxRetries, network);
    }
  }

  /** Against a transport that never opens, the loop makes `max_retries - retry_count` attempts and gives up. */
  lemma {:induction false} FailingTransportExhaustsBudget(retryCount: int, attempt: nat, maxRetries: int, network: nat -> bool)
    requires forall k :: attempt <= k ==> !network(k)
    ensures ConnectFrom(retryCount, false, attempt, maxRetries, network)
      == (if retryCount >= maxRetries then (retryCount, false, attempt) else (maxRetries, false, attempt + (maxRetries - retryCount)))
    decreases maxRetries - retryCount
  {
    if retryCount < maxRetries {
      FailingTransportExhaustsBudget(retryCount + 1, attempt + 1, maxRetries, network);
    }
  }

  /** Once the budget is spent, every later `connect` makes no attempt and fails. */
  lemma ExhaustedBudgetMakesNoAttempt(retryCount: int, attempt: nat, maxRetries: int, network: nat -> bool)
    requires retryCount >= maxRetries
    ensures ConnectFrom(retryCount, false, attempt, maxRetries, network) == (retryCount, false, attempt)
  {
  }

  /** A first attempt that opens gives a connected client with a fresh budget after one attempt. */
  lemma FirstAttemptSucceeds(retryCount: int, attempt: nat, maxRetries: int, network: nat -> bool)
    requires retryCount < maxRetries && network(attempt)
    ensures ConnectFrom(retryCount, false, attempt, maxRetries, network) == (0, true, attempt + 1)
  {
  }

  /** The loop connects exactly when some attempt within the remaining budget opens. */
  lemma {:induction false} ConnectsIffAttemptWithinBudget(retryCount: int, attempt: nat, maxRetries: int, network: nat -> bool)
    ensures ConnectFrom(retryCount, false, attempt, maxRetries, network).1
      <==> exists k :: attempt <= k < attempt + (maxRetries - retryCount) && network(k)
    decreases maxRetries - retryCount
  {
    if retryCount < maxRetries && !network(attempt) {
      ConnectsIffAttemptWithinBudget(retryCount + 1, attempt + 1, maxRetries, network);
      if exists k :: attempt <= k < attempt + (maxRetries - retryCount) && network(k) {
        var k :| attempt <= k < attempt + (maxRetries - retryCount) && network(k);
        assert attempt + 1 <= k;
      }
    }
  }
}
