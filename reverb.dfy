/**
 * The first agent's singleton WebSocket client (services/reverb.py): one
 * shared instance, initialised once, a `retries` counter that is never
 * reset, and a fire-and-forget `send` that connects on demand.
 *
 * As in the V2 client, `network(k)` says whether the k-th connection
 * attempt succeeds and `delivery(k)` whether the k-th send does; `sent` is
 * what reached the server.
 */
module Reverb {
  import opened Wrappers

  /** The module-level settings read from the environment when the file is imported; a missing variable is `None`. */
  datatype ReverbConfig = ReverbConfig(
    agentVersion: Option<string>,
    retries: int,
    serverId: Option<string>,
    uri: Option<string>,
    channel: Option<string>)

  /** The JSON message `send` writes. */
  datatype Envelope<D> = Envelope(
    event: string,
    channel: Option<string>,
    serverId: Option<string>,
    agentVersion: Option<string>,
    action: string,
    data: D)

  /** The envelope for an action: the event name is the action prefixed with `agent.`. */
  function EnvelopeFor<D>(config: ReverbConfig, action: string, data: D): (e: Envelope<D>)
    ensures e.event == "agent." + action && e.action == action && e.data == data
    ensures e.channel == config.channel && e.serverId == config.serverId && e.agentVersion == config.agentVersion
  {
    Envelope("agent." + action, config.channel, config.serverId, config.agentVersion, action, data)
  }

  /** The loop of `_connect` terminates: with a budget of zero it runs until an attempt succeeds. */
  ghost predicate ConnectTerminates(retries: int, attempt: nat, network: nat -> bool) {
    retries != 0 || exists k :: attempt <= k && network(k)
  }

  class ReverbClient<D> {
    const config: ReverbConfig
    const network: nat -> bool
    const delivery: nat -> bool

    /** `hasattr(self, 'initialized')`. */
    var initialized: bool
    var retries: nat
    /** `self.websocket`: the attempt whose connection is held, if any. */
    var websocket: Option<nat>
    var attempts: nat
    var sends: nat
    var closeRequested: bool
    var sent: seq<Envelope<D>>

    /** `__new__` of the first instance: an object with no attributes set yet. */
    constructor Allocate(config: ReverbConfig, network: nat -> bool, delivery: nat -> bool)
      ensures this.config == config && this.network == network && this.delivery == delivery
      ensures !initialized && websocket == None && attempts == 0 && sends == 0 && sent == [] && !closeRequested
    {
      this.config := config;
      this.network := network;
      this.delivery := delivery;
      initialized := false;
      retries := 0;
      websocket := None;
      attempts := 0;
      sends := 0;
      closeRequested := false;
      sent := [];
    }

    /** `__init__`: runs on every construction, but sets the state only the first time. */
    method Init()
      modifies this
      ensures initialized
      ensures !old(initialized) ==> retries == 0 && websocket == None
      ensures old(initialized) ==> retries == old(retries) && websocket == old(websocket)
      ensures attempts == old(attempts) && sends == old(sends) && sent == old(sent) && closeRequested == old(closeRequested)
    {
      if !initialized {
        initialized := true;
        retries := 0;
        websocket := None;
      }
    }

    /**
     * `_connect`: attempt while `retries < RETRIES` or `RETRIES == 0`,
     * stopping at the first success; afterwards, if `retries >= RETRIES`,
     * the connection is dropped, which with `RETRIES == 0` is always.
     */
    method Connect()
      requires ConnectTerminates(config.retries, attempts, network)
      modifies this
      ensures old(attempts) <= attempts
      ensures var succeeded := attempts > old(attempts) && network(attempts - 1);
        && retries == old(retries) + (attempts - old(attempts)) - (if succeeded then 1 else 0)
        && (forall k :: old(attempts) <= k < attempts - (if succeeded then 1 else 0) ==> !network(k))
        && (!succeeded ==> retries >= config.retries && config.retries != 0)
        && websocket == (if succeeded && retries < config.retries then Some(attempts - 1) else None)
      ensures config.retries == 0 ==> websocket == None && attempts > old(attempts) && network(attempts - 1)
      ensures initialized == old(initialized) && sends == old(sends) && sent == old(sent) && closeRequested == old(closeRequested)
    {
      ghost var target: nat := 0;
      if config.retries == 0 {
        target :| attempts <= target && network(target);
      }
      ghost var succeeded := false;
      while retries < config.retries || config.retries == 0
        invariant old(attempts) <= attempts
        invariant config.retries == 0 ==> attempts <= target && network(target)
        invariant retries == old(retries) + (attempts - old(attempts))
        invariant forall k :: old(attempts) <= k < attempts ==> !network(k)
        invariant initialized == old(initialized) && sends == old(sends) && sent == old(sent) && closeRequested == old(closeRequested)
        decreases if config.retries == 0 then target - attempts else config.retries - retries
      {
        if network(attempts) {
          websocket := Some(attempts);
          attempts := attempts + 1;
          succeeded := true;
          break;
        }
        retries := retries + 1;
        attempts := attempts + 1;
      }
      if succeeded {
        assert attempts > old(attempts) && network(attempts - 1);
      } else {
        assert !(attempts > old(attempts) && network(attempts - 1));
        if config.retries == 0 {
          assert false;
        }
      }
      if retries >= config.retries {
        websocket := None;
      }
    }

    /**
     * `send`: connect only when there is no connection, send nothing if
     * there still is none, and swallow a failed send, keeping the connection.
     */
    method Send(action: string, data: D)
      requires websocket.Some? || ConnectTerminates(config.retries, attempts, network)
      modifies this
      ensures old(websocket).Some? ==> websocket == old(websocket) && retries == old(retries) && attempts == old(attempts)
      ensures old(websocket).None? && config.retries == 0 ==> websocket == None && sent == old(sent)
      ensures websocket.None? ==> sent == old(sent) && sends == old(sends)
      ensures websocket.Some? ==>
        && sends == old(sends) + 1
        && sent == old(sent) + (if delivery(old(sends)) then [EnvelopeFor(config, action, data)] else [])
      ensures initialized == old(initialized) && closeRequested == old(closeRequested)
    {
      if websocket.None? {
        Connect();
      }
      if websocket.Some? {
        var delivered := delivery(sends);
        sends := sends + 1;
        if delivered {
          sent := sent + [EnvelopeFor(config, action, data)];
        }
      }
    }

    /** `close`. */
    method Close()
      modifies this
      ensures closeRequested == (old(closeRequested) || websocket.Some?)
      ensures websocket == old(websocket) && retries == old(retries) && attempts == old(attempts)
      ensures sends == old(sends) && sent == old(sent) && initialized == old(initialized)
    {
      if websocket.Some? {
        closeRequested := true;
      }
    }
  }

  /** The class attribute `_instance`, and the environment the instance is built in. */
  class Registry<D> {
    const config: ReverbConfig
    const network: nat -> bool
    const delivery: nat -> bool
    var instance: ReverbClient?<D>

    ghost predicate Valid()
      reads this, instance
    {
      instance != null ==> instance.initialized && instance.config == config && instance.network == network && instance.delivery == delivery
    }

    constructor (config: ReverbConfig, network: nat -> bool, delivery: nat -> bool)
      ensures Valid() && instance == null
      ensures this.config == config && this.network == network && this.delivery == delivery
    {
      this.config := config;
      this.network := network;
      this.delivery := delivery;
      instance := null;
    }

    /** `WebSocketClient()`: `__new__` then `__init__`. Every call after the first returns the same object, unchanged. */
    method Construct() returns (client: ReverbClient<D>)
      requires Valid()
      modifies this, instance
      ensures Valid() && instance == client
      ensures old(instance) != null ==> client == old(instance)
      ensures old(instance) != null ==> client.retries == old(client.retries) && client.websocket == old(client.websocket)
      ensures old(instance) != null ==> client.attempts == old(client.attempts) && client.sent == old(client.sent)
      ensures old(instance) == null ==> fresh(client) && client.retries == 0 && client.websocket == None
      ensures old(instance) == null ==> client.attempts == 0 && client.sends == 0 && client.sent == []
    {
      if instance == null {
        instance := new ReverbClient.Allocate(config, network, delivery);
      }
      client := instance;
      client.Init();
    }
  }

  /** Two constructions give one object. */
  method ConstructTwice<D>(registry: Registry<D>) returns (first: ReverbClient<D>, second: ReverbClient<D>)
    requires registry.Valid()
    modifies registry, registry.instance
    ensures first == second
  {
    first := registry.Construct();
    second := registry.Construct();
  }
}
