/**
 * The first agent's start-up (agent.py): connect the singleton client,
 * refuse to go on without a connection, and subscribe once, remembered by
 * a flag in a one-row settings table.
 *
 * `send` is a coroutine that `subscribe_agent` calls without awaiting, so
 * the call creates the coroutine and nothing else: the subscribe message is
 * requested but never reaches the socket, while the flag is set anyway.
 */
module SubscribeOnce {
  import opened Wrappers
  import opened Reverb

  /** One call of `subscribe_agent` on the flag of row 1 (`None` when the row is missing): the new flag, and whether a send was requested. */
  function SubscribeStep(row: Option<int>): (r: (Option<int>, bool))
    ensures r.0.Some? && r.0.value != 0
    ensures r.1 <==> row.None? || row == Some(0)
    ensures r.1 ==> r.0 == Some(1)
    ensures !r.1 ==> r.0 == row
  {
    var current := if row.None? then 0 else row.value;
    if current == 0 then (Some(1), true) else (row, false)
  }

  /** The number of sends requested by `n` calls in a row. */
  function RequestsOver(row: Option<int>, n: nat): nat
    decreases n
  {
    if n == 0 then 0
    else (if SubscribeStep(row).1 then 1 else 0) + RequestsOver(SubscribeStep(row).0, n - 1)
  }

  /** Any number of calls requests the subscription at most once. */
  lemma {:induction false} AtMostOneRequest(row: Option<int>, n: nat)
    ensures RequestsOver(row, n) <= 1
    ensures row.Some? && row.value != 0 ==> RequestsOver(row, n) == 0
    decreases n
  {
    if n > 0 {
      AtMostOneRequest(SubscribeStep(row).0, n - 1);
    }
  }

  /** The `settings` table, reduced to the `subscribed` column of row 1. */
  class SettingsTable {
    var subscribed: Option<int>
    /** Sends requested by `subscribe_agent`, none of which is ever run. */
    var requested: nat

    constructor (subscribed: Option<int>)
      ensures this.subscribed == subscribed && requested == 0
    {
      this.subscribed := subscribed;
      requested := 0;
    }

    /**
     * `subscribe_agent`: insert the row with flag 0 if it is missing; then,
     * when the flag is 0, request a send and set the flag. The client is
     * not touched, since the coroutine is never awaited.
     */
    method SubscribeAgent<D>(client: ReverbClient<D>)
      modifies this
      ensures (subscribed, requested > old(requested)) == SubscribeStep(old(subscribed))
      ensures requested <= old(requested) + 1
    {
      if subscribed.None? {
        subscribed := Some(0);
      }
      if subscribed.value == 0 {
        requested := requested + 1;
        subscribed := Some(1);
      }
    }
  }

  /**
   * `main` up to the monitors: connect, raise when there is no socket
   * before the database is opened, else subscribe. With `RETRIES == 0`
   * the connection is always dropped, so `main` always raises.
   */
  method StartAgent<D>(registry: Registry<D>, table: SettingsTable) returns (result: Result<ReverbClient<D>, string>)
    requires registry.Valid()
    requires registry.instance == null
    requires ConnectTerminates(registry.config.retries, 0, registry.network)
    modifies registry, table
    ensures result.Err? ==> table.subscribed == old(table.subscribed) && table.requested == old(table.requested)
    ensures result.Ok? ==> result.value.websocket.Some?
    ensures result.Ok? ==> (table.subscribed, table.requested > old(table.requested)) == SubscribeStep(old(table.subscribed))
    ensures registry.config.retries == 0 ==> result.Err?
  {
    var client := registry.Construct();
    client.Connect();
    if client.websocket.None? {
      return Err("Failed to connect to the WebSocket server");
    }
    table.SubscribeAgent(client);
    result := Ok(client);
  }
}
