/**
 * The batch rule of the status route (app/api/server-status/route.ts, `GET`):
 * every configured server gets one record, in configuration order; the HTTP
 * response carries only the first of them; and when the handler fails, it
 * answers with a bare degraded record for every
 * configured server, without truncation.
 *
 * The concurrent `Promise.all` fan-out is modelled as a sequential map: the
 * only thing it contributes is that results keep the order of the configs.
 * The lookups themselves are network I/O and arrive as a parameter, one
 * Outcome per configured server.
 */
module ServerStatusRoute {
  import opened StatusNormalizer

  /** How many records the response exposes (`serverData.slice(0, 1)`). */
  const MaxServersReturned: nat := 1

  /** How a run of the handler goes: the per-server lookups end in the given
      outcomes and the response is built, or the handler fails and its outer
      `catch` answers instead. */
  datatype Dispatch = Dispatched(outcomes: seq<Outcome>) | Crashed

  /** The records of `SERVERS_CONFIG.map(...)`, awaited together. */
  function StatusList(configs: seq<ServerConfig>, outcomes: seq<Outcome>): (rs: seq<ServerStatus>)
    requires |outcomes| == |configs|
    ensures |rs| == |configs|
    ensures forall i :: 0 <= i < |configs| ==> rs[i] == StatusFor(configs[i], outcomes[i])
  {
    if configs == [] then []
    else [StatusFor(configs[0], outcomes[0])] + StatusList(configs[1..], outcomes[1..])
  }

  /** The records of the outer `catch`: one bare degraded record per config. */
  function FallbackList(configs: seq<ServerConfig>): (rs: seq<ServerStatus>)
    ensures |rs| == |configs|
    ensures forall i :: 0 <= i < |configs| ==>
              Degraded(rs[i], configs[i]) && rs[i].motd == Undefined
              && rs[i].icon == Undefined && rs[i].version == Undefined
  {
    if configs == [] then []
    else [BareDegradedRecord(configs[0])] + FallbackList(configs[1..])
  }

  /** The `servers` array of the JSON response. */
  function Get(configs: seq<ServerConfig>, run: Dispatch): (servers: seq<ServerStatus>)
    requires run.Dispatched? ==> |run.outcomes| == |configs|
    ensures run.Dispatched? ==>
              && |servers| == (if |configs| < MaxServersReturned then |configs| else MaxServersReturned)
              && (|configs| > 0 ==> servers == [StatusFor(configs[0], run.outcomes[0])])
    ensures run.Crashed? ==> servers == FallbackList(configs)
  {
    match run
    case Dispatched(outcomes) =>
      var all := StatusList(configs, outcomes);
      all[..if |all| < MaxServersReturned then |all| else MaxServersReturned]
    case Crashed => FallbackList(configs)
  }
}
