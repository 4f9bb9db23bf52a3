# Server status route, modelled in Dafny

This project models the server-status endpoint of a small game-server
dashboard (`app/api/server-status/route.ts`). For each configured Minecraft
server (id, name, image, host) the route asks the mcsrvstat.us v3 API for the
server's state and turns the answer into one fixed-shape `ServerStatus`
record: online flag, player counts, player names, message-of-the-day lines,
icon, version, an uptime label and a displayed address. The HTTP response
carries only the first record; if the handler itself fails, it answers with a
degraded record for every configured server.

The model is pure, like the route's logic:

- `wrappers.dfy` — `Option`, for every field a provider payload may omit.
- `decimal.dfy` — how a JavaScript template literal prints an integer port,
  with the inverse reading and the round trip between them.
- `normalizer.dfy` — module `StatusNormalizer`: the input and output
  datatypes, JavaScript truthiness (`||`) on the payload's values, the two
  kinds of degraded record, and the per-server step `StatusFor` for the three
  lookup outcomes (non-OK response, thrown fault, OK JSON body).
- `route.dfy` — module `ServerStatusRoute`: the per-server map over the
  configuration, the `slice(0, 1)` response, and the fallback list.
- `properties.dfy` — module `StatusRouteProperties`: lemmas relating several
  calls (id order, fault isolation, truncation against the fallback, the
  address's port text, a worked payload).

The failure branches of the route build different records, and some payload
values pass through unchanged; the model follows the code:

- The record built by the per-server `catch` (route.ts:101-110) and by the
  outer fallback (route.ts:121-130) has no `motd`, `icon`, `version` or
  `uptime` property at all. The non-OK record (route.ts:23-36) has `motd: []`
  and null `icon` and `version`. The model keeps these as two records,
  `NotOkRecord` and `BareDegradedRecord`, that share the `Degraded` predicate.
  The output type `Prop` tells a left-out property from `null`.
- Player counts are passed through unchanged when truthy, so a negative count
  from the provider would stay negative. The model uses `int`, not `nat`.
- A player object whose `name` is missing or empty is passed through as the
  object itself, not as a string. The model keeps it as `UnnamedObject`.
- A JSON `null` element of the player list makes `player.name` throw. That
  throw is caught per server and produces the bare degraded record.
- `online` is true only for a literal `true`.

## Model

| member | source | states |
|---|---|---|
| `StatusNormalizer.StatusFor` | app/api/server-status/route.ts:8-111 | id, name and image always come from the configuration; uptime is "Online" exactly when online and absent otherwise; a non-OK response gives a degraded record with address `host:25565`, no players, empty motd and null icon and version; a thrown fault gives a degraded record without motd, icon or version |
| `StatusNormalizer.OkRecord` | app/api/server-status/route.ts:39-98 | for an OK body: online only for a literal true; each count is 0 exactly when missing or 0, and is the provider's count otherwise; icon and version are null exactly when falsy and the provider's value otherwise; motd is always present; a throw while building the record gives the degraded record without motd, icon or version |
| `StatusNormalizer.NormalizeEntries` | app/api/server-status/route.ts:50-54 | the result has the provider list's length and order; a string stays itself; an object with a non-empty name becomes that name; an object without one is passed through; the map throws exactly when some element is null |
| `StatusNormalizer.PlayerListOf` | app/api/server-status/route.ts:49-55 | a missing players object, a missing list or a list that is not an array gives the empty list |
| `StatusNormalizer.MotdLines` | app/api/server-status/route.ts:58 | the truthy `clean` value is used first, then the truthy `raw` value, and otherwise the lines are empty |
| `StatusNormalizer.MessageLines` | app/api/server-status/route.ts:94 | an array of lines is kept whole; a string becomes a single line, or no line when it is empty |
| `StatusNormalizer.Address` | app/api/server-status/route.ts:77-81 | a non-empty hostname gives `hostname:port`, else a non-empty ip gives `ip:port`, else `configHost:25565`; a missing or zero port prints as 25565 |
| `StatusNormalizer.DefaultPortText` | app/api/server-status/route.ts:78-81 | the default port 25565 prints as the literal the route writes by hand, so all address forms agree |
| `ServerStatusRoute.StatusList` | app/api/server-status/route.ts:7-113 | exactly one record per configured server, in order, each being the per-server step applied to that server's own lookup |
| `ServerStatusRoute.FallbackList` | app/api/server-status/route.ts:120-131 | one bare degraded record per configured server, in order |
| `ServerStatusRoute.Get` | app/api/server-status/route.ts:4-133 | after dispatch the response holds min(1, N) records, namely the first server's record; when the handler fails it holds the full fallback list |
| `Decimal.NatToDecimal` | app/api/server-status/route.ts:78 | a natural prints as at least one digit, with a leading zero only for 0 |
| `Decimal.IntToDecimal` | app/api/server-status/route.ts:78 | an integer prints as a canonical decimal numeral, with a minus sign exactly when negative |
| `Decimal.NatToDecimalRoundTrip` | app/api/server-status/route.ts:78 | reading back the printed digits gives the natural |
| `Decimal.IntToDecimalRoundTrip` | app/api/server-status/route.ts:78 | reading back the printed numeral gives the integer |
| `Decimal.IntToDecimalInjective` | app/api/server-status/route.ts:78 | different ports never print the same text |
| `StatusRouteProperties.StatusListKeepsIds` | app/api/server-status/route.ts:7-8 | the ids of the records are the configured ids, in order |
| `StatusRouteProperties.StatusListSplits` | app/api/server-status/route.ts:7-8 | the batch is a map: splitting the configuration splits the records the same way |
| `StatusRouteProperties.FaultIsolation` | app/api/server-status/route.ts:99-111 | a fault in one lookup degrades that server's record and leaves every other record unchanged |
| `StatusRouteProperties.FallbackIsNotTruncated` | app/api/server-status/route.ts:116-131 | the fallback answers for all N servers with their ids in order, while a dispatched run answers for at most one |
| `StatusRouteProperties.FallbackKeepsIds` | app/api/server-status/route.ts:121-130 | the fallback records carry the configured ids, in order |
| `StatusRouteProperties.AddressPortReadsBack` | app/api/server-status/route.ts:77-80 | with a provider hostname or ip, the address is that host, a colon and a numeral that reads back as the provider's port, or 25565 when it is missing or 0 |
| `StatusRouteProperties.NamedPlayersKept` | app/api/server-status/route.ts:49-55 | a list of plain names and named objects becomes exactly those names, in order |
| `StatusRouteProperties.ExamplePayloadRecord` | app/api/server-status/route.ts:39-98 | an online payload with 3 of 20 players named Ana, Bo and Cy, hostname mc.example.com and port 25566 gives that record, address `mc.example.com:25566` and uptime "Online" |

## Left out

- The `fetch` calls to mcsrvstat.us (route.ts:13-19): network I/O. Each lookup's result is a parameter, the `Outcome` datatype. A body that is not JSON throws in `response.json()`, so it is a `Fault`.
- JSON parsing and `NextResponse.json` serialisation: library code. A property set to `undefined` and one left out serialise the same, so both are `Undefined`.
- `console.log` and `console.error` logging: no effect on the result.
- `Promise.all` concurrency: modelled as a sequential map, since only the order of results matters.
- The contents of `SERVERS_CONFIG` (`@/lib/servers-config`): not part of this model. The configuration is a parameter.
- What makes the outer `catch` run: the model takes it as the `Crashed` run and does not name a cause.
- Provider values of a JSON type other than the one the model gives each field are not modelled. Examples: a non-boolean `online`; non-integer or non-numeric counts and ports; a non-string `hostname`, `ip`, `icon`, `version` or player `name`; a `players` or `motd` that is not an object; non-string elements inside a `motd.clean` or `motd.raw` array; a player-list element that is a number, a boolean or an array (route.ts:53 passes those through); and a body that is not an object.
- `Decimal.IntToDecimal`: prints every integer exactly, while JavaScript prints integers above 2^53 by the shortest digits that round back to the same double, and from 10^21 in exponent notation; no port reaches these magnitudes, so `Address` and `StatusRouteProperties.AddressPortReadsBack` agree with the route only for ports of magnitude at most 2^53.
- `app/page.tsx`: the React page (polling timer, snapshot replacement, clipboard copy, notifications, decorative randomness) is presentation code and not part of this model.
