/**
 * The per-server step of the status route: one configured server plus the
 * outcome of one lookup against the mcsrvstat.us v3 API becomes one
 * fixed-shape ServerStatus record (app/api/server-status/route.ts, the body
 * of the callback given to `SERVERS_CONFIG.map`).
 *
 * JavaScript's `||` is modelled by the truthiness predicates below: a missing
 * value, an empty string and the number 0 are falsy, an array (even an empty
 * one) and an object are truthy.
 */
module StatusNormalizer {
  import opened Wrappers
  import Decimal

  /** The Minecraft port used whenever none is known. */
  const DefaultPort: int := 25565

  /** The only uptime label the route ever produces. */
  const OnlineLabel: string := "Online"

  // ---------------------------------------------------------------------
  // Input: the server configuration and the provider's answer
  // ---------------------------------------------------------------------

  /** One entry of the static server configuration. */
  datatype ServerConfig = ServerConfig(id: string, name: string, image: string, host: string)

  /** One element of `players.list`: a plain string, an object that may carry
      a `name`, or a JSON `null`. */
  datatype PlayerEntry = PlayerString(s: string) | PlayerObject(name: Option<string>) | PlayerNull

  /** The `players.list` field: an array, or any value that is not an array. */
  datatype PlayerListField = ArrayValue(entries: seq<PlayerEntry>) | NotArray

  datatype Players = Players(online: Option<int>, max: Option<int>, list: Option<PlayerListField>)

  /** `motd.clean` and `motd.raw` are arrays of lines, but a provider may also
      send a single string. */
  datatype MessageValue = Lines(lines: seq<string>) | Text(text: string)

  datatype Motd = Motd(clean: Option<MessageValue>, raw: Option<MessageValue>)

  /** The fields of the provider's JSON object that the route reads. */
  datatype ProviderResponse = ProviderResponse(
    online: Option<bool>,
    players: Option<Players>,
    motd: Option<Motd>,
    hostname: Option<string>,
    ip: Option<string>,
    port: Option<int>,
    icon: Option<string>,
    version: Option<string>)

  /** What one lookup ends in: an HTTP response that is not OK, a thrown
      fault (transport failure or a body that is not JSON), or an OK response
      whose JSON body is given. */
  datatype Outcome = NotOk | Fault | Ok(body: ProviderResponse)

  // ---------------------------------------------------------------------
  // Output: the ServerStatus record
  // ---------------------------------------------------------------------

  /** A property of the returned object: left out (or `undefined`, which JSON
      serialisation drops alike), `null`, or a value. */
  datatype Prop<+T> = Undefined | Null | Value(v: T)

  /** An element of the output `playerList`. A string, or, for an object
      whose `name` is missing or empty, that object passed through as is. */
  datatype ListedPlayer = Name(s: string) | UnnamedObject(name: Option<string>)

  datatype ServerStatus = ServerStatus(
    id: string,
    name: string,
    image: string,
    ip: string,
    online: bool,
    players: int,
    maxPlayers: int,
    playerList: seq<ListedPlayer>,
    motd: Prop<seq<string>>,
    icon: Prop<string>,
    version: Prop<string>,
    uptime: Prop<string>)

  // ---------------------------------------------------------------------
  // JavaScript truthiness of the payload's values
  // ---------------------------------------------------------------------

  predicate TruthyText(v: Option<string>) {
    v.Some? && v.value != ""
  }

  predicate TruthyNumber(v: Option<int>) {
    v.Some? && v.value != 0
  }

  predicate TruthyMessage(v: Option<MessageValue>) {
    v.Some? && (v.value.Lines? || v.value.text != "")
  }

  /** `x || 0` on a JSON number. */
  function NumberOrZero(v: Option<int>): int {
    if TruthyNumber(v) then v.value else 0
  }

  /** `x || null` on a JSON string. */
  function TextOrNull(v: Option<string>): Prop<string> {
    if TruthyText(v) then Value(v.value) else Null
  }

  // ---------------------------------------------------------------------
  // The degraded records
  // ---------------------------------------------------------------------

  /** The address shown when the provider gives none: the configured host
      on the default port. */
  function DefaultAddress(host: string): string {
    host + ":25565"
  }

  /** What every degraded record says, whichever branch built it. */
  predicate Degraded(r: ServerStatus, cfg: ServerConfig) {
    && r.id == cfg.id && r.name == cfg.name && r.image == cfg.image
    && r.ip == DefaultAddress(cfg.host)
    && !r.online && r.players == 0 && r.maxPlayers == 0
    && r.playerList == []
    && r.uptime == Undefined
  }

  /** The record for a non-OK HTTP response: empty message lines, null icon
      and version, no uptime. */
  function NotOkRecord(cfg: ServerConfig): ServerStatus {
    ServerStatus(cfg.id, cfg.name, cfg.image, DefaultAddress(cfg.host), false, 0, 0, [],
                 Value([]), Null, Null, Undefined)
  }

  /** The record built in a `catch`: it has no motd, icon, version or uptime
      property at all. */
  function BareDegradedRecord(cfg: ServerConfig): ServerStatus {
    ServerStatus(cfg.id, cfg.name, cfg.image, DefaultAddress(cfg.host), false, 0, 0, [],
                 Undefined, Undefined, Undefined, Undefined)
  }

  // ---------------------------------------------------------------------
  // The OK branch, field by field
  // ---------------------------------------------------------------------

  /** `player.name || player` for an object element. */
  function ListPlayerObject(name: Option<string>): ListedPlayer {
    if TruthyText(name) then Name(name.value) else UnnamedObject(name)
  }

  /**
   * `list.map(player => typeof player === 'string' ? player : player.name || player)`.
   * None when the map throws: reading `.name` of a `null` element raises a
   * TypeError.
   */
  function NormalizeEntries(entries: seq<PlayerEntry>): (r: Option<seq<ListedPlayer>>)
    ensures r.None? <==> exists i :: 0 <= i < |entries| && entries[i].PlayerNull?
    ensures r.Some? ==> |r.value| == |entries|
    ensures r.Some? ==> forall i :: 0 <= i < |entries| && entries[i].PlayerString? ==>
                          r.value[i] == Name(entries[i].s)
    ensures r.Some? ==> forall i :: 0 <= i < |entries| && entries[i].PlayerObject? ==>
                          if TruthyText(entries[i].name) then r.value[i] == Name(entries[i].name.value)
                          else r.value[i] == UnnamedObject(entries[i].name)
  {
    if entries == [] then Some([])
    else if entries[0].PlayerNull? then None
    else
      var rest := NormalizeEntries(entries[1..]);
      if rest.None? then
        assert exists i :: 1 <= i < |entries| && entries[i].PlayerNull? by {
          var j :| 0 <= j < |entries[1..]| && entries[1..][j].PlayerNull?;
          assert entries[j + 1] == entries[1..][j];
        }
        None
      else
        var head := if entries[0].PlayerString? then Name(entries[0].s) else ListPlayerObject(entries[0].name);
        var r := [head] + rest.value;
        assert forall i :: 1 <= i < |entries| ==> r[i] == rest.value[i - 1] && entries[i] == entries[1..][i - 1];
        Some(r)
  }

  /** The `playerList` of the OK branch; None when normalising it throws. */
  function PlayerListOf(players: Option<Players>): (r: Option<seq<ListedPlayer>>)
    ensures (players.None? || players.value.list.None? || players.value.list.value.NotArray?)
            ==> r == Some([])
  {
    if players.Some? && players.value.list.Some? && players.value.list.value.ArrayValue? then
      NormalizeEntries(players.value.list.value.entries)
    else
      Some([])
  }

  /** `motd?.clean || motd?.raw || []`, then an array is kept and anything
      else becomes `[value].filter(Boolean)`. */
  function MotdLines(motd: Option<Motd>): (lines: seq<string>)
    ensures motd.Some? && TruthyMessage(motd.value.clean) ==>
              lines == MessageLines(motd.value.clean.value)
    ensures motd.Some? && !TruthyMessage(motd.value.clean) && TruthyMessage(motd.value.raw) ==>
              lines == MessageLines(motd.value.raw.value)
    ensures (motd.None? || (!TruthyMessage(motd.value.clean) && !TruthyMessage(motd.value.raw)))
            ==> lines == []
  {
    if motd.Some? && TruthyMessage(motd.value.clean) then MessageLines(motd.value.clean.value)
    else if motd.Some? && TruthyMessage(motd.value.raw) then MessageLines(motd.value.raw.value)
    else []
  }

  /** An array is kept whole; a string becomes one line, or none if empty. */
  function MessageLines(m: MessageValue): (lines: seq<string>)
    ensures m.Lines? ==> lines == m.lines
    ensures m.Text? ==> |lines| <= 1 && (lines == [] <==> m.text == "")
    ensures m.Text? && m.text != "" ==> lines[0] == m.text
  {
    match m
    case Lines(ls) => ls
    case Text(s) => if s == "" then [] else [s]
  }

  /** `port || 25565`. */
  function EffectivePort(port: Option<int>): int {
    if TruthyNumber(port) then port.value else DefaultPort
  }

  /** The host part of the displayed address: provider hostname, else
      provider ip, else the configured host. */
  function AddressHost(body: ProviderResponse, configHost: string): string {
    if TruthyText(body.hostname) then body.hostname.value
    else if TruthyText(body.ip) then body.ip.value
    else configHost
  }

  /** The displayed address built in the OK branch. */
  function Address(body: ProviderResponse, configHost: string): (a: string)
    ensures TruthyText(body.hostname) ==>
              a == body.hostname.value + ":" + Decimal.IntToDecimal(EffectivePort(body.port))
    ensures !TruthyText(body.hostname) && TruthyText(body.ip) ==>
              a == body.ip.value + ":" + Decimal.IntToDecimal(EffectivePort(body.port))
    ensures !TruthyText(body.hostname) && !TruthyText(body.ip) ==> a == DefaultAddress(configHost)
    ensures !TruthyNumber(body.port) ==> a == AddressHost(body, configHost) + ":25565"
  {
    DefaultPortText();
    if TruthyText(body.hostname) || TruthyText(body.ip) then
      AddressHost(body, configHost) + ":" + Decimal.IntToDecimal(EffectivePort(body.port))
    else
      DefaultAddress(configHost)
  }

  /** The default port prints as the literal the route writes by hand. */
  lemma DefaultPortText()
    ensures Decimal.IntToDecimal(DefaultPort) == "25565"
  {
  }

  /** The record of the OK branch, or the bare degraded record when building
      it throws inside the `try`. */
  function OkRecord(cfg: ServerConfig, body: ProviderResponse): (r: ServerStatus)
    ensures r.id == cfg.id && r.name == cfg.name && r.image == cfg.image
    // a `null` player element throws, and the catch degrades the record
    ensures PlayerListOf(body.players).None? ==>
              Degraded(r, cfg) && r.motd == Undefined && r.icon == Undefined && r.version == Undefined
    ensures PlayerListOf(body.players).Some? ==>
      // `online || false`: only a literal true is online
      && (r.online <==> body.online == Some(true))
      // `players?.online || 0` and `players?.max || 0`: a missing or zero count is 0
      && (r.players == 0 <==> !(body.players.Some? && TruthyNumber(body.players.value.online)))
      && (r.players != 0 ==> r.players == body.players.value.online.value)
      && (r.maxPlayers == 0 <==> !(body.players.Some? && TruthyNumber(body.players.value.max)))
      && (r.maxPlayers != 0 ==> r.maxPlayers == body.players.value.max.value)
      && r.playerList == PlayerListOf(body.players).value
      // the message lines are always present, possibly empty
      && r.motd == Value(MotdLines(body.motd))
      // icon and version are passed through when truthy and null otherwise
      && (r.icon == Null <==> !TruthyText(body.icon)) && (r.icon != Null ==> r.icon == Value(body.icon.value))
      && (r.version == Null <==> !TruthyText(body.version)) && (r.version != Null ==> r.version == Value(body.version.value))
      && r.ip == Address(body, cfg.host)
  {
    var online := body.online == Some(true);
    var playerList := PlayerListOf(body.players);
    if playerList.None? then BareDegradedRecord(cfg)
    else
      ServerStatus(
        cfg.id, cfg.name, cfg.image,
        Address(body, cfg.host),
        online,
        if body.players.Some? then NumberOrZero(body.players.value.online) else 0,
        if body.players.Some? then NumberOrZero(body.players.value.max) else 0,
        playerList.value,
        Value(MotdLines(body.motd)),
        TextOrNull(body.icon),
        TextOrNull(body.version),
        if online then Value(OnlineLabel) else Undefined)
  }

  /** One element of the route's `SERVERS_CONFIG.map`. */
  function StatusFor(cfg: ServerConfig, outcome: Outcome): (r: ServerStatus)
    // identity comes from the configuration on every path
    ensures r.id == cfg.id && r.name == cfg.name && r.image == cfg.image
    // uptime is the fixed label exactly when online, and absent otherwise
    ensures r.uptime == (if r.online then Value(OnlineLabel) else Undefined)
    ensures outcome.NotOk? ==> Degraded(r, cfg) && r.motd == Value([]) && r.icon == Null && r.version == Null
    ensures outcome.Fault? ==> Degraded(r, cfg) && r.motd == Undefined && r.icon == Undefined && r.version == Undefined
  {
    match outcome
    case NotOk => NotOkRecord(cfg)
    case Fault => BareDegradedRecord(cfg)
    case Ok(body) => OkRecord(cfg, body)
  }
}
