/**
 * Properties of the status route that relate several calls or fix concrete
 * inputs: per-server fault isolation, order and id preservation of the
 * batch, the first-record-only response against the untruncated fallback,
 * the displayed address, and a worked provider payload.
 */
module StatusRouteProperties {
  import opened Wrappers
  import Decimal
  import opened StatusNormalizer
  import opened ServerStatusRoute

  /** The ids of a configuration and of a list of records, in order; two
      functions because the two lists have different element types. */
  function ConfigIds(configs: seq<ServerConfig>): seq<string> {
    seq(|configs|, i requires 0 <= i < |configs| => configs[i].id)
  }

  function StatusIds(rs: seq<ServerStatus>): seq<string> {
    seq(|rs|, i requires 0 <= i < |rs| => rs[i].id)
  }

  /** The records come back with exactly the configured ids, in order. */
  lemma StatusListKeepsIds(configs: seq<ServerConfig>, outcomes: seq<Outcome>)
    requires |outcomes| == |configs|
    ensures StatusIds(StatusList(configs, outcomes)) == ConfigIds(configs)
  {
  }

  /** The batch is a map: the records of a split configuration are the
      records of its parts, put side by side. */
  lemma StatusListSplits(c1: seq<ServerConfig>, o1: seq<Outcome>,
                         c2: seq<ServerConfig>, o2: seq<Outcome>)
    requires |o1| == |c1| && |o2| == |c2|
    ensures StatusList(c1 + c2, o1 + o2) == StatusList(c1, o1) + StatusList(c2, o2)
  {
  }

  /** A fault in one lookup turns that server's record, and no other, into a
      degraded record. */
  lemma FaultIsolation(configs: seq<ServerConfig>, outcomes: seq<Outcome>, k: nat)
    requires |outcomes| == |configs| && k < |configs|
    ensures var faulted := StatusList(configs, outcomes[k := Fault]);
            && |faulted| == |configs|
            && Degraded(faulted[k], configs[k])
            && forall j :: 0 <= j < |configs| && j != k ==>
                 faulted[j] == StatusList(configs, outcomes)[j]
  {
  }

  /** A failing run answers for every configured server, while a run that
      dispatched answers for at most the first one. */
  lemma FallbackIsNotTruncated(configs: seq<ServerConfig>, outcomes: seq<Outcome>)
    requires |outcomes| == |configs|
    ensures |Get(configs, Crashed)| == |configs|
    ensures StatusIds(Get(configs, Crashed)) == ConfigIds(configs)
    ensures |Get(configs, Dispatched(outcomes))| <= 1
    ensures |configs| > 1 ==> |Get(configs, Dispatched(outcomes))| < |Get(configs, Crashed)|
  {
  }

  lemma FallbackKeepsIds(configs: seq<ServerConfig>)
    ensures StatusIds(FallbackList(configs)) == ConfigIds(configs)
  {
  }

  /** When the provider names a host, the displayed address is that host, a
      colon, and the port's decimal text, which reads back as the port the
      provider gave, or 25565 when it gave none or 0. */
  lemma AddressPortReadsBack(body: ProviderResponse, configHost: string)
    requires TruthyText(body.hostname) || TruthyText(body.ip)
    ensures var a := Address(body, configHost);
            var h := AddressHost(body, configHost);
            && |a| > |h| + 1 && a[..|h| + 1] == h + ":"
            && Decimal.IsDecimal(a[|h| + 1..])
            && Decimal.DecimalValue(a[|h| + 1..]) == (if TruthyNumber(body.port) then body.port.value else 25565)
  {
    var a := Address(body, configHost);
    var h := AddressHost(body, configHost);
    var t := Decimal.IntToDecimal(EffectivePort(body.port));
    assert a == h + ":" + t;
    assert a[..|h| + 1] == h + ":";
    assert a[|h| + 1..] == t;
    Decimal.IntToDecimalRoundTrip(EffectivePort(body.port));
  }

  /** A list of plain names and objects with names normalises to the names,
      in the provider's order. */
  lemma NamedPlayersKept(entries: seq<PlayerEntry>, names: seq<string>)
    requires |names| == |entries|
    requires forall i :: 0 <= i < |entries| ==>
               entries[i] == PlayerString(names[i]) || (entries[i] == PlayerObject(Some(names[i])) && names[i] != "")
    ensures var r := NormalizeEntries(entries);
            && r.Some? && |r.value| == |names|
            && forall i :: 0 <= i < |names| ==> r.value[i] == Name(names[i])
  {
    assert forall i :: 0 <= i < |entries| ==> !entries[i].PlayerNull?;
  }

  /** A payload reporting the server online, 3 of 20 players with their
      names, a provider hostname and port 25566. */
  function ExamplePayload(): ProviderResponse {
    ProviderResponse(
      Some(true),
      Some(Players(Some(3), Some(20), Some(ArrayValue([PlayerString("Ana"), PlayerString("Bo"), PlayerString("Cy")])))),
      None,
      Some("mc.example.com"),
      None,
      Some(25566),
      None,
      None)
  }

  lemma ExamplePayloadRecord(cfg: ServerConfig)
    ensures var r := StatusFor(cfg, Ok(ExamplePayload()));
            && r.online && r.players == 3 && r.maxPlayers == 20
            && r.playerList == [Name("Ana"), Name("Bo"), Name("Cy")]
            && r.ip == "mc.example.com:25566"
            && r.uptime == Value("Online")
            && r.motd == Value([])
            && r.icon == Null && r.version == Null
  {
    ExamplePlayers();
    ExampleAddress(cfg.host);
  }

  /** The worked payload's player list normalises to its three names. */
  lemma ExamplePlayers()
    ensures PlayerListOf(ExamplePayload().players) == Some([Name("Ana"), Name("Bo"), Name("Cy")])
  {
    var entries := [PlayerString("Ana"), PlayerString("Bo"), PlayerString("Cy")];
    var names := ["Ana", "Bo", "Cy"];
    NamedPlayersKept(entries, names);
    var listed := NormalizeEntries(entries).value;
    assert listed[0] == Name("Ana") && listed[1] == Name("Bo") && listed[2] == Name("Cy");
    assert listed == [Name("Ana"), Name("Bo"), Name("Cy")];
  }

  /** The worked payload's hostname and port give the displayed address. */
  lemma ExampleAddress(configHost: string)
    ensures Address(ExamplePayload(), configHost) == "mc.example.com:25566"
  {
    var body := ExamplePayload();
    assert AddressHost(body, configHost) == "mc.example.com";
    assert EffectivePort(body.port) == 25566;
    ExamplePortText();
  }

  /** Port 25566 prints as "25566". */
  lemma ExamplePortText()
    ensures Decimal.IntToDecimal(25566) == "25566"
  {
    assert Decimal.NatToDecimal(2) == "2";
    assert Decimal.NatToDecimal(25) == "25";
    assert Decimal.NatToDecimal(255) == "255";
    assert Decimal.NatToDecimal(2556) == "2556";
    assert Decimal.NatToDecimal(25566) == "25566";
  }
}
