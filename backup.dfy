/**
 * The backup generator: resolves the organization by name, then writes the
 * restore script, organization-level requests first and one guarded block
 * per network after them. The vendor SDK's reads are replaced by the data
 * they return (an OrgSnapshot); the script is written as Replay items.
 */
module Backup {
  import opened Wrappers
  import opened Json
  import opened Sanitize
  import opened Replay

  /** A row of the organization listing. */
  datatype Organization = Organization(id: string, name: string)

  datatype BackupError = OrganizationNotFound

  /** An SSID as listed, with the per-SSID L3 rules fetched for its number. */
  datatype SsidSnapshot = SsidSnapshot(row: Record, l3Rules: seq<Value>)

  /** A network row of the listing, with what is fetched for its id. */
  datatype NetworkSnapshot = NetworkSnapshot(
    row: Record,
    vlansEnabledState: Record,
    vlans: seq<Value>,
    cellularRules: seq<Value>,
    l3Rules: seq<Value>,
    siteToSiteVpn: Value,
    ssids: Option<seq<SsidSnapshot>>)

  /** What the SDK returns for the resolved organization. */
  datatype OrgSnapshot = OrgSnapshot(
    admins: seq<Value>,
    vpnRules: seq<Value>,
    snmp: Record,
    vpnPeers: Value,
    networks: seq<NetworkSnapshot>)

  /** What the generator prints on the console while it writes. */
  datatype Notice =
    | Processing(network: string)
    | VlansDisabled
    | DummyRadiusPassword(ssid: string)

  /** The generated script and the console log. */
  datatype Output = Output(script: seq<Item>, console: seq<Notice>)

  // ---------------------------------------------------------------------
  // Organization lookup

  /** The first organization named exactly `orgName`, or OrganizationNotFound. */
  method GetOrgId(organizations: seq<Organization>, orgName: string)
    returns (r: Result<string, BackupError>)
    ensures r.Err? <==> forall i :: 0 <= i < |organizations| ==> organizations[i].name != orgName
    ensures r.Ok? ==>
      exists i :: 0 <= i < |organizations| && organizations[i].name == orgName
        && organizations[i].id == r.value
        && forall j :: 0 <= j < i ==> organizations[j].name != orgName
  {
    for i := 0 to |organizations|
      invariant forall j :: 0 <= j < i ==> organizations[j].name != orgName
    {
      if organizations[i].name == orgName {
        return Ok(organizations[i].id);
      }
    }
    return Err(OrganizationNotFound);
  }

  // ---------------------------------------------------------------------
  // What the source indexes without checking (a KeyError or IndexError there)

  predicate SsidReady(s: SsidSnapshot)
  {
    && "number" in s.row
    && ("radiusServers" in s.row ==>
          RadiusEditable(s.row["radiusServers"]) && "name" in s.row && s.row["name"].Str?)
  }

  predicate SsidsReady(ssids: Option<seq<SsidSnapshot>>)
  {
    ssids.Some? ==> forall i :: 0 <= i < |ssids.value| ==> SsidReady(ssids.value[i])
  }

  /** A network row whose `type` is "systems manager" is skipped. */
  predicate SystemsManager(n: NetworkSnapshot)
    requires "type" in n.row
  {
    n.row["type"] == Str("systems manager")
  }

  predicate NetworkReady(n: NetworkSnapshot)
  {
    && "tags" in n.row
    && "id" in n.row
    && "name" in n.row && n.row["name"].Str?
    && "enabled" in n.vlansEnabledState
    && SsidsReady(n.ssids)
  }

  predicate Listable(n: NetworkSnapshot)
  {
    "type" in n.row && (!SystemsManager(n) ==> NetworkReady(n))
  }

  predicate AllListable(networks: seq<NetworkSnapshot>)
  {
    forall i :: 0 <= i < |networks| ==> Listable(networks[i])
  }

  predicate OrgReady(data: OrgSnapshot)
  {
    SnmpStrippable(data.snmp) && AllListable(data.networks)
  }

  // ---------------------------------------------------------------------
  // What each write_* function appends

  function AdminItems(admins: seq<Value>): seq<Item>
  {
    if admins == [] then []
    else AdminItems(admins[..|admins| - 1]) + [Request(Op(Post, Admins, admins[|admins| - 1]))]
  }

  /** A firewall payload: the trimmed rules and one fixed boolean flag. */
  function RulesBody(rules: seq<Value>, flag: string, on: bool): Value
  {
    Obj(map["rules" := Arr(rules), flag := Bool(on)])
  }

  function VpnRulesItem(rules: seq<Value>): Item
  {
    Request(Op(Put, VpnFirewallRules, RulesBody(TrimDefaultRule(rules), "syslogEnabled", true)))
  }

  function SnmpItem(snmp: Record): Item
    requires SnmpStrippable(snmp)
  {
    CheckedRequest(Op(Put, Snmp, Obj(StripSnmp(snmp))))
  }

  function PeersItem(peers: Value): Item
  {
    CheckedRequest(Op(Put, ThirdPartyVpnPeers, peers))
  }

  function VlanPosts(vlans: seq<Value>): seq<Item>
  {
    if vlans == [] then []
    else VlanPosts(vlans[..|vlans| - 1]) + [Request(Op(Post, Vlans, vlans[|vlans| - 1]))]
  }

  function VlanItems(state: Record, vlans: seq<Value>): seq<Item>
    requires "enabled" in state
  {
    [Request(Op(Put, VlansEnabledState, Obj(state)))]
      + (if Truthy(state["enabled"]) then VlanPosts(vlans) else [])
  }

  function VlanNotices(state: Record): seq<Notice>
    requires "enabled" in state
  {
    if Truthy(state["enabled"]) then [] else [VlansDisabled]
  }

  function CellularItem(rules: seq<Value>): Item
  {
    Request(Op(Put, CellularFirewallRules, RulesBody(TrimDefaultRule(rules), "syslogEnabled", false)))
  }

  function L3Item(rules: seq<Value>): Item
  {
    Request(Op(Put, L3FirewallRules, RulesBody(TrimDefaultRule(rules), "syslogDefaultRule", false)))
  }

  function VpnSettingsItem(vpn: Value): Item
  {
    Request(Op(Put, SiteToSiteVpn, vpn))
  }

  /** The SSID update, then the SSID's L3 rules. */
  function SsidPair(s: SsidSnapshot): seq<Item>
    requires SsidReady(s)
  {
    var number := s.row["number"];
    [ Request(Op(Put, Ssid(number), Obj(WithDummyRadiusSecret(s.row)))),
      Request(Op(Put, SsidL3FirewallRules(number), RulesBody(TrimSsidRules(s.l3Rules), "allowLanAccess", true))) ]
  }

  function SsidList(ss: seq<SsidSnapshot>): seq<Item>
    requires forall i :: 0 <= i < |ss| ==> SsidReady(ss[i])
  {
    if ss == [] then [] else SsidList(ss[..|ss| - 1]) + SsidPair(ss[|ss| - 1])
  }

  function SsidItems(ssids: Option<seq<SsidSnapshot>>): seq<Item>
    requires SsidsReady(ssids)
  {
    match ssids
    case None => []
    case Some(ss) => SsidList(ss)
  }

  /** The items and notices for the first `i + 1` SSIDs extend those for the first `i`. */
  lemma SsidsSnoc(ss: seq<SsidSnapshot>, i: nat)
    requires forall j :: 0 <= j < |ss| ==> SsidReady(ss[j])
    requires i < |ss|
    ensures SsidList(ss[..i + 1]) == SsidList(ss[..i]) + SsidPair(ss[i])
    ensures SsidNotices(ss[..i + 1]) == SsidNotices(ss[..i]) + SsidNotice(ss[i])
  {
    assert ss[..i + 1][..i] == ss[..i];
  }

  function SsidNotice(s: SsidSnapshot): seq<Notice>
    requires SsidReady(s)
  {
    if "radiusServers" in s.row then [DummyRadiusPassword(s.row["name"].s)] else []
  }

  function SsidNotices(ss: seq<SsidSnapshot>): seq<Notice>
    requires forall i :: 0 <= i < |ss| ==> SsidReady(ss[i])
  {
    if ss == [] then [] else SsidNotices(ss[..|ss| - 1]) + SsidNotice(ss[|ss| - 1])
  }

  function NetworkName(n: NetworkSnapshot): string
    requires NetworkReady(n)
  {
    n.row["name"].s
  }

  /** What is written inside a network's block after its id is bound. */
  function SettingsItems(n: NetworkSnapshot): seq<Item>
    requires NetworkReady(n)
  {
    VlanItems(n.vlansEnabledState, n.vlans)
    + [CellularItem(n.cellularRules), L3Item(n.l3Rules), VpnSettingsItem(n.siteToSiteVpn)]
    + SsidItems(n.ssids)
  }

  /** The guarded block written for one network. */
  function NetworkItems(n: NetworkSnapshot): seq<Item>
    requires NetworkReady(n)
  {
    [ BeginNetwork(NetworkName(n)),
      Request(Op(Post, Networks, Obj(SanitizeNetworkRow(n.row)))),
      BindNetworkId ]
    + SettingsItems(n)
    + [EndNetwork(NetworkName(n)), Flush]
  }

  function SettingsNotices(n: NetworkSnapshot): seq<Notice>
    requires NetworkReady(n)
  {
    VlanNotices(n.vlansEnabledState) + (if n.ssids.Some? then SsidNotices(n.ssids.value) else [])
  }

  function NetworkNotices(n: NetworkSnapshot): seq<Notice>
    requires NetworkReady(n)
  {
    [Processing(NetworkName(n))] + SettingsNotices(n)
  }

  function NetworksItems(networks: seq<NetworkSnapshot>): seq<Item>
    requires AllListable(networks)
  {
    if networks == [] then []
    else
      var n := networks[|networks| - 1];
      NetworksItems(networks[..|networks| - 1]) + (if SystemsManager(n) then [] else NetworkItems(n))
  }

  lemma AppendAssoc<T>(a: seq<T>, b: seq<T>, c: seq<T>)
    ensures a + b + c == a + (b + c)
  {
  }

  /** The script and log for the first `i + 1` networks extend those for the first `i`. */
  lemma NetworksSnoc(networks: seq<NetworkSnapshot>, i: nat)
    requires AllListable(networks) && i < |networks|
    ensures AllListable(networks[..i]) && AllListable(networks[..i + 1]) && Listable(networks[i])
    ensures NetworksItems(networks[..i + 1]) == NetworksItems(networks[..i])
      + (if SystemsManager(networks[i]) then [] else NetworkItems(networks[i]))
    ensures NetworksNotices(networks[..i + 1]) == NetworksNotices(networks[..i])
      + (if SystemsManager(networks[i]) then [] else NetworkNotices(networks[i]))
  {
    assert networks[..i + 1][..i] == networks[..i];
  }

  function NetworksNotices(networks: seq<NetworkSnapshot>): seq<Notice>
    requires AllListable(networks)
  {
    if networks == [] then []
    else
      var n := networks[|networks| - 1];
      NetworksNotices(networks[..|networks| - 1]) + (if SystemsManager(n) then [] else NetworkNotices(n))
  }

  /** Admins, VPN firewall rules, SNMP settings and third-party VPN peers, in that order. */
  function OrgItems(data: OrgSnapshot): seq<Item>
    requires SnmpStrippable(data.snmp)
  {
    AdminItems(data.admins) + [VpnRulesItem(data.vpnRules), SnmpItem(data.snmp), PeersItem(data.vpnPeers)]
  }

  /** The header and the organization-level requests, with their two flush points. */
  function OrgSection(data: OrgSnapshot): seq<Item>
    requires SnmpStrippable(data.snmp)
  {
    [Preamble, Flush] + OrgItems(data) + [Flush]
  }

  /** The whole restore script written for an organization. */
  function Program(data: OrgSnapshot): seq<Item>
    requires OrgReady(data)
  {
    OrgSection(data) + NetworksItems(data.networks)
  }

  function ConsoleLog(data: OrgSnapshot): seq<Notice>
    requires OrgReady(data)
  {
    NetworksNotices(data.networks)
  }

  // ---------------------------------------------------------------------
  // The writer

  /** The open restore script and the console, both append-only. */
  class Emitter {
    var script: seq<Item>
    var console: seq<Notice>

    constructor ()
      ensures script == [] && console == []
    {
      script := [];
      console := [];
    }

    /** write_restore_header. */
    method WriteRestoreHeader()
      modifies this
      ensures script == old(script) + [Preamble] && console == old(console)
    {
      script := script + [Preamble];
    }

    method WriteAdmins(admins: seq<Value>)
      modifies this
      ensures script == old(script) + AdminItems(admins) && console == old(console)
    {
      for i := 0 to |admins|
        invariant script == old(script) + AdminItems(admins[..i]) && console == old(console)
      {
        assert admins[..i + 1][..i] == admins[..i];
        script := script + [Request(Op(Post, Admins, admins[i]))];
      }
      assert admins[..|admins|] == admins;
    }

    method WriteMxVpnFwRules(rules: seq<Value>)
      modifies this
      ensures script == old(script) + [VpnRulesItem(rules)] && console == old(console)
    {
      var trimmed := TrimDefaultRule(rules);
      script := script + [Request(Op(Put, VpnFirewallRules, RulesBody(trimmed, "syslogEnabled", true)))];
    }

    method WriteSnmpSettings(snmp: Record)
      requires SnmpStrippable(snmp)
      modifies this
      ensures script == old(script) + [SnmpItem(snmp)] && console == old(console)
    {
      var stripped := StripSnmp(snmp);
      script := script + [CheckedRequest(Op(Put, Snmp, Obj(stripped)))];
    }

    method WriteNonMerakiVpnPeers(peers: Value)
      modifies this
      ensures script == old(script) + [PeersItem(peers)] && console == old(console)
    {
      script := script + [CheckedRequest(Op(Put, ThirdPartyVpnPeers, peers))];
    }

    method WriteMxVlans(state: Record, vlans: seq<Value>)
      requires "enabled" in state
      modifies this
      ensures script == old(script) + VlanItems(state, vlans)
      ensures console == old(console) + VlanNotices(state)
    {
      script := script + [Request(Op(Put, VlansEnabledState, Obj(state)))];
      if Truthy(state["enabled"]) {
        ghost var before := script;
        for i := 0 to |vlans|
          invariant script == before + VlanPosts(vlans[..i]) && console == old(console)
        {
          assert vlans[..i + 1][..i] == vlans[..i];
          script := script + [Request(Op(Post, Vlans, vlans[i]))];
        }
        assert vlans[..|vlans|] == vlans;
      } else {
        console := console + [VlansDisabled];
      }
    }

    method WriteMxCellularFwRules(rules: seq<Value>)
      modifies this
      ensures script == old(script) + [CellularItem(rules)] && console == old(console)
    {
      var trimmed := TrimDefaultRule(rules);
      script := script + [Request(Op(Put, CellularFirewallRules, RulesBody(trimmed, "syslogEnabled", false)))];
    }

    method WriteMxL3FwRules(rules: seq<Value>)
      modifies this
      ensures script == old(script) + [L3Item(rules)] && console == old(console)
    {
      var trimmed := TrimDefaultRule(rules);
      script := script + [Request(Op(Put, L3FirewallRules, RulesBody(trimmed, "syslogDefaultRule", false)))];
    }

    method WriteVpnSettings(vpn: Value)
      modifies this
      ensures script == old(script) + [VpnSettingsItem(vpn)] && console == old(console)
    {
      script := script + [Request(Op(Put, SiteToSiteVpn, vpn))];
    }

    method WriteSsidSettings(ssids: Option<seq<SsidSnapshot>>)
      requires SsidsReady(ssids)
      modifies this
      ensures script == old(script) + SsidItems(ssids)
      ensures console == old(console) + (if ssids.Some? then SsidNotices(ssids.value) else [])
    {
      if ssids.None? {
        return;
      }
      var ss := ssids.value;
      for i := 0 to |ss|
        invariant script == old(script) + SsidList(ss[..i])
        invariant console == old(console) + SsidNotices(ss[..i])
      {
        SsidsSnoc(ss, i);
        var row := ss[i].row;
        var number := row["number"];
        ghost var notices := console;
        if "radiusServers" in row {
          console := console + [DummyRadiusPassword(row["name"].s)];
          row := WithDummyRadiusSecret(row);
        }
        assert console == notices + SsidNotice(ss[i]);
        var trimmed := TrimSsidRules(ss[i].l3Rules);
        ghost var written := script;
        script := script + [Request(Op(Put, Ssid(number), Obj(row)))];
        script := script + [Request(Op(Put, SsidL3FirewallRules(number), RulesBody(trimmed, "allowLanAccess", true)))];
        assert script == written + SsidPair(ss[i]);
        AppendAssoc(old(script), SsidList(ss[..i]), SsidPair(ss[i]));
        AppendAssoc(old(console), SsidNotices(ss[..i]), SsidNotice(ss[i]));
      }
      assert ss[..|ss|] == ss;
    }

    /** Lines 247-251: the network's settings, written inside its block. */
    method WriteSettings(n: NetworkSnapshot)
      requires NetworkReady(n)
      modifies this
      ensures script == old(script) + SettingsItems(n)
      ensures console == old(console) + SettingsNotices(n)
    {
      WriteMxVlans(n.vlansEnabledState, n.vlans);
      WriteMxCellularFwRules(n.cellularRules);
      WriteMxL3FwRules(n.l3Rules);
      WriteVpnSettings(n.siteToSiteVpn);
      WriteSsidSettings(n.ssids);
    }

    /** One eligible network: its guarded block, in the order the source writes it. */
    method WriteNetwork(n: NetworkSnapshot)
      requires NetworkReady(n)
      modifies this
      ensures script == old(script) + NetworkItems(n)
      ensures console == old(console) + NetworkNotices(n)
    {
      var row := SanitizeNetworkRow(n.row);  // `del row['tags']` when it is None
      var name := NetworkName(n);
      console := console + [Processing(name)];
      var head := [BeginNetwork(name), Request(Op(Post, Networks, Obj(row))), BindNetworkId];
      script := script + head;
      ghost var inBlock, logged := script, console;
      WriteSettings(n);
      assert script == inBlock + SettingsItems(n) && console == logged + SettingsNotices(n);
      var tail := [EndNetwork(name), Flush];
      script := script + tail;
      AppendAssoc(old(script), head, SettingsItems(n));
      AppendAssoc(old(script), head + SettingsItems(n), tail);
      AppendAssoc(old(console), [Processing(name)], SettingsNotices(n));
    }

    /** The body of the generator: the script written into the open file. */
    method WriteRestoreScript(data: OrgSnapshot)
      requires OrgReady(data)
      modifies this
      ensures script == old(script) + Program(data)
      ensures console == old(console) + ConsoleLog(data)
    {
      WriteRestoreHeader();
      script := script + [Flush];
      AppendAssoc(old(script), [Preamble], [Flush]);
      assert script == old(script) + [Preamble, Flush];

      WriteOrgSettings(data);
      script := script + [Flush];
      AppendAssoc(old(script), [Preamble, Flush], OrgItems(data));
      AppendAssoc(old(script), [Preamble, Flush] + OrgItems(data), [Flush]);
      assert script == old(script) + OrgSection(data);

      ghost var org := script;
      WriteNetworks(data.networks);
      assert script == org + NetworksItems(data.networks);
      AppendAssoc(old(script), OrgSection(data), NetworksItems(data.networks));
      assert script == old(script) + (OrgSection(data) + NetworksItems(data.networks));
    }

    /** Lines 219-222: the organization-level settings. */
    method WriteOrgSettings(data: OrgSnapshot)
      requires SnmpStrippable(data.snmp)
      modifies this
      ensures script == old(script) + OrgItems(data) && console == old(console)
    {
      WriteAdmins(data.admins);
      WriteMxVpnFwRules(data.vpnRules);
      WriteSnmpSettings(data.snmp);
      WriteNonMerakiVpnPeers(data.vpnPeers);
      AppendAssoc(old(script), AdminItems(data.admins),
        [VpnRulesItem(data.vpnRules), SnmpItem(data.snmp), PeersItem(data.vpnPeers)]);
    }

    /** Lines 226-255: one block per network of the listing, in listing order. */
    method WriteNetworks(networks: seq<NetworkSnapshot>)
      requires AllListable(networks)
      modifies this
      ensures script == old(script) + NetworksItems(networks)
      ensures console == old(console) + NetworksNotices(networks)
    {
      for i := 0 to |networks|
        invariant script == old(script) + NetworksItems(networks[..i])
        invariant console == old(console) + NetworksNotices(networks[..i])
      {
        NetworksSnoc(networks, i);
        var n := networks[i];
        if SystemsManager(n) {
          continue;
        }
        WriteNetwork(n);
        AppendAssoc(old(script), NetworksItems(networks[..i]), NetworkItems(n));
        AppendAssoc(old(console), NetworksNotices(networks[..i]), NetworkNotices(n));
      }
      assert networks[..|networks|] == networks;
    }
  }

  /**
   * The generator run: resolve the organization, and only then open the
   * script and write it. A missing organization produces no script.
   */
  method Run(organizations: seq<Organization>, orgName: string, data: OrgSnapshot)
    returns (r: Result<Output, BackupError>)
    requires OrgReady(data)
    ensures r.Err? <==> forall i :: 0 <= i < |organizations| ==> organizations[i].name != orgName
    ensures r.Ok? ==> r.value == Output(Program(data), ConsoleLog(data))
  {
    var orgId := GetOrgId(organizations, orgName);
    if orgId.Err? {
      return Err(orgId.error);
    }
    var file := new Emitter();
    file.WriteRestoreScript(data);
    return Ok(Output(file.script, file.console));
  }
}
