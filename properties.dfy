/**
 * What the generated restore script is guaranteed to look like, proved
 * about the functions the writer methods are verified against.
 */
module Properties {
  import opened Wrappers
  import opened Json
  import opened Sanitize
  import opened Replay
  import opened Backup

  // ---------------------------------------------------------------------
  // The loops over admins, VLANs and SSIDs

  /** One POST per admin, in the order the admins were listed. */
  lemma {:induction false} AdminItemsAt(admins: seq<Value>)
    ensures |AdminItems(admins)| == |admins|
    ensures forall i :: 0 <= i < |admins| ==> AdminItems(admins)[i] == Request(Op(Post, Admins, admins[i]))
  {
    if admins != [] {
      var init := admins[..|admins| - 1];
      AdminItemsAt(init);
      forall i | 0 <= i < |admins| ensures AdminItems(admins)[i] == Request(Op(Post, Admins, admins[i])) {
        if i < |init| { assert admins[i] == init[i]; }
      }
    }
  }

  /** One POST per VLAN, in the order the VLANs were listed. */
  lemma {:induction false} VlanPostsAt(vlans: seq<Value>)
    ensures |VlanPosts(vlans)| == |vlans|
    ensures forall i :: 0 <= i < |vlans| ==> VlanPosts(vlans)[i] == Request(Op(Post, Vlans, vlans[i]))
  {
    if vlans != [] {
      var init := vlans[..|vlans| - 1];
      VlanPostsAt(init);
      forall i | 0 <= i < |vlans| ensures VlanPosts(vlans)[i] == Request(Op(Post, Vlans, vlans[i])) {
        if i < |init| { assert vlans[i] == init[i]; }
      }
    }
  }

  /**
   * Each SSID yields its update (with the RADIUS secret replaced) followed
   * directly by its L3 rules without the last two, in listing order.
   */
  lemma {:induction false} SsidListAt(ss: seq<SsidSnapshot>)
    requires forall i :: 0 <= i < |ss| ==> SsidReady(ss[i])
    ensures |SsidList(ss)| == 2 * |ss|
    ensures forall i :: 0 <= i < |ss| ==>
      && SsidList(ss)[2 * i] == Request(Op(Put, Ssid(ss[i].row["number"]), Obj(WithDummyRadiusSecret(ss[i].row))))
      && SsidList(ss)[2 * i + 1] == Request(Op(Put, SsidL3FirewallRules(ss[i].row["number"]),
                                      RulesBody(TrimSsidRules(ss[i].l3Rules), "allowLanAccess", true)))
  {
    if ss != [] {
      var init := ss[..|ss| - 1];
      SsidListAt(init);
      forall i | 0 <= i < |ss|
        ensures SsidList(ss)[2 * i] == Request(Op(Put, Ssid(ss[i].row["number"]), Obj(WithDummyRadiusSecret(ss[i].row))))
        ensures SsidList(ss)[2 * i + 1] == Request(Op(Put, SsidL3FirewallRules(ss[i].row["number"]),
                                             RulesBody(TrimSsidRules(ss[i].l3Rules), "allowLanAccess", true)))
      {
        if i < |init| { assert ss[i] == init[i]; }
      }
    }
  }

  // ---------------------------------------------------------------------
  // Block structure

  lemma {:induction false} SsidListNet(ss: seq<SsidSnapshot>)
    requires forall i :: 0 <= i < |ss| ==> SsidReady(ss[i])
    ensures NetRequests(SsidList(ss))
  {
    if ss != [] {
      SsidListNet(ss[..|ss| - 1]);
      NetRequestsAppend(SsidList(ss[..|ss| - 1]), SsidPair(ss[|ss| - 1]));
    }
  }

  lemma SettingsAreNetRequests(n: NetworkSnapshot)
    requires NetworkReady(n)
    ensures NetRequests(SettingsItems(n))
  {
    VlanPostsAt(n.vlans);
    var vlans := VlanItems(n.vlansEnabledState, n.vlans);
    assert NetRequests(vlans) by {
      NetRequestsAppend([Request(Op(Put, VlansEnabledState, Obj(n.vlansEnabledState)))],
        if Truthy(n.vlansEnabledState["enabled"]) then VlanPosts(n.vlans) else []);
    }
    var rules := [CellularItem(n.cellularRules), L3Item(n.l3Rules), VpnSettingsItem(n.siteToSiteVpn)];
    NetRequestsAppend(vlans, rules);
    if n.ssids.Some? {
      SsidListNet(n.ssids.value);
    }
    NetRequestsAppend(vlans + rules, SsidItems(n.ssids));
  }

  /** A network's block opens, creates, binds, runs on `networkid` and closes. */
  lemma BlockNested(n: NetworkSnapshot)
    requires NetworkReady(n)
    ensures Recognize(Outside, NetworkItems(n)) == Some(Outside)
  {
    var name := NetworkName(n);
    var head := [BeginNetwork(name), Request(Op(Post, Networks, Obj(SanitizeNetworkRow(n.row)))), BindNetworkId];
    var tail := [EndNetwork(name), Flush];
    assert Recognize(Created(name), [BindNetworkId]) == Some(Bound(name));
    assert head[1..] == [head[1], BindNetworkId];
    assert Recognize(Opened(name), head[1..]) == Some(Bound(name));
    assert Recognize(Outside, head) == Some(Bound(name));
    SettingsAreNetRequests(n);
    RecognizeNetRequests(name, SettingsItems(n));
    RecognizeAppend(Outside, head, SettingsItems(n));
    assert Recognize(Outside, [Flush]) == Some(Outside);
    assert tail[1..] == [Flush];
    RecognizeAppend(Outside, head + SettingsItems(n), tail);
  }

  lemma {:induction false} NetworksNested(networks: seq<NetworkSnapshot>)
    requires AllListable(networks)
    ensures Recognize(Outside, NetworksItems(networks)) == Some(Outside)
  {
    if networks != [] {
      var init, n := networks[..|networks| - 1], networks[|networks| - 1];
      NetworksNested(init);
      if !SystemsManager(n) {
        BlockNested(n);
        RecognizeAppend(Outside, NetworksItems(init), NetworkItems(n));
      } else {
        assert NetworksItems(networks) == NetworksItems(init) + [];
        assert NetworksItems(networks) == NetworksItems(init);
      }
    }
  }

  /** The organization-level section never enters a block. */
  lemma OrgSectionNested(data: OrgSnapshot)
    requires SnmpStrippable(data.snmp)
    ensures Recognize(Outside, OrgSection(data)) == Some(Outside)
  {
    var admins := AdminItems(data.admins);
    AdminItemsAt(data.admins);
    RecognizeOrgRequests(admins);
    var rest := [VpnRulesItem(data.vpnRules), SnmpItem(data.snmp), PeersItem(data.vpnPeers)];
    assert Recognize(Outside, [PeersItem(data.vpnPeers)]) == Some(Outside);
    assert rest[1..][1..] == [PeersItem(data.vpnPeers)];
    assert Recognize(Outside, rest[1..]) == Some(Outside);
    assert Recognize(Outside, rest) == Some(Outside);
    RecognizeAppend(Outside, admins, rest);
    assert OrgItems(data) == admins + rest;
    var pre := [Preamble, Flush];
    assert Recognize(Outside, [Flush]) == Some(Outside);
    assert pre[1..] == [Flush];
    assert Recognize(Outside, pre) == Some(Outside);
    RecognizeAppend(Outside, pre, OrgItems(data));
    RecognizeAppend(Outside, pre + OrgItems(data), [Flush]);
  }

  /**
   * The whole script is well nested: every request on `networkid` comes
   * after the creation of its network and the binding of `networkid`, and
   * before that network's `except`, inside the same guarded block.
   */
  lemma ProgramWellNested(data: OrgSnapshot)
    requires OrgReady(data)
    ensures WellNested(Program(data))
  {
    OrgSectionNested(data);
    NetworksNested(data.networks);
    RecognizeAppend(Outside, OrgSection(data), NetworksItems(data.networks));
  }

  // ---------------------------------------------------------------------
  // What each network block sends

  lemma {:induction false} VlanPostsPayloads(vlans: seq<Value>, verb: Verb, target: Target)
    ensures Payloads(VlanPosts(vlans), verb, target) == if verb == Post && target == Vlans then vlans else []
  {
    if vlans != [] {
      var init, last := vlans[..|vlans| - 1], vlans[|vlans| - 1];
      var post := Request(Op(Post, Vlans, last));
      assert VlanPosts(vlans) == VlanPosts(init) + [post];
      VlanPostsPayloads(init, verb, target);
      PayloadsAppend(VlanPosts(init), [post], verb, target);
      PayloadsSingle(post, verb, target);
      if verb == Post && target == Vlans {
        assert vlans == init + [last];
      } else {
        assert Pick(post, verb, target) == [];
      }
    }
  }

  lemma SsidPairPayloads(s: SsidSnapshot, verb: Verb, target: Target)
    requires SsidReady(s)
    requires !target.Ssid? && !target.SsidL3FirewallRules?
    ensures Payloads(SsidPair(s), verb, target) == []
  {
    var pair := SsidPair(s);
    assert pair[1..] == [pair[1]];
    PayloadsSingle(pair[1], verb, target);
  }

  lemma {:induction false} SsidListPayloads(ss: seq<SsidSnapshot>, verb: Verb, target: Target)
    requires forall i :: 0 <= i < |ss| ==> SsidReady(ss[i])
    requires !target.Ssid? && !target.SsidL3FirewallRules?
    ensures Payloads(SsidList(ss), verb, target) == []
  {
    if ss != [] {
      var init := ss[..|ss| - 1];
      SsidListPayloads(init, verb, target);
      SsidPairPayloads(ss[|ss| - 1], verb, target);
      PayloadsAppend(SsidList(init), SsidPair(ss[|ss| - 1]), verb, target);
    }
  }

  lemma VlanItemsPayloads(state: Record, vlans: seq<Value>, verb: Verb, target: Target)
    requires "enabled" in state
    ensures Payloads(VlanItems(state, vlans), verb, target)
      == (if verb == Put && target == VlansEnabledState then [Obj(state)] else [])
       + (if verb == Post && target == Vlans && Truthy(state["enabled"]) then vlans else [])
  {
    var put := Request(Op(Put, VlansEnabledState, Obj(state)));
    PayloadsSingle(put, verb, target);
    var posts := if Truthy(state["enabled"]) then VlanPosts(vlans) else [];
    PayloadsAppend([put], posts, verb, target);
    VlanPostsPayloads(vlans, verb, target);
  }

  lemma PayloadsAppend3(a: seq<Item>, b: seq<Item>, c: seq<Item>, verb: Verb, target: Target)
    ensures Payloads(a + b + c, verb, target)
      == Payloads(a, verb, target) + Payloads(b, verb, target) + Payloads(c, verb, target)
  {
    PayloadsAppend(a + b, c, verb, target);
    PayloadsAppend(a, b, verb, target);
  }

  /** A block's calls are its creation followed by the calls written after the id is bound. */
  lemma BlockPayloadsSplit(n: NetworkSnapshot, verb: Verb, target: Target)
    requires NetworkReady(n)
    ensures Payloads(NetworkItems(n), verb, target)
      == Pick(Request(Op(Post, Networks, Obj(SanitizeNetworkRow(n.row)))), verb, target)
       + Payloads(SettingsItems(n), verb, target)
  {
    var name := NetworkName(n);
    var create := Request(Op(Post, Networks, Obj(SanitizeNetworkRow(n.row))));
    var head := [BeginNetwork(name), create, BindNetworkId];
    var tail := [EndNetwork(name), Flush];
    assert Payloads(tail, verb, target) == [] by {
      assert tail[1..] == [Flush];
      PayloadsSingle(Flush, verb, target);
    }
    assert Payloads(head, verb, target) == Pick(create, verb, target) by {
      assert head[1..] == [create, BindNetworkId];
      assert head[1..][1..] == [BindNetworkId];
      PayloadsSingle(BindNetworkId, verb, target);
    }
    PayloadsAppend3(head, SettingsItems(n), tail, verb, target);
  }

  /** The calls after the id is bound: VLAN state and VLANs, the three rule sets, the SSIDs. */
  lemma SettingsPayloadsSplit(n: NetworkSnapshot, verb: Verb, target: Target)
    requires NetworkReady(n)
    ensures Payloads(SettingsItems(n), verb, target)
      == Payloads(VlanItems(n.vlansEnabledState, n.vlans), verb, target)
       + (Pick(CellularItem(n.cellularRules), verb, target)
          + Pick(L3Item(n.l3Rules), verb, target)
          + Pick(VpnSettingsItem(n.siteToSiteVpn), verb, target))
       + Payloads(SsidItems(n.ssids), verb, target)
  {
    var rules := [CellularItem(n.cellularRules), L3Item(n.l3Rules), VpnSettingsItem(n.siteToSiteVpn)];
    assert rules == [rules[0]] + [rules[1]] + [rules[2]];
    PayloadsAppend3([rules[0]], [rules[1]], [rules[2]], verb, target);
    PayloadsSingle(rules[0], verb, target);
    PayloadsSingle(rules[1], verb, target);
    PayloadsSingle(rules[2], verb, target);
    PayloadsAppend3(VlanItems(n.vlansEnabledState, n.vlans), rules, SsidItems(n.ssids), verb, target);
  }

  lemma SsidItemsPayloads(ssids: Option<seq<SsidSnapshot>>, verb: Verb, target: Target)
    requires SsidsReady(ssids)
    requires !target.Ssid? && !target.SsidL3FirewallRules?
    ensures Payloads(SsidItems(ssids), verb, target) == []
  {
    if ssids.Some? {
      SsidListPayloads(ssids.value, verb, target);
    }
  }

  /** Each block creates exactly its own network, with the sanitized row as the body. */
  lemma BlockCreates(n: NetworkSnapshot)
    requires NetworkReady(n)
    ensures Payloads(NetworkItems(n), Post, Networks) == [Obj(SanitizeNetworkRow(n.row))]
  {
    BlockPayloadsSplit(n, Post, Networks);
    SettingsAreNetRequests(n);
    PayloadsNone(SettingsItems(n), Post, Networks);
  }

  /**
   * The VLAN state is always sent once; the VLANs themselves are posted,
   * all of them and in order, exactly when the state says VLANs are enabled.
   */
  lemma BlockVlans(n: NetworkSnapshot)
    requires NetworkReady(n)
    ensures Payloads(NetworkItems(n), Put, VlansEnabledState) == [Obj(n.vlansEnabledState)]
    ensures Payloads(NetworkItems(n), Post, Vlans)
      == if Truthy(n.vlansEnabledState["enabled"]) then n.vlans else []
  {
    assert Payloads(NetworkItems(n), Put, VlansEnabledState) == [Obj(n.vlansEnabledState)] by {
      BlockPayloadsSplit(n, Put, VlansEnabledState);
      SettingsPayloadsSplit(n, Put, VlansEnabledState);
      VlanItemsPayloads(n.vlansEnabledState, n.vlans, Put, VlansEnabledState);
      SsidItemsPayloads(n.ssids, Put, VlansEnabledState);
    }
    BlockPayloadsSplit(n, Post, Vlans);
    SettingsPayloadsSplit(n, Post, Vlans);
    VlanItemsPayloads(n.vlansEnabledState, n.vlans, Post, Vlans);
    SsidItemsPayloads(n.ssids, Post, Vlans);
  }

  /** For the three rule targets, only the three rule calls of the block contribute. */
  lemma RuleTargetPayloads(n: NetworkSnapshot, target: Target)
    requires NetworkReady(n)
    requires target == CellularFirewallRules || target == L3FirewallRules || target == SiteToSiteVpn
    ensures Payloads(NetworkItems(n), Put, target)
      == Pick(CellularItem(n.cellularRules), Put, target)
       + Pick(L3Item(n.l3Rules), Put, target)
       + Pick(VpnSettingsItem(n.siteToSiteVpn), Put, target)
  {
    BlockPayloadsSplit(n, Put, target);
    SettingsPayloadsSplit(n, Put, target);
    VlanItemsPayloads(n.vlansEnabledState, n.vlans, Put, target);
    SsidItemsPayloads(n.ssids, Put, target);
  }

  /**
   * Cellular and L3 rules are each sent once per block, without the
   * trailing default rule and with their syslog flag off, and so is the
   * site-to-site VPN configuration, as fetched.
   */
  lemma BlockRules(n: NetworkSnapshot)
    requires NetworkReady(n)
    ensures Payloads(NetworkItems(n), Put, CellularFirewallRules)
      == [RulesBody(TrimDefaultRule(n.cellularRules), "syslogEnabled", false)]
    ensures Payloads(NetworkItems(n), Put, L3FirewallRules)
      == [RulesBody(TrimDefaultRule(n.l3Rules), "syslogDefaultRule", false)]
    ensures Payloads(NetworkItems(n), Put, SiteToSiteVpn) == [n.siteToSiteVpn]
  {
    RuleTargetPayloads(n, CellularFirewallRules);
    RuleTargetPayloads(n, L3FirewallRules);
    RuleTargetPayloads(n, SiteToSiteVpn);
  }

  lemma BlockNamesAppend3(a: seq<Item>, b: seq<Item>, c: seq<Item>)
    ensures BlockNames(a + b + c) == BlockNames(a) + BlockNames(b) + BlockNames(c)
  {
    BlockNamesAppend(a + b, c);
    BlockNamesAppend(a, b);
  }

  /** Each block is named after its own network, and opens no other block. */
  lemma BlockName(n: NetworkSnapshot)
    requires NetworkReady(n)
    ensures BlockNames(NetworkItems(n)) == [NetworkName(n)]
  {
    var name := NetworkName(n);
    var head := [BeginNetwork(name), Request(Op(Post, Networks, Obj(SanitizeNetworkRow(n.row)))), BindNetworkId];
    var tail := [EndNetwork(name), Flush];
    assert BlockNames(tail) == [] by {
      assert tail[1..] == [Flush];
      BlockNamesSingle(Flush);
    }
    assert BlockNames(head) == [name] by {
      assert head[1..][1..] == [BindNetworkId];
      BlockNamesSingle(BindNetworkId);
    }
    SettingsAreNetRequests(n);
    BlockNamesNone(SettingsItems(n));
    BlockNamesAppend3(head, SettingsItems(n), tail);
  }

  // ---------------------------------------------------------------------
  // Which networks get a block

  /** The networks that are restored: all but the Systems Manager ones, in listing order. */
  function Eligible(networks: seq<NetworkSnapshot>): (r: seq<NetworkSnapshot>)
    requires AllListable(networks)
    ensures |r| <= |networks|
    ensures forall i :: 0 <= i < |r| ==> Listable(r[i]) && !SystemsManager(r[i]) && NetworkReady(r[i])
    ensures forall n :: n in r <==> n in networks && Listable(n) && !SystemsManager(n)
  {
    if networks == [] then []
    else
      var n := networks[|networks| - 1];
      Eligible(networks[..|networks| - 1]) + (if SystemsManager(n) then [] else [n])
  }

  /** The create bodies of `networks`: each sanitized row, in order. */
  function CreateBodies(networks: seq<NetworkSnapshot>): (r: seq<Value>)
    requires forall i :: 0 <= i < |networks| ==> "tags" in networks[i].row
    ensures |r| == |networks|
    ensures forall i :: 0 <= i < |networks| ==> r[i] == Obj(SanitizeNetworkRow(networks[i].row))
  {
    if networks == [] then []
    else
      var n := networks[|networks| - 1];
      CreateBodies(networks[..|networks| - 1]) + [Obj(SanitizeNetworkRow(n.row))]
  }

  /** The names of `networks`, in order. */
  function Names(networks: seq<NetworkSnapshot>): (r: seq<string>)
    requires forall i :: 0 <= i < |networks| ==> NetworkReady(networks[i])
    ensures |r| == |networks|
    ensures forall i :: 0 <= i < |networks| ==> r[i] == NetworkName(networks[i])
  {
    if networks == [] then [] else Names(networks[..|networks| - 1]) + [NetworkName(networks[|networks| - 1])]
  }

  /** One creation per eligible network, in order, each from its sanitized row. */
  lemma {:induction false} NetworksCreated(networks: seq<NetworkSnapshot>)
    requires AllListable(networks)
    ensures Payloads(NetworksItems(networks), Post, Networks) == CreateBodies(Eligible(networks))
  {
    if networks != [] {
      var init, n := networks[..|networks| - 1], networks[|networks| - 1];
      NetworksCreated(init);
      var e0 := Eligible(init);
      if SystemsManager(n) {
        assert NetworksItems(networks) == NetworksItems(init) + [];
        assert NetworksItems(networks) == NetworksItems(init);
        assert Eligible(networks) == e0 + [];
        assert Eligible(networks) == e0;
      } else {
        var e := Eligible(networks);
        assert e == e0 + [n];
        assert e[..|e| - 1] == e0;
        BlockCreates(n);
        PayloadsAppend(NetworksItems(init), NetworkItems(n), Post, Networks);
      }
    }
  }

  /** One block per eligible network, in order, each named after its network. */
  lemma {:induction false} NetworksNamed(networks: seq<NetworkSnapshot>)
    requires AllListable(networks)
    ensures BlockNames(NetworksItems(networks)) == Names(Eligible(networks))
  {
    if networks != [] {
      var init, n := networks[..|networks| - 1], networks[|networks| - 1];
      NetworksNamed(init);
      var e0 := Eligible(init);
      if SystemsManager(n) {
        assert NetworksItems(networks) == NetworksItems(init) + [];
        assert NetworksItems(networks) == NetworksItems(init);
        assert Eligible(networks) == e0 + [];
        assert Eligible(networks) == e0;
      } else {
        var e := Eligible(networks);
        assert e == e0 + [n];
        assert e[..|e| - 1] == e0;
        BlockName(n);
        BlockNamesAppend(NetworksItems(init), NetworkItems(n));
      }
    }
  }

  // ---------------------------------------------------------------------
  // The organization-level section

  lemma {:induction false} AdminItemsPayloads(admins: seq<Value>, verb: Verb, target: Target)
    ensures Payloads(AdminItems(admins), verb, target) == if verb == Post && target == Admins then admins else []
  {
    if admins != [] {
      var init, last := admins[..|admins| - 1], admins[|admins| - 1];
      var post := Request(Op(Post, Admins, last));
      assert AdminItems(admins) == AdminItems(init) + [post];
      AdminItemsPayloads(init, verb, target);
      PayloadsAppend(AdminItems(init), [post], verb, target);
      PayloadsSingle(post, verb, target);
      if verb == Post && target == Admins {
        assert admins == init + [last];
      } else {
        assert Pick(post, verb, target) == [];
      }
    }
  }

  /** The organization-level calls: the admins, then the VPN rules, SNMP and peer calls. */
  lemma OrgItemsPayloads(data: OrgSnapshot, verb: Verb, target: Target)
    requires SnmpStrippable(data.snmp)
    ensures Payloads(OrgItems(data), verb, target)
      == Payloads(AdminItems(data.admins), verb, target)
       + (Pick(VpnRulesItem(data.vpnRules), verb, target)
          + Pick(SnmpItem(data.snmp), verb, target)
          + Pick(PeersItem(data.vpnPeers), verb, target))
  {
    var rest := [VpnRulesItem(data.vpnRules), SnmpItem(data.snmp), PeersItem(data.vpnPeers)];
    assert rest == [rest[0]] + [rest[1]] + [rest[2]];
    PayloadsAppend3([rest[0]], [rest[1]], [rest[2]], verb, target);
    PayloadsSingle(rest[0], verb, target);
    PayloadsSingle(rest[1], verb, target);
    PayloadsSingle(rest[2], verb, target);
    PayloadsAppend(AdminItems(data.admins), rest, verb, target);
  }

  /** The header and the flush points carry no call. */
  lemma OrgSectionPayloads(data: OrgSnapshot, verb: Verb, target: Target)
    requires SnmpStrippable(data.snmp)
    ensures Payloads(OrgSection(data), verb, target) == Payloads(OrgItems(data), verb, target)
  {
    var pre := [Preamble, Flush];
    assert Payloads(pre, verb, target) == [] by {
      assert pre[1..] == [Flush];
      PayloadsSingle(Flush, verb, target);
    }
    PayloadsSingle(Flush, verb, target);
    PayloadsAppend3(pre, OrgItems(data), [Flush], verb, target);
  }

  lemma OrgSectionNames(data: OrgSnapshot)
    requires SnmpStrippable(data.snmp)
    ensures BlockNames(OrgSection(data)) == []
  {
    OrgSectionOrder(data);
    BlockNamesNone(OrgSection(data));
  }

  /** The network blocks send nothing to an organization-level target. */
  lemma {:induction false} NetworksPayloadsNone(networks: seq<NetworkSnapshot>, verb: Verb, target: Target)
    requires AllListable(networks)
    requires target.Scope() == OrgScope && target != Networks
    ensures Payloads(NetworksItems(networks), verb, target) == []
  {
    if networks != [] {
      var init, n := networks[..|networks| - 1], networks[|networks| - 1];
      NetworksPayloadsNone(init, verb, target);
      if SystemsManager(n) {
        assert NetworksItems(networks) == NetworksItems(init) + [];
        assert NetworksItems(networks) == NetworksItems(init);
      } else {
        BlockPayloadsSplit(n, verb, target);
        SettingsAreNetRequests(n);
        PayloadsNone(SettingsItems(n), verb, target);
        PayloadsAppend(NetworksItems(init), NetworkItems(n), verb, target);
      }
    }
  }

  /** For an organization-level target, only the organization-level section contributes. */
  lemma OrgTargetPayloads(data: OrgSnapshot, verb: Verb, target: Target)
    requires OrgReady(data)
    requires target.Scope() == OrgScope && target != Networks
    ensures Payloads(Program(data), verb, target)
      == Payloads(AdminItems(data.admins), verb, target)
       + (Pick(VpnRulesItem(data.vpnRules), verb, target)
          + Pick(SnmpItem(data.snmp), verb, target)
          + Pick(PeersItem(data.vpnPeers), verb, target))
  {
    OrgSectionPayloads(data, verb, target);
    OrgItemsPayloads(data, verb, target);
    NetworksPayloadsNone(data.networks, verb, target);
    PayloadsAppend(OrgSection(data), NetworksItems(data.networks), verb, target);
  }

  /** Every admin is posted once, in the order listed. */
  lemma ProgramAdmins(data: OrgSnapshot)
    requires OrgReady(data)
    ensures Payloads(Program(data), Post, Admins) == data.admins
  {
    OrgTargetPayloads(data, Post, Admins);
    AdminItemsPayloads(data.admins, Post, Admins);
  }

  /** The VPN firewall rules are sent once, without the default rule and with syslog on. */
  lemma ProgramVpnRules(data: OrgSnapshot)
    requires OrgReady(data)
    ensures Payloads(Program(data), Put, VpnFirewallRules)
      == [RulesBody(TrimDefaultRule(data.vpnRules), "syslogEnabled", true)]
  {
    OrgTargetPayloads(data, Put, VpnFirewallRules);
    AdminItemsPayloads(data.admins, Put, VpnFirewallRules);
  }

  /** The SNMP settings are sent once, stripped of their secrets and null modes. */
  lemma ProgramSnmp(data: OrgSnapshot)
    requires OrgReady(data)
    ensures Payloads(Program(data), Put, Snmp) == [Obj(StripSnmp(data.snmp))]
  {
    OrgTargetPayloads(data, Put, Snmp);
    AdminItemsPayloads(data.admins, Put, Snmp);
  }

  /** The third-party VPN peers are sent once, as fetched. */
  lemma ProgramPeers(data: OrgSnapshot)
    requires OrgReady(data)
    ensures Payloads(Program(data), Put, ThirdPartyVpnPeers) == [data.vpnPeers]
  {
    OrgTargetPayloads(data, Put, ThirdPartyVpnPeers);
    AdminItemsPayloads(data.admins, Put, ThirdPartyVpnPeers);
  }

  /**
   * Every network except the Systems Manager ones gets exactly one block,
   * in listing order, named after it and creating it from its sanitized row.
   */
  lemma ProgramBlocks(data: OrgSnapshot)
    requires OrgReady(data)
    ensures Payloads(Program(data), Post, Networks) == CreateBodies(Eligible(data.networks))
    ensures BlockNames(Program(data)) == Names(Eligible(data.networks))
  {
    assert Payloads(OrgSection(data), Post, Networks) == [] by {
      OrgSectionPayloads(data, Post, Networks);
      OrgItemsPayloads(data, Post, Networks);
      AdminItemsPayloads(data.admins, Post, Networks);
    }
    PayloadsAppend(OrgSection(data), NetworksItems(data.networks), Post, Networks);
    NetworksCreated(data.networks);
    OrgSectionNames(data);
    BlockNamesAppend(OrgSection(data), NetworksItems(data.networks));
    NetworksNamed(data.networks);
  }

  // ---------------------------------------------------------------------
  // Order

  lemma {:induction false} SsidListRanks(ss: seq<SsidSnapshot>)
    requires forall i :: 0 <= i < |ss| ==> SsidReady(ss[i])
    ensures RanksWithin(SsidList(ss), 10, 10)
  {
    if ss != [] {
      var init, pair := ss[..|ss| - 1], SsidPair(ss[|ss| - 1]);
      SsidListRanks(init);
      var all := SsidList(init) + pair;
      forall i | 0 <= i < |all| && IsCall(all[i]) ensures Rank(all[i].op.target) == 10 {
        if i < |SsidList(init)| {
          assert all[i] == SsidList(init)[i];
        } else {
          assert all[i] == pair[i - |SsidList(init)|];
        }
      }
    }
  }

  lemma VlanItemsOrder(state: Record, vlans: seq<Value>)
    requires "enabled" in state
    ensures Ordered(VlanItems(state, vlans)) && RanksWithin(VlanItems(state, vlans), 5, 6)
  {
    var put := [Request(Op(Put, VlansEnabledState, Obj(state)))];
    var posts := if Truthy(state["enabled"]) then VlanPosts(vlans) else [];
    VlanPostsAt(vlans);
    assert RanksWithin(posts, 6, 6);
    FlatOrdered(posts, 6);
    FlatOrdered(put, 5);
    OrderedAppend(put, posts, 5, 6, 6);
  }

  lemma SettingsOrder(n: NetworkSnapshot)
    requires NetworkReady(n)
    ensures Ordered(SettingsItems(n)) && RanksWithin(SettingsItems(n), 5, 10)
  {
    var vlans := VlanItems(n.vlansEnabledState, n.vlans);
    var rules := [CellularItem(n.cellularRules), L3Item(n.l3Rules), VpnSettingsItem(n.siteToSiteVpn)];
    var ssids := SsidItems(n.ssids);
    VlanItemsOrder(n.vlansEnabledState, n.vlans);
    assert Ordered(rules) && RanksWithin(rules, 6, 9);
    OrderedAppend(vlans, rules, 5, 6, 9);
    if n.ssids.Some? {
      SsidListRanks(n.ssids.value);
    }
    FlatOrdered(ssids, 10);
    OrderedAppend(vlans + rules, ssids, 5, 9, 10);
  }

  /**
   * Within a block the calls come in the generator's order: creation, VLAN
   * state, VLANs, cellular rules, L3 rules, site-to-site VPN, then the SSIDs.
   */
  lemma BlockOrder(n: NetworkSnapshot)
    requires NetworkReady(n)
    ensures Ordered(NetworkItems(n)) && RanksWithin(NetworkItems(n), 4, 10)
  {
    var name := NetworkName(n);
    var head := [BeginNetwork(name), Request(Op(Post, Networks, Obj(SanitizeNetworkRow(n.row)))), BindNetworkId];
    var tail := [EndNetwork(name), Flush];
    assert RanksWithin(head, 4, 4);
    FlatOrdered(head, 4);
    SettingsOrder(n);
    OrderedAppend(head, SettingsItems(n), 4, 4, 10);
    assert RanksWithin(tail, 10, 10);
    FlatOrdered(tail, 10);
    OrderedAppend(head + SettingsItems(n), tail, 4, 10, 10);
  }

  lemma BlockOrgFree(n: NetworkSnapshot)
    requires NetworkReady(n)
    ensures OrgFree(NetworkItems(n))
  {
    var name := NetworkName(n);
    var head := [BeginNetwork(name), Request(Op(Post, Networks, Obj(SanitizeNetworkRow(n.row)))), BindNetworkId];
    var tail := [EndNetwork(name), Flush];
    SettingsAreNetRequests(n);
    OrgFreeAppend(head, SettingsItems(n));
    OrgFreeAppend(head + SettingsItems(n), tail);
  }

  lemma {:induction false} NetworksOrgFree(networks: seq<NetworkSnapshot>)
    requires AllListable(networks)
    ensures OrgFree(NetworksItems(networks))
  {
    if networks != [] {
      var init, n := networks[..|networks| - 1], networks[|networks| - 1];
      NetworksOrgFree(init);
      if SystemsManager(n) {
        assert NetworksItems(networks) == NetworksItems(init) + [];
        assert NetworksItems(networks) == NetworksItems(init);
      } else {
        BlockOrgFree(n);
        OrgFreeAppend(NetworksItems(init), NetworkItems(n));
      }
    }
  }

  /** The organization-level section: only organization-level calls, in order, and no block. */
  lemma OrgSectionOrder(data: OrgSnapshot)
    requires SnmpStrippable(data.snmp)
    ensures Ordered(OrgSection(data)) && RanksWithin(OrgSection(data), 0, 3)
    ensures forall i :: 0 <= i < |OrgSection(data)| ==>
      !OrgSection(data)[i].BeginNetwork? && (IsCall(OrgSection(data)[i]) ==> OrgLevel(OrgSection(data)[i].op))
  {
    AdminItemsAt(data.admins);
    var admins := AdminItems(data.admins);
    var rest := [VpnRulesItem(data.vpnRules), SnmpItem(data.snmp), PeersItem(data.vpnPeers)];
    assert RanksWithin(admins, 0, 0);
    FlatOrdered(admins, 0);
    assert Ordered(rest) && RanksWithin(rest, 1, 3);
    OrderedAppend(admins, rest, 0, 0, 3);
    var pre := [Preamble, Flush];
    assert RanksWithin(pre, 0, 0);
    FlatOrdered(pre, 0);
    OrderedAppend(pre, OrgItems(data), 0, 0, 3);
    assert RanksWithin([Flush], 3, 3);
    FlatOrdered([Flush], 3);
    OrderedAppend(pre + OrgItems(data), [Flush], 0, 3, 3);
    var section := OrgSection(data);
    forall i | 0 <= i < |section|
      ensures !section[i].BeginNetwork? && (IsCall(section[i]) ==> OrgLevel(section[i].op))
    {
      if 2 <= i < 2 + |admins| {
        assert section[i] == admins[i - 2];
      }
    }
  }

  /**
   * The organization-level settings are written before any network block
   * and in the generator's order (admins, VPN firewall rules, SNMP, peers);
   * no network block contains an organization-level call.
   */
  lemma ProgramOrgFirst(data: OrgSnapshot)
    requires OrgReady(data)
    ensures OrgFirst(Program(data))
  {
    OrgSectionOrder(data);
    NetworksOrgFree(data.networks);
    OrgFirstAppend(OrgSection(data), NetworksItems(data.networks));
  }

  // ---------------------------------------------------------------------
  // Console warnings

  /**
   * An SSID's placeholder-password warning is logged exactly for the SSIDs
   * that carry RADIUS servers, naming the SSID; nothing else is logged.
   */
  lemma {:induction false} RadiusNotices(ss: seq<SsidSnapshot>)
    requires forall i :: 0 <= i < |ss| ==> SsidReady(ss[i])
    ensures forall k :: 0 <= k < |SsidNotices(ss)| ==> SsidNotices(ss)[k].DummyRadiusPassword?
    ensures forall name :: DummyRadiusPassword(name) in SsidNotices(ss) <==>
      exists i :: 0 <= i < |ss| && "radiusServers" in ss[i].row && ss[i].row["name"] == Str(name)
  {
    if ss != [] {
      var init, last := ss[..|ss| - 1], ss[|ss| - 1];
      RadiusNotices(init);
      var before := SsidNotices(init);
      var all := SsidNotices(ss);
      assert all == before + SsidNotice(last);
      forall k | 0 <= k < |all| ensures all[k].DummyRadiusPassword? {
        if k < |before| { assert all[k] == before[k]; }
      }
      forall name
        ensures DummyRadiusPassword(name) in all <==>
          exists i :: 0 <= i < |ss| && "radiusServers" in ss[i].row && ss[i].row["name"] == Str(name)
      {
        if DummyRadiusPassword(name) in all {
          if DummyRadiusPassword(name) in before {
            var i :| 0 <= i < |init| && "radiusServers" in init[i].row && init[i].row["name"] == Str(name);
            assert ss[i] == init[i];
          } else {
            assert ss[|ss| - 1] == last;
          }
        }
        if exists i :: 0 <= i < |ss| && "radiusServers" in ss[i].row && ss[i].row["name"] == Str(name) {
          var i :| 0 <= i < |ss| && "radiusServers" in ss[i].row && ss[i].row["name"] == Str(name);
          if i < |init| {
            assert init[i] == ss[i];
          } else {
            assert SsidNotice(last) == [DummyRadiusPassword(name)];
          }
        }
      }
    }
  }

  /** The VLANs-disabled warning is logged for a block exactly when its VLANs are not enabled. */
  lemma VlanNotice(n: NetworkSnapshot)
    requires NetworkReady(n)
    ensures VlansDisabled in NetworkNotices(n) <==> !Truthy(n.vlansEnabledState["enabled"])
  {
    var ssidNotices := if n.ssids.Some? then SsidNotices(n.ssids.value) else [];
    if n.ssids.Some? {
      RadiusNotices(n.ssids.value);
    }
    assert VlansDisabled !in ssidNotices;
    assert NetworkNotices(n) == [Processing(NetworkName(n))] + VlanNotices(n.vlansEnabledState) + ssidNotices;
  }
}
