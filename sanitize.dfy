/**
 * The sanitization applied to fetched records before they are written into
 * the restore script: trimming the implicit trailing firewall rules,
 * stripping SNMP fields, dropping null network tags and replacing the
 * RADIUS secret of an SSID.
 */
module Sanitize {
  import opened Json

  /**
   * Python's `s[0:-k]` for a positive `k`: the list without its last `k`
   * elements, and the empty list when it has `k` elements or fewer
   * (a negative stop index is clamped at 0, so nothing fails).
   */
  function DropTrailing<T>(s: seq<T>, k: nat): (r: seq<T>)
    requires 1 <= k
    ensures r <= s
    ensures |s| >= k ==> |r| + k == |s|
    ensures |s| <= k ==> r == []
  {
    var stop := |s| - k;
    if stop <= 0 then [] else s[..stop]
  }

  /** `[0:-1]`: the L3, cellular and VPN firewall rules without the implicit default rule. */
  function TrimDefaultRule(rules: seq<Value>): (r: seq<Value>)
    ensures r <= rules && |r| == if rules == [] then 0 else |rules| - 1
  {
    DropTrailing(rules, 1)
  }

  /** `[0:-2]`: the per-SSID L3 rules without the last two (the LAN-access and default rules). */
  function TrimSsidRules(rules: seq<Value>): (r: seq<Value>)
    ensures r <= rules && |r| == if |rules| <= 2 then 0 else |rules| - 2
  {
    DropTrailing(rules, 2)
  }

  /** The SNMP fields that are never written back. */
  const SNMP_SECRET_KEYS: set<string> := {"v2CommunityString", "hostname", "port"}

  /** The SNMP fields that are written back only when they are not None. */
  const SNMP_MODE_KEYS: set<string> := {"v3AuthMode", "v3PrivMode"}

  /** The SNMP settings indexed directly by the sanitizer (a KeyError otherwise). */
  predicate SnmpStrippable(snmp: Record)
  {
    "v3AuthMode" in snmp && "v3PrivMode" in snmp
  }

  /** write_snmp_settings' deletions, one `del` after another. */
  function StripSnmp(snmp: Record): (r: Record)
    requires SnmpStrippable(snmp)
    ensures forall k :: k in r <==>
      k in snmp && k !in SNMP_SECRET_KEYS && !(k in SNMP_MODE_KEYS && snmp[k] == Null)
    ensures forall k :: k in r ==> r[k] == snmp[k]
  {
    var m1 := if "v2CommunityString" in snmp then snmp - {"v2CommunityString"} else snmp;
    var m2 := if "hostname" in m1 then m1 - {"hostname"} else m1;
    var m3 := if "port" in m2 then m2 - {"port"} else m2;
    var m4 := if m3["v3AuthMode"] == Null then m3 - {"v3AuthMode"} else m3;
    if m4["v3PrivMode"] == Null then m4 - {"v3PrivMode"} else m4
  }

  /** The network-create body: `tags` (indexed directly) is deleted when it is None. */
  function SanitizeNetworkRow(row: Record): (r: Record)
    requires "tags" in row
    ensures "tags" in r <==> row["tags"] != Null
    ensures forall k :: k in r <==> k in row && (k != "tags" || row["tags"] != Null)
    ensures forall k :: k in r ==> r[k] == row[k]
  {
    if row["tags"] == Null then row - {"tags"} else row
  }

  /**
   * What `row['radiusServers'][0]['secret'] = 'password'` needs: a non-empty
   * list whose first server is a dict.
   */
  predicate RadiusEditable(servers: Value)
  {
    servers.Arr? && |servers.items| > 0 && servers.items[0].Obj?
  }

  /** The SSID body with the first RADIUS server's secret replaced by a placeholder. */
  function WithDummyRadiusSecret(ssid: Record): (r: Record)
    requires "radiusServers" in ssid ==> RadiusEditable(ssid["radiusServers"])
    ensures "radiusServers" !in ssid ==> r == ssid
    ensures r.Keys == ssid.Keys
    ensures forall k :: k in ssid && k != "radiusServers" ==> r[k] == ssid[k]
    ensures "radiusServers" in ssid ==>
      var before, after := ssid["radiusServers"].items, r["radiusServers"];
      && after.Arr? && |after.items| == |before|
      && after.items[0].Obj?
      && after.items[0].fields.Keys == before[0].fields.Keys + {"secret"}
      && after.items[0].fields["secret"] == Str("password")
      && (forall k :: k in before[0].fields && k != "secret" ==>
            after.items[0].fields[k] == before[0].fields[k])
      && after.items[1..] == before[1..]
  {
    if "radiusServers" in ssid then
      var servers := ssid["radiusServers"].items;
      var first := servers[0].fields["secret" := Str("password")];
      ssid["radiusServers" := Arr([Obj(first)] + servers[1..])]
    else
      ssid
  }
}
