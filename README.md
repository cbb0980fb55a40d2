# Meraki backup generator, modelled in Dafny

`meraki-backup.py` reads the configuration of one Meraki organization through
the vendor SDK and writes `meraki-restore.py`, a Python script that replays
that configuration against the Dashboard API. This project models the part
that decides what goes into the restore script:

- the organization lookup by exact name;
- the sanitizing of fetched records:
  - firewall rule lists are trimmed;
  - SNMP secrets are stripped;
  - null network tags are dropped;
  - the first RADIUS server's secret is replaced by a placeholder;
- the order and block structure of the written requests:
  - organization-level settings come first;
  - then each network gets one guarded block, except Systems Manager networks;
  - each block creates the network, binds `networkid` and sends the network's settings in a fixed order.

The restore script is modelled structurally as a sequence of `Replay.Item`s:
- a `Request` or `CheckedRequest` carrying a verb, a target and a JSON body;
- the opening and closing of a network's `try` block, and the binding of `networkid`;
- the fixed preamble;
- the generator's flush points.

A request's target says which replay-time id its URL uses: `orgid` or
`networkid`. The console warnings the generator prints are a sequence of
`Backup.Notice`s.

The modules:

- `Wrappers` (wrappers.dfy): Option and Result.
- `Json` (json.dfy): the JSON-like values the SDK returns, with Python truthiness.
- `Sanitize` (sanitize.dfy): the slices `[0:-1]` and `[0:-2]`, the SNMP deletions, the `tags` deletion and the RADIUS secret replacement. These are pure functions whose contracts characterize the result key by key.
- `Replay` (replay.dfy): the item language, plus reference definitions over it:
  - a recognizer `Recognize`/`WellNested` for the block structure;
  - `Payloads`, the bodies sent to one target in order;
  - `BlockNames`;
  - `Rank`/`Ordered`, the generator's target order;
  - `OrgFirst`.
- `Backup` (backup.dfy): the generator itself.
  - `GetOrgId` is a first-match search.
  - The class `Emitter` holds the script and console being written. It has one method per `write_*` function and methods for the top-level sections and the network loop.
  - Each method is proved to append exactly the items of a specification function (`AdminItems`, `VlanItems`, `NetworkItems`, `Program`, …). Each also appends the matching notices.
  - `Run` resolves the organization and then writes the script.
- `Properties` (properties.dfy): what the written script is guaranteed to contain, proved about those specification functions:
  - it is well nested;
  - each network block's exact requests and their order;
  - one block per eligible network in listing order;
  - the organization-level requests come first;
  - when each console warning appears.

What the source reads through the SDK is an input here. `Backup.OrgSnapshot` holds what is fetched for the resolved organization: admins, VPN firewall rules, SNMP settings, third-party peers, and the network listing. Each network carries its VLAN state, VLANs, cellular and L3 rules, site-to-site VPN settings and SSIDs. Each SSID carries its own L3 rules.

Where the source indexes a dict or list without checking, it raises an
exception. The model turns each such place into a precondition (`SsidReady`,
`NetworkReady`, `Listable`, `OrgReady`, `SnmpStrippable`, `RadiusEditable`).
The code indexes `v3AuthMode`, `v3PrivMode` and `tags` directly, so a missing
key raises `KeyError`. The model follows the code: these keys are required,
and `tags` is removed only when its value is `None`.

## Model

| member | source | states |
|---|---|---|
| Backup.GetOrgId | meraki-backup.py:32-38 | Fails exactly when no organization has the given name; otherwise returns the id of the first organization whose name matches exactly |
| Sanitize.DropTrailing | meraki-backup.py:93 | Python `s[0:-k]`: a prefix of `s`, `k` shorter when `s` has at least `k` elements and empty otherwise, never failing |
| Sanitize.TrimDefaultRule | meraki-backup.py:129 | `[0:-1]` (also used at lines 93 and 121): the rule list without its last rule, empty for lists of length at most 1 |
| Sanitize.TrimSsidRules | meraki-backup.py:192 | `[0:-2]`: the SSID rule list without its last two rules, empty for lists of length at most 2 |
| Sanitize.StripSnmp | meraki-backup.py:146-155 | The SNMP body has a key exactly when the input has it, it is not `v2CommunityString`, `hostname` or `port`, and it is not a v3 mode whose value is None; kept keys keep their values |
| Sanitize.SanitizeNetworkRow | meraki-backup.py:231-232 | The create body lacks `tags` exactly when it was None; every other key and value is kept |
| Sanitize.WithDummyRadiusSecret | meraki-backup.py:187-189 | Without RADIUS servers the SSID is unchanged. With them, only the first server changes: it gains or overwrites `secret` with "password" and keeps its other fields. All other servers and keys are unchanged |
| Backup.Emitter.constructor | meraki-backup.py:211 | Opening the restore file for writing starts an empty script and an empty console |
| Backup.Emitter.WriteRestoreHeader | meraki-backup.py:40-81 | Appends the fixed preamble and nothing else |
| Backup.Emitter.WriteAdmins | meraki-backup.py:83-90 | Appends one admin POST per fetched admin, in order; its loop invariant keeps the appended part equal to the admins seen so far |
| Backup.Emitter.WriteMxVpnFwRules | meraki-backup.py:128-134 | Appends one organization VPN firewall PUT with the trimmed rules and `syslogEnabled` true |
| Backup.Emitter.WriteSnmpSettings | meraki-backup.py:144-165 | Appends one error-checked SNMP PUT whose body is the stripped settings |
| Backup.Emitter.WriteNonMerakiVpnPeers | meraki-backup.py:167-177 | Appends one error-checked third-party VPN peers PUT with the fetched value |
| Backup.Emitter.WriteMxVlans | meraki-backup.py:100-118 | Appends the VLAN-state PUT, then one VLAN POST per VLAN only when `enabled` is truthy; otherwise logs the VLANs-disabled warning |
| Backup.Emitter.WriteMxCellularFwRules | meraki-backup.py:120-126 | Appends one cellular firewall PUT with the trimmed rules and `syslogEnabled` false |
| Backup.Emitter.WriteMxL3FwRules | meraki-backup.py:92-98 | Appends one L3 firewall PUT with the trimmed rules and `syslogDefaultRule` false |
| Backup.Emitter.WriteVpnSettings | meraki-backup.py:136-142 | Appends one site-to-site VPN PUT with the fetched settings |
| Backup.Emitter.WriteSsidSettings | meraki-backup.py:179-197 | Appends nothing when the SSID list is None. Otherwise, per SSID in order, it appends the SSID PUT with the secret replaced, then its L3 PUT with the rules trimmed by two and `allowLanAccess` true. It logs the placeholder warning for each SSID with RADIUS servers |
| Backup.Emitter.WriteSettings | meraki-backup.py:247-251 | Appends VLANs, cellular rules, L3 rules, site-to-site VPN and SSIDs, in that order, with their warnings |
| Backup.Emitter.WriteNetwork | meraki-backup.py:231-255 | Appends one network's whole block and logs "Processing" with its name: open, create from the sanitized row, bind `networkid`, settings, close, flush |
| Backup.Emitter.WriteNetworks | meraki-backup.py:226-255 | Appends the blocks of the listed networks in order, skipping Systems Manager networks |
| Backup.Emitter.WriteOrgSettings | meraki-backup.py:219-222 | Appends admins, VPN firewall rules, SNMP and third-party peers, in that order |
| Backup.Emitter.WriteRestoreScript | meraki-backup.py:211-255 | Writes the preamble, a flush, the organization section, a flush, then the network blocks |
| Backup.Run | meraki-backup.py:208-255 | Fails exactly when the organization name is unknown; otherwise the output is the whole program and its console log |
| Properties.AdminItemsAt | meraki-backup.py:88-89 | The admin section has exactly one POST per admin, the i-th carrying the i-th admin |
| Properties.VlanPostsAt | meraki-backup.py:114-115 | The VLAN posts are exactly one POST per VLAN, the i-th carrying the i-th VLAN |
| Properties.SsidListAt | meraki-backup.py:185-196 | SSID i yields items 2i and 2i+1: its PUT with the RADIUS secret replaced, then its L3 PUT with the last two rules dropped |
| Properties.AdminItemsPayloads | meraki-backup.py:88-89 | The admin section posts exactly the fetched admins and sends nothing to any other target |
| Properties.VlanPostsPayloads | meraki-backup.py:114-115 | The VLAN posts send exactly the fetched VLANs and nothing to any other target |
| Properties.BlockNested | meraki-backup.py:236-253 | A network block opens, creates its network, binds `networkid`, runs only `networkid` requests and closes under its own name |
| Properties.NetworksNested | meraki-backup.py:226-255 | The blocks written by the network loop are each closed before the next opens |
| Properties.OrgSectionNested | meraki-backup.py:211-224 | The preamble and organization section stay outside every block |
| Properties.ProgramWellNested | meraki-backup.py:211-255 | The whole script is well nested. Every `networkid` request follows its network's creation and id binding, inside that network's guarded block |
| Properties.BlockCreates | meraki-backup.py:239-243 | A block creates exactly one network, with the sanitized row as the body |
| Properties.BlockName | meraki-backup.py:234-237 | A block is opened exactly once, under its network's name |
| Properties.BlockVlans | meraki-backup.py:100-118 | A block sends the VLAN state once and posts all VLANs in order exactly when VLANs are enabled, and none otherwise |
| Properties.BlockRules | meraki-backup.py:247-250 | A block sends its cellular and L3 rules once each, trimmed and with their syslog flag off, and its site-to-site VPN settings once, even when a rule list is empty or has one element |
| Properties.BlockOrder | meraki-backup.py:239-253 | A block's calls come in the generator's order: creation, VLAN state, VLANs, cellular, L3, site-to-site VPN, SSIDs |
| Properties.OrgSectionOrder | meraki-backup.py:219-222 | The organization section has only organization-level calls, in the order admins, VPN rules, SNMP, peers, and opens no block |
| Properties.NetworksOrgFree | meraki-backup.py:226-255 | No network block contains an organization-level call |
| Properties.ProgramOrgFirst | meraki-backup.py:219-255 | Every organization-level call precedes every network block, and organization-level calls are in the generator's order |
| Properties.NetworksPayloadsNone | meraki-backup.py:226-255 | The network blocks send nothing to an organization-level target |
| Properties.ProgramAdmins | meraki-backup.py:83-90 | The script posts exactly the fetched admins, in order |
| Properties.ProgramVpnRules | meraki-backup.py:128-134 | The script sends the VPN firewall rules exactly once, without the default rule and with syslog on |
| Properties.ProgramSnmp | meraki-backup.py:144-165 | The script sends the SNMP settings exactly once, stripped |
| Properties.ProgramPeers | meraki-backup.py:167-177 | The script sends the third-party VPN peers exactly once, as fetched |
| Properties.Eligible | meraki-backup.py:227-229 | The restored networks: a network is in the result exactly when it is listed and is not a Systems Manager network; each is ready to be written |
| Properties.CreateBodies | meraki-backup.py:231-242 | The i-th create body is the i-th network's sanitized row |
| Properties.Names | meraki-backup.py:234-236 | The i-th name is the i-th network's name |
| Properties.NetworksCreated | meraki-backup.py:226-243 | The network loop creates exactly the eligible networks, in listing order, each from its sanitized row |
| Properties.NetworksNamed | meraki-backup.py:226-237 | The network loop opens exactly one block per eligible network, in listing order |
| Properties.ProgramBlocks | meraki-backup.py:211-255 | In the whole script, the networks created and the blocks opened are exactly the eligible networks, in listing order |
| Properties.RadiusNotices | meraki-backup.py:187-188 | The SSID warnings are only placeholder-password warnings. One names an SSID exactly when that SSID has RADIUS servers |
| Properties.VlanNotice | meraki-backup.py:108-118 | A network's console log has the VLANs-disabled warning exactly when its VLANs are not enabled |

## Left out

- The header text (lines 40-81) and the comment lines the generator writes are one opaque `Preamble` item, or are not represented.
- Loading `.env` files, argument parsing and the SDK client (lines 200-208) are configuration and a foreign library. The organization name and listing are parameters of `Backup.Run`.
- Every SDK read is replaced by input data (`OrgSnapshot`). The model does not check that this data belongs to the resolved organization id or to each network's `id`.
- How bodies and URLs are rendered as text (`repr`/`str`, dict key order, quoting) is not modelled. Requests are structured values. JSON numbers are integers; floats do not occur in the modelled logic.
- Writing to the file and the durability of `file.flush()` are not modelled; the flush points are marked by `Flush` items.
- The console holds only the generator's three kinds of message: processing a network, VLANs disabled, and the placeholder RADIUS password. The `ValueError` text is the `OrganizationNotFound` error.
- The crash paths for missing keys, empty RADIUS lists and non-string names are excluded by preconditions rather than modelled as errors. These are `KeyError`, `IndexError` and `TypeError` on `type`, `tags`, `name`, `id`, `enabled`, `number`, `v3AuthMode`, `v3PrivMode` and `radiusServers[0]`. In the source such a crash leaves the script cut off at that point. For `type`, `tags` and the network's `name` (lines 228-234) and for `v3AuthMode` and `v3PrivMode` (lines 152-155) that point is outside every network block. For `id`, `enabled`, `number`, an SSID's `name` and `radiusServers[0]` the script is cut off inside the network's open `try:` block, so it does not parse.
- An exception raised by an SDK read ends the run in the source, with the script cut off at that point. In the model every read succeeds, because its result is part of `OrgSnapshot`. For example, the MX reads at lines 247-249 run for every non-Systems-Manager network, whatever its product types, and a failure there cuts the script off inside the network's open `try:` block.
- The fetched dicts are changed in place in the source (`del`, assignment to `secret`). The model returns new maps instead. Every later read either serializes the changed dict, as the model does, or reads a key the change does not touch, so nothing observable differs.
- Properties.Eligible: its contract states which networks are kept, not that they keep the listing order; the order follows from its definition, which drops elements from the listing without moving any.
- What the restore script does when it is run (HTTP calls, partial failure, whether requests are idempotent) is not modelled. The model proves only its structure: `WellNested` shows that a network's requests can only run after that network's creation succeeded.
