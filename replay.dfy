/**
 * The structured form of the generated restore script: an append-only
 * sequence of items, each standing for the lines one write in the
 * generator produces, and the recognizer for its block structure.
 */
module Replay {
  import opened Wrappers
  import opened Json

  datatype Verb = Put | Post

  /**
   * Which replay-time identifier a request's URL is formatted with:
   * `orgid` (resolved once from the command line) or `networkid` (bound
   * from the response of the enclosing network creation).
   */
  datatype Scope = OrgScope | NetScope

  /** The resource a request targets; an SSID's URL carries its `number`. */
  datatype Target =
    | Admins
    | VpnFirewallRules
    | Snmp
    | ThirdPartyVpnPeers
    | Networks
    | VlansEnabledState
    | Vlans
    | CellularFirewallRules
    | L3FirewallRules
    | SiteToSiteVpn
    | Ssid(number: Value)
    | SsidL3FirewallRules(number: Value)
  {
    function Scope(): Scope
    {
      match this
      case Admins | VpnFirewallRules | Snmp | ThirdPartyVpnPeers | Networks => OrgScope
      case _ => NetScope
    }
  }

  /** One `session.put` / `session.post` with its JSON body. */
  datatype Op = Op(verb: Verb, target: Target, body: Value)

  /** A unit of the generated script. */
  datatype Item =
    | Preamble                // the fixed header: imports, session, get_org_id, `orgid=...`
    | Flush                   // a `file.flush()` point of the generator
    | Request(op: Op)         // a request whose failure goes unnoticed
    | CheckedRequest(op: Op)  // a request in its own try/except that prints the error
    | BeginNetwork(name: string) // the progress print and the `try:` of a network block
    | BindNetworkId           // `raise_for_status()` then `networkid=dashboard.json()['id']`
    | EndNetwork(name: string)   // the `except` printing that the network was not added

  /** Where the recognizer is: at top level, or inside the block of a network. */
  datatype Phase = Outside | Opened(name: string) | Created(name: string) | Bound(name: string)

  /** An organization-level request that may stand outside every block. */
  predicate OrgLevel(op: Op)
  {
    op.target.Scope() == OrgScope && op.target != Networks
  }

  /**
   * One step of the block-structure recognizer. Inside a block the network
   * is created first, its id is bound next, and only then do requests on
   * `networkid` follow; the block is closed by the `except` of the same
   * network. Anything else is rejected.
   */
  function Step(p: Phase, item: Item): Option<Phase>
  {
    match item
    case Preamble => if p.Outside? then Some(p) else None
    case Flush => if p.Outside? then Some(p) else None
    case Request(op) =>
      if p.Outside? && OrgLevel(op) then Some(p)
      else if p.Opened? && op.verb == Post && op.target == Networks then Some(Created(p.name))
      else if p.Bound? && op.target.Scope() == NetScope then Some(p)
      else None
    case CheckedRequest(op) => if p.Outside? && OrgLevel(op) then Some(p) else None
    case BeginNetwork(name) => if p.Outside? then Some(Opened(name)) else None
    case BindNetworkId => if p.Created? then Some(Bound(p.name)) else None
    case EndNetwork(name) => if p.Bound? && p.name == name then Some(Outside) else None
  }

  /** The phase reached by reading `items` from `p`, or None at the first item out of place. */
  function Recognize(p: Phase, items: seq<Item>): Option<Phase>
    decreases |items|
  {
    if items == [] then Some(p)
    else match Step(p, items[0])
      case None => None
      case Some(q) => Recognize(q, items[1..])
  }

  /**
   * The script's block structure is sound: every request on `networkid`
   * sits after the creation and id binding of its network and before that
   * network's `except`, and every block is closed.
   */
  predicate WellNested(items: seq<Item>)
  {
    Recognize(Outside, items) == Some(Outside)
  }

  /** Recognizing two pieces one after the other is recognizing their concatenation. */
  lemma {:induction false} RecognizeAppend(p: Phase, a: seq<Item>, b: seq<Item>)
    ensures Recognize(p, a + b) == match Recognize(p, a) case None => None case Some(q) => Recognize(q, b)
    decreases |a|
  {
    if a == [] {
      assert a + b == b;
    } else {
      assert (a + b)[0] == a[0];
      assert (a + b)[1..] == a[1..] + b;
      match Step(p, a[0])
      case None =>
      case Some(q) => RecognizeAppend(q, a[1..], b);
    }
  }

  /** Every item is a request on `networkid`. */
  predicate NetRequests(items: seq<Item>)
  {
    forall i :: 0 <= i < |items| ==> items[i].Request? && items[i].op.target.Scope() == NetScope
  }

  lemma NetRequestsAppend(a: seq<Item>, b: seq<Item>)
    requires NetRequests(a) && NetRequests(b)
    ensures NetRequests(a + b)
  {
    forall i | 0 <= i < |a + b|
      ensures (a + b)[i].Request? && (a + b)[i].op.target.Scope() == NetScope
    {
      if i < |a| { assert (a + b)[i] == a[i]; } else { assert (a + b)[i] == b[i - |a|]; }
    }
  }

  /** Requests on `networkid` keep a bound block bound. */
  lemma {:induction false} RecognizeNetRequests(name: string, items: seq<Item>)
    requires NetRequests(items)
    ensures Recognize(Bound(name), items) == Some(Bound(name))
  {
    if items != [] {
      assert NetRequests(items[1..]) by {
        forall i | 0 <= i < |items[1..]| ensures items[1..][i] == items[i + 1] { }
      }
      RecognizeNetRequests(name, items[1..]);
    }
  }

  /** A request, with or without its own error check. */
  predicate IsCall(item: Item)
  {
    item.Request? || item.CheckedRequest?
  }

  /**
   * The order the generator writes targets in: the organization-level
   * settings (admins, VPN firewall, SNMP, third-party peers), then, inside
   * a network block, creation, VLAN state, VLANs, cellular rules, L3 rules,
   * site-to-site VPN and the SSIDs.
   */
  function Rank(t: Target): nat
  {
    match t
    case Admins => 0
    case VpnFirewallRules => 1
    case Snmp => 2
    case ThirdPartyVpnPeers => 3
    case Networks => 4
    case VlansEnabledState => 5
    case Vlans => 6
    case CellularFirewallRules => 7
    case L3FirewallRules => 8
    case SiteToSiteVpn => 9
    case Ssid(_) => 10
    case SsidL3FirewallRules(_) => 10
  }

  /** The calls of `items` come in non-decreasing rank. */
  predicate Ordered(items: seq<Item>)
  {
    forall i, j :: 0 <= i < j < |items| && IsCall(items[i]) && IsCall(items[j]) ==>
      Rank(items[i].op.target) <= Rank(items[j].op.target)
  }

  /** Every call of `items` has a rank between `lo` and `hi`. */
  predicate RanksWithin(items: seq<Item>, lo: nat, hi: nat)
  {
    forall i :: 0 <= i < |items| && IsCall(items[i]) ==> lo <= Rank(items[i].op.target) <= hi
  }

  lemma OrderedAppend(a: seq<Item>, b: seq<Item>, lo: nat, mid: nat, hi: nat)
    requires Ordered(a) && RanksWithin(a, lo, mid)
    requires Ordered(b) && RanksWithin(b, mid, hi)
    requires lo <= mid <= hi
    ensures Ordered(a + b) && RanksWithin(a + b, lo, hi)
  {
    var c := a + b;
    forall i, j | 0 <= i < j < |c| && IsCall(c[i]) && IsCall(c[j])
      ensures Rank(c[i].op.target) <= Rank(c[j].op.target)
    {
      if j < |a| {
        assert c[i] == a[i] && c[j] == a[j];
      } else if i < |a| {
        assert c[i] == a[i] && c[j] == b[j - |a|];
      } else {
        assert c[i] == b[i - |a|] && c[j] == b[j - |a|];
      }
    }
    forall i | 0 <= i < |c| && IsCall(c[i]) ensures lo <= Rank(c[i].op.target) <= hi {
      if i < |a| { assert c[i] == a[i]; } else { assert c[i] == b[i - |a|]; }
    }
  }

  /** Calls that all share one rank are in order. */
  lemma FlatOrdered(items: seq<Item>, k: nat)
    requires RanksWithin(items, k, k)
    ensures Ordered(items)
  {
  }

  /** No call of `items` is an organization-level one. */
  predicate OrgFree(items: seq<Item>)
  {
    forall i :: 0 <= i < |items| && IsCall(items[i]) ==> !OrgLevel(items[i].op)
  }

  lemma OrgFreeAppend(a: seq<Item>, b: seq<Item>)
    requires OrgFree(a) && OrgFree(b)
    ensures OrgFree(a + b)
  {
    forall i | 0 <= i < |a + b| && IsCall((a + b)[i]) ensures !OrgLevel((a + b)[i].op) {
      if i < |a| { assert (a + b)[i] == a[i]; } else { assert (a + b)[i] == b[i - |a|]; }
    }
  }

  /**
   * Organization-level calls all come before the first network block and,
   * among themselves, in rank order; only organization-level calls precede
   * an organization-level call.
   */
  predicate OrgFirst(items: seq<Item>)
  {
    && (forall i, j ::
          0 <= i < |items| && 0 <= j < |items| && items[i].BeginNetwork? && IsCall(items[j]) && OrgLevel(items[j].op)
          ==> j < i)
    && (forall i, j :: 0 <= i < j < |items| && IsCall(items[i]) && IsCall(items[j]) && OrgLevel(items[j].op) ==>
          OrgLevel(items[i].op) && Rank(items[i].op.target) <= Rank(items[j].op.target))
  }

  /** An ordered organization-level prefix followed by items without organization-level calls. */
  lemma OrgFirstAppend(a: seq<Item>, b: seq<Item>)
    requires Ordered(a) && OrgFree(b)
    requires forall i :: 0 <= i < |a| ==> !a[i].BeginNetwork? && (IsCall(a[i]) ==> OrgLevel(a[i].op))
    ensures OrgFirst(a + b)
  {
    var c := a + b;
    assert forall k :: 0 <= k < |a| ==> c[k] == a[k];
    assert forall k :: |a| <= k < |c| ==> c[k] == b[k - |a|];
  }

  /** Organization-level requests leave the recognizer at top level. */
  lemma {:induction false} RecognizeOrgRequests(items: seq<Item>)
    requires forall i :: 0 <= i < |items| ==> items[i].Request? && OrgLevel(items[i].op)
    ensures Recognize(Outside, items) == Some(Outside)
  {
    if items != [] {
      assert forall i :: 0 <= i < |items[1..]| ==> items[1..][i] == items[i + 1];
      RecognizeOrgRequests(items[1..]);
    }
  }

  /** The bodies of the calls with the given verb and target, in order. */
  function Payloads(items: seq<Item>, verb: Verb, target: Target): seq<Value>
  {
    if items == [] then [] else Pick(items[0], verb, target) + Payloads(items[1..], verb, target)
  }

  /** The body of `x` when it is a call with this verb and target. */
  function Pick(x: Item, verb: Verb, target: Target): seq<Value>
  {
    if IsCall(x) && x.op.verb == verb && x.op.target == target then [x.op.body] else []
  }

  lemma PayloadsSingle(x: Item, verb: Verb, target: Target)
    ensures Payloads([x], verb, target) == Pick(x, verb, target)
  {
    assert [x][1..] == [];
  }

  /** No call of `items` has this verb and target. */
  lemma {:induction false} PayloadsNone(items: seq<Item>, verb: Verb, target: Target)
    requires forall i :: 0 <= i < |items| && IsCall(items[i]) ==>
      items[i].op.verb != verb || items[i].op.target != target
    ensures Payloads(items, verb, target) == []
  {
    if items != [] {
      assert forall i :: 0 <= i < |items[1..]| ==> items[1..][i] == items[i + 1];
      PayloadsNone(items[1..], verb, target);
    }
  }

  lemma {:induction false} PayloadsAppend(a: seq<Item>, b: seq<Item>, verb: Verb, target: Target)
    ensures Payloads(a + b, verb, target) == Payloads(a, verb, target) + Payloads(b, verb, target)
  {
    if a == [] {
      assert a + b == b;
    } else {
      assert (a + b)[0] == a[0];
      assert (a + b)[1..] == a[1..] + b;
      PayloadsAppend(a[1..], b, verb, target);
    }
  }

  /** The names of the network blocks, in order. */
  function BlockNames(items: seq<Item>): seq<string>
  {
    if items == [] then []
    else (if items[0].BeginNetwork? then [items[0].name] else []) + BlockNames(items[1..])
  }

  lemma BlockNamesSingle(x: Item)
    ensures BlockNames([x]) == if x.BeginNetwork? then [x.name] else []
  {
    assert [x][1..] == [];
  }

  lemma {:induction false} BlockNamesNone(items: seq<Item>)
    requires forall i :: 0 <= i < |items| ==> !items[i].BeginNetwork?
    ensures BlockNames(items) == []
  {
    if items != [] {
      assert forall i :: 0 <= i < |items[1..]| ==> items[1..][i] == items[i + 1];
      BlockNamesNone(items[1..]);
    }
  }

  lemma {:induction false} BlockNamesAppend(a: seq<Item>, b: seq<Item>)
    ensures BlockNames(a + b) == BlockNames(a) + BlockNames(b)
  {
    if a == [] {
      assert a + b == b;
    } else {
      assert (a + b)[0] == a[0];
      assert (a + b)[1..] == a[1..] + b;
      BlockNamesAppend(a[1..], b);
    }
  }
}
