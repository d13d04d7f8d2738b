/**
 The two layers of a firewalld host, what an inspection of them reports, and
 the narrow changes X-port makes to them.
 */
module FirewallHost {
  import opened FirewallRules

  datatype Layer = Runtime | Permanent

  /** The native rules in force, the rules that survive a reload, the zones an
      inspection covers, and the zones holding rich rules it cannot read. */
  datatype Host = Host(runtime: set<Native>, permanent: set<Native>, zones: set<string>, opaqueZones: set<string>)
  {
    function Layer(layer: Layer): set<Native> {
      if layer == Runtime then runtime else permanent
    }

    // Adding a rule that is there, or removing one that is not, changes nothing.
    function Set(layer: Layer, n: Native, present: bool): Host {
      match layer
      case Runtime => this.(runtime := if present then runtime + {n} else runtime - {n})
      case Permanent => this.(permanent := if present then permanent + {n} else permanent - {n})
    }

    predicate Everywhere(n: Native) {
      n in runtime && n in permanent
    }

    predicate Nowhere(n: Native) {
      n !in runtime && n !in permanent
    }

    predicate Sees(n: Native) {
      !Nowhere(n) && !n.UfwPort? && n.zone in zones
    }

    function Visible(): set<Native> {
      set n | n in runtime + permanent && Sees(n)
    }

    // The visible rules that govern a port, in every zone.
    function Governing(port: nat, protocol: Protocol): set<Native> {
      set n | n in Visible() && n.ContainsPort(port) && n.protocol == protocol
    }

    function GoverningIn(zone: string, port: nat, protocol: Protocol): set<Native> {
      set n | n in Visible() && n.ContainsPort(port) && n.protocol == protocol && n.Zone() == zone
    }

    ghost predicate Conflicting(n: Native) {
      exists m :: m in Visible() && m != n && Overlap(n, m)
    }
  }

  // ----- Inspection -----

  ghost predicate Listed(natives: seq<Native>, visible: set<Native>) {
    (forall n :: n in natives <==> n in visible) &&
    (forall i, j :: 0 <= i < j < |natives| ==> natives[i] != natives[j])
  }

  // A report lists each visible rule once, in any order, with its layers and
  // with the conflict mark.
  ghost predicate Reports(h: Host, rules: seq<Rule>) {
    Listed(Natives(rules), h.Visible()) &&
    forall i :: 0 <= i < |rules| ==>
      var n := rules[i].native;
      rules[i] == Rule(n, n in h.runtime, n in h.permanent, h.Conflicting(n))
  }

  lemma PairwiseIsConflicting(h: Host, natives: seq<Native>, i: nat)
    requires Listed(natives, h.Visible()) && i < |natives|
    ensures OverlapsAnother(natives, i) <==> h.Conflicting(natives[i])
  {
    if h.Conflicting(natives[i]) {
      var m :| m in h.Visible() && m != natives[i] && Overlap(natives[i], m);
      var j :| 0 <= j < |natives| && natives[j] == m;
      assert Overlap(natives[i], natives[j]);
    }
  }

  /** Lists the visible rules and runs the conflict sweep over them. */
  method Inspect(h: Host) returns (rules: seq<Rule>)
    ensures Reports(h, rules)
  {
    var left, natives := h.Visible(), [];
    while left != {}
      invariant left <= h.Visible()
      invariant Listed(natives, h.Visible() - left)
      decreases left
    {
      var n :| n in left;
      natives, left := natives + [n], left - {n};
    }
    var table := new Rule[|natives|](i requires 0 <= i < |natives| =>
      Rule(natives[i], natives[i] in h.runtime, natives[i] in h.permanent, false));
    assert Natives(table[..]) == natives;
    MarkRuleConflicts(table);
    rules := table[..];
    assert Natives(rules) == natives;
    assert h.Visible() - left == h.Visible();
    forall i: nat | i < |rules| ensures rules[i].conflict == h.Conflicting(natives[i]) {
      PairwiseIsConflicting(h, natives, i);
    }
  }

  // ----- The guards of a change -----

  datatype FoundRule = NotFound | Found(rule: Rule)

  function FirstMatch(rules: seq<Rule>, port: nat, protocol: Protocol, zone: string): (f: FoundRule)
    ensures f.NotFound? <==> forall i :: 0 <= i < |rules| ==> !Governs(rules[i].native, port, protocol, zone)
    ensures f.Found? ==> f.rule in rules && Governs(f.rule.native, port, protocol, zone)
  {
    if rules == [] then NotFound
    else if Governs(rules[0].native, port, protocol, zone) then Found(rules[0])
    else FirstMatch(rules[1..], port, protocol, zone)
  }

  predicate Governs(n: Native, port: nat, protocol: Protocol, zone: string) {
    n.ContainsPort(port) && n.protocol == protocol && n.Zone() == zone
  }

  // What Change checks on the first rule of the zone that covers the port.
  predicate AllowGuard(rules: seq<Rule>, add: bool, port: nat, protocol: Protocol, zone: string) {
    match FirstMatch(rules, port, protocol, zone)
    case NotFound => add
    case Found(r) =>
      && !(r.native.IsRange() || r.native.RichPort? || r.native.PolicyAction() != Allow || r.conflict)
      && r.runtime == r.permanent
      && !add
  }

  predicate Usable(h: Host, zone: string) {
    zone in h.zones && zone !in h.opaqueZones
  }

  // What a change of an allowance really needs of the host.
  predicate AdmitsAllow(h: Host, add: bool, n: Native)
    requires n.OpenPort?
  {
    && Usable(h, n.zone)
    && if add then h.GoverningIn(n.zone, n.port, n.protocol) == {}
       else h.GoverningIn(n.zone, n.port, n.protocol) == {n} && h.Everywhere(n)
  }

  // What ChangeSimpleDrop needs: an addition looks at every zone.
  predicate AdmitsDrop(h: Host, add: bool, n: Native)
    requires n.RichPort?
  {
    && Usable(h, n.zone)
    && if add then h.Governing(n.port, n.protocol) == {}
       else h.GoverningIn(n.zone, n.port, n.protocol) == {n} && h.Everywhere(n)
  }

  predicate IsDrop(n: Native) {
    n.RichPort? && n.action == Deny && n.coverage == Both
  }

  // A dual-family single-port policy conflicts exactly when another rule of
  // its zone and protocol covers the port.
  lemma DualConflictsWithEveryCover(h: Host, n: Native, m: Native)
    requires (n.OpenPort? || IsDrop(n)) && n in h.Visible()
    requires m in h.GoverningIn(n.zone, n.port, n.protocol) && m != n
    ensures h.Conflicting(n)
  {
    assert m.InFamily(IPv4) || m.InFamily(IPv6) by {
      match m.PolicyCoverage() {
        case Both =>
        case OnlyIPv4 =>
        case OnlyIPv6 =>
      }
    }
    assert n.InFamily(IPv4) && n.InFamily(IPv6);
    assert Overlap(n, m);
  }

  lemma DualConflictIsCover(h: Host, n: Native)
    requires (n.OpenPort? || IsDrop(n)) && h.Conflicting(n)
    ensures h.GoverningIn(n.zone, n.port, n.protocol) != {n}
  {
    var m :| m in h.Visible() && m != n && Overlap(n, m);
    assert m in h.GoverningIn(n.zone, n.port, n.protocol);
  }

  lemma ReportedIsVisible(h: Host, rules: seq<Rule>, n: Native)
    requires Reports(h, rules)
    ensures n in h.Visible() <==> exists i :: 0 <= i < |rules| && rules[i].native == n
  {
    assert n in Natives(rules) <==> n in h.Visible();
  }

  lemma NoMatchIsUngoverned(h: Host, rules: seq<Rule>, port: nat, protocol: Protocol, zone: string)
    requires Reports(h, rules)
    ensures FirstMatch(rules, port, protocol, zone).NotFound? <==> h.GoverningIn(zone, port, protocol) == {}
  {
    if FirstMatch(rules, port, protocol, zone).NotFound? {
      forall n | n in h.GoverningIn(zone, port, protocol) ensures false {
        ReportedIsVisible(h, rules, n);
      }
    } else {
      var r := FirstMatch(rules, port, protocol, zone).rule;
      ReportedIsVisible(h, rules, r.native);
      assert r.native in h.GoverningIn(zone, port, protocol);
    }
  }

  // An unmarked allowance found first is the only rule of its zone covering
  // the port, and it is the plain rule for that port: the guard on one rule
  // decides a property of the whole zone, in whatever order rules are listed.
  lemma AllowGuardExact(h: Host, rules: seq<Rule>, add: bool, n: Native)
    requires Reports(h, rules) && n.OpenPort? && n.port > 0 && Usable(h, n.zone)
    ensures AllowGuard(rules, add, n.port, n.protocol, n.zone) <==> AdmitsAllow(h, add, n)
  {
    NoMatchIsUngoverned(h, rules, n.port, n.protocol, n.zone);
    match FirstMatch(rules, n.port, n.protocol, n.zone) {
      case NotFound =>
      case Found(r) =>
        ReportedIsVisible(h, rules, r.native);
        if AllowGuard(rules, add, n.port, n.protocol, n.zone) {
          UnmarkedAllowIsAlone(h, r, n);
        }
        if AdmitsAllow(h, add, n) {
          assert r.native in h.GoverningIn(n.zone, n.port, n.protocol);
          if h.Conflicting(n) {
            DualConflictIsCover(h, n);
          }
        }
    }
  }

  lemma UnmarkedAllowIsAlone(h: Host, r: Rule, n: Native)
    requires n.OpenPort? && r.native in h.Visible() && Governs(r.native, n.port, n.protocol, n.zone)
    requires r == Rule(r.native, r.native in h.runtime, r.native in h.permanent, h.Conflicting(r.native))
    requires !r.native.IsRange() && !r.native.RichPort? && !r.conflict && r.runtime == r.permanent
    requires n.port > 0
    ensures r.native == n && h.GoverningIn(n.zone, n.port, n.protocol) == {n} && h.Everywhere(n)
  {
    assert r.native == n;
    forall m | m in h.GoverningIn(n.zone, n.port, n.protocol) ensures m == n {
      if m != n {
        DualConflictsWithEveryCover(h, n, m);
      }
    }
    assert n in h.GoverningIn(n.zone, n.port, n.protocol);
  }
}
