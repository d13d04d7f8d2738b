/** The helper operations that edit firewalld, one command per layer. */
module FirewallChange {
  import opened FirewallRules
  import opened FirewallText
  import opened FirewallHost

  datatype ChangeResult = Refused | Failed | Changed

  // Every layer agrees on every rule other than n.
  ghost predicate SameBut(before: Host, after: Host, n: Native) {
    && after.zones == before.zones && after.opaqueZones == before.opaqueZones
    && forall m :: m != n ==> (m in after.runtime <==> m in before.runtime) && (m in after.permanent <==> m in before.permanent)
  }

  // ----- The guard of the drop policy -----

  function MatchingIn(rules: seq<Rule>, port: nat, protocol: Protocol, zone: string): (matching: seq<Rule>)
    ensures forall r :: r in matching <==> r in rules && Governs(r.native, port, protocol, zone)
    ensures |matching| <= |rules|
  {
    if rules == [] then []
    else
      (if Governs(rules[0].native, port, protocol, zone) then [rules[0]] else []) + MatchingIn(rules[1..], port, protocol, zone)
  }

  predicate GovernedElsewhere(rules: seq<Rule>, port: nat, protocol: Protocol, zone: string) {
    exists i :: 0 <= i < |rules| &&
      rules[i].native.ContainsPort(port) && rules[i].native.protocol == protocol && rules[i].native.Zone() != zone
  }

  predicate DropGuard(rules: seq<Rule>, add: bool, port: nat, protocol: Protocol, zone: string) {
    var matching := MatchingIn(rules, port, protocol, zone);
    if add then !GovernedElsewhere(rules, port, protocol, zone) && matching == []
    else
      && |matching| == 1
      && IsDrop(matching[0].native)
      && matching[0].runtime && matching[0].permanent && !matching[0].conflict
  }

  lemma MatchingIsGoverning(h: Host, rules: seq<Rule>, n: Native, port: nat, protocol: Protocol, zone: string)
    requires Reports(h, rules)
    ensures n in h.GoverningIn(zone, port, protocol) <==> exists r :: r in MatchingIn(rules, port, protocol, zone) && r.native == n
  {
    ReportedIsVisible(h, rules, n);
    if n in h.GoverningIn(zone, port, protocol) {
      var i :| 0 <= i < |rules| && rules[i].native == n;
      assert rules[i] in MatchingIn(rules, port, protocol, zone);
    }
  }

  lemma {:induction false} NoneMatches(rules: seq<Rule>, port: nat, protocol: Protocol, zone: string)
    ensures MatchingIn(rules, port, protocol, zone) == [] <==>
            forall i :: 0 <= i < |rules| ==> !Governs(rules[i].native, port, protocol, zone)
  {
    if rules != [] {
      NoneMatches(rules[1..], port, protocol, zone);
      assert forall i :: 1 <= i < |rules| ==> rules[i] == rules[1..][i - 1];
    }
  }

  // A report names each rule once, so one rule matches at most once.
  lemma {:induction false} MatchesOnce(rules: seq<Rule>, n: Native, port: nat, protocol: Protocol, zone: string)
    requires forall k, l :: 0 <= k < l < |rules| ==> rules[k].native != rules[l].native
    requires forall i :: 0 <= i < |rules| && Governs(rules[i].native, port, protocol, zone) ==> rules[i].native == n
    ensures |MatchingIn(rules, port, protocol, zone)| <= 1
  {
    if rules != [] {
      MatchesOnce(rules[1..], n, port, protocol, zone);
      NoneMatches(rules[1..], port, protocol, zone);
    }
  }

  lemma UngovernedReport(h: Host, rules: seq<Rule>, port: nat, protocol: Protocol)
    requires Reports(h, rules)
    ensures h.Governing(port, protocol) == {} <==>
            forall i :: 0 <= i < |rules| ==> !(rules[i].native.ContainsPort(port) && rules[i].native.protocol == protocol)
  {
    if m :| m in h.Governing(port, protocol) {
      ReportedIsVisible(h, rules, m);
    }
    if i :| 0 <= i < |rules| && rules[i].native.ContainsPort(port) && rules[i].native.protocol == protocol {
      ReportedIsVisible(h, rules, rules[i].native);
      assert rules[i].native in h.Governing(port, protocol);
    }
  }

  lemma AddGuardExact(h: Host, rules: seq<Rule>, n: Native)
    requires Reports(h, rules)
    ensures !GovernedElsewhere(rules, n.Port(), n.protocol, n.Zone()) && MatchingIn(rules, n.Port(), n.protocol, n.Zone()) == []
            <==> h.Governing(n.Port(), n.protocol) == {}
  {
    UngovernedReport(h, rules, n.Port(), n.protocol);
    NoneMatches(rules, n.Port(), n.protocol, n.Zone());
  }

  lemma SoleElement<T>(s: seq<T>, x: T)
    requires |s| == 1
    ensures x in s <==> x == s[0]
  {
  }

  // The only match of a report is the only rule governing the port.
  lemma SoleMatchGoverns(h: Host, rules: seq<Rule>, n: Native)
    requires Reports(h, rules) && n.RichPort?
    requires var matching := MatchingIn(rules, n.port, n.protocol, n.zone); |matching| == 1 && matching[0].native == n
    ensures h.GoverningIn(n.zone, n.port, n.protocol) == {n}
  {
    var matching := MatchingIn(rules, n.port, n.protocol, n.zone);
    forall m ensures m in h.GoverningIn(n.zone, n.port, n.protocol) <==> m == n {
      MatchingIsGoverning(h, rules, m, n.port, n.protocol, n.zone);
      SoleElement(matching, matching[0]);
      if r :| r in matching && r.native == m {
        SoleElement(matching, r);
      }
    }
  }

  lemma RemoveGuardSound(h: Host, rules: seq<Rule>, n: Native)
    requires Reports(h, rules) && IsDrop(n) && DropGuard(rules, false, n.port, n.protocol, n.zone)
    ensures h.GoverningIn(n.zone, n.port, n.protocol) == {n} && h.Everywhere(n)
  {
    var r := MatchingIn(rules, n.port, n.protocol, n.zone)[0];
    assert r in MatchingIn(rules, n.port, n.protocol, n.zone);
    assert r.native == n;
    var i :| 0 <= i < |rules| && rules[i] == r;
    assert rules[i] == Rule(n, n in h.runtime, n in h.permanent, h.Conflicting(n));
    SoleMatchGoverns(h, rules, n);
  }

  // When n alone governs the port, it is the only match of the report.
  lemma AloneMatches(h: Host, rules: seq<Rule>, n: Native)
    requires Reports(h, rules) && n.RichPort? && h.GoverningIn(n.zone, n.port, n.protocol) == {n}
    ensures var matching := MatchingIn(rules, n.port, n.protocol, n.zone);
            |matching| == 1 && matching[0] in rules && matching[0].native == n
  {
    var matching := MatchingIn(rules, n.port, n.protocol, n.zone);
    forall i | 0 <= i < |rules| && Governs(rules[i].native, n.port, n.protocol, n.zone) ensures rules[i].native == n {
      assert rules[i] in matching;
      MatchingIsGoverning(h, rules, rules[i].native, n.port, n.protocol, n.zone);
    }
    assert forall k, l :: 0 <= k < l < |rules| ==> Natives(rules)[k] != Natives(rules)[l];
    MatchesOnce(rules, n, n.port, n.protocol, n.zone);
    MatchingIsGoverning(h, rules, n, n.port, n.protocol, n.zone);
    var r :| r in matching && r.native == n;
    assert matching[0] == r;
  }

  lemma RemoveGuardComplete(h: Host, rules: seq<Rule>, n: Native)
    requires Reports(h, rules) && IsDrop(n)
    requires h.GoverningIn(n.zone, n.port, n.protocol) == {n} && h.Everywhere(n)
    ensures DropGuard(rules, false, n.port, n.protocol, n.zone)
  {
    AloneMatches(h, rules, n);
    if h.Conflicting(n) {
      DualConflictIsCover(h, n);
    }
  }

  lemma RemoveGuardExact(h: Host, rules: seq<Rule>, n: Native)
    requires Reports(h, rules) && IsDrop(n)
    ensures DropGuard(rules, false, n.port, n.protocol, n.zone) <==>
            h.GoverningIn(n.zone, n.port, n.protocol) == {n} && h.Everywhere(n)
  {
    if DropGuard(rules, false, n.port, n.protocol, n.zone) {
      RemoveGuardSound(h, rules, n);
    }
    if h.GoverningIn(n.zone, n.port, n.protocol) == {n} && h.Everywhere(n) {
      RemoveGuardComplete(h, rules, n);
    }
  }

  // The checks on a report decide exactly what the host must satisfy.
  lemma DropGuardExact(h: Host, rules: seq<Rule>, add: bool, n: Native)
    requires Reports(h, rules) && IsDrop(n) && Usable(h, n.zone)
    ensures DropGuard(rules, add, n.port, n.protocol, n.zone) <==> AdmitsDrop(h, add, n)
  {
    if add {
      AddGuardExact(h, rules, n);
    } else {
      RemoveGuardExact(h, rules, n);
    }
  }

  // ----- The operations -----

  /** How one firewall-cmd invocation ends; a reported failure may have taken effect. */
  datatype CommandResult = Worked | HadNoEffect | TookEffect

  /** The results of the runtime edit, the permanent edit and the compensation. */
  datatype Results = Results(runtime: CommandResult, permanent: CommandResult, undo: CommandResult)

  class Firewalld {
    var host: Host

    method Command(layer: Layer, n: Native, present: bool, result: CommandResult) returns (ok: bool)
      modifies this
      ensures ok <==> result.Worked?
      ensures host == if result.HadNoEffect? then old(host) else old(host).Set(layer, n, present)
    {
      if !result.HadNoEffect? {
        host := host.Set(layer, n, present);
      }
      return result.Worked?;
    }

    /** Runtime first, then permanent; a failed second step undoes the first. */
    method BothLayers(n: Native, present: bool, results: Results) returns (ok: bool)
      modifies this
      ensures ok <==> results.runtime.Worked? && results.permanent.Worked?
      ensures ok ==> host == old(host).Set(Runtime, n, present).Set(Permanent, n, present)
      ensures !ok ==> SameBut(old(host), host, n)
      ensures CleanFailure(results) && (n in old(host).runtime <==> !present) ==> host == old(host)
    {
      ok := Command(Runtime, n, present, results.runtime);
      if !ok {
        return;
      }
      ok := Command(Permanent, n, present, results.permanent);
      if !ok {
        var undone := Command(Runtime, n, !present, results.undo);
        assert n !in old(host).runtime ==> host.runtime == old(host).runtime || host.runtime == old(host).runtime + {n};
      }
    }

    /** Opens or closes one plain port. */
    method Change(add: bool, port: int, protocol: Protocol, zone: string, writable: bool, results: Results) returns (r: ChangeResult)
      modifies this
      ensures r.Refused? <==> !(ValidPort(port) && ValidZone(zone) && writable && AdmitsAllow(old(host), add, OpenPort(zone, port, protocol)))
      ensures r.Refused? ==> host == old(host)
      ensures r.Changed? ==> host == old(host).Set(Runtime, OpenPort(zone, port, protocol), add)
                                              .Set(Permanent, OpenPort(zone, port, protocol), add)
      ensures r.Failed? ==> !(results.runtime.Worked? && results.permanent.Worked?)
      ensures r.Failed? ==> SameBut(old(host), host, OpenPort(zone, port, protocol))
      ensures r.Failed? && CleanFailure(results) ==> host == old(host)
    {
      if !ValidPort(port) {
        return Refused;
      }
      var rules := Inspect(host);
      if !writable || zone in host.opaqueZones {
        return Refused;
      }
      if !ValidZone(zone) || zone !in host.zones {
        return Refused;
      }
      var n := OpenPort(zone, port, protocol);
      AllowGuardExact(host, rules, add, n);
      if !AllowGuard(rules, add, port, protocol, zone) {
        return Refused;
      }
      AdmittedIsOpposite(host, add, n);
      var ok := BothLayers(n, add, results);
      r := if ok then Changed else Failed;
    }

    /** Adds or removes X-port's own drop policy for one port. */
    method ChangeSimpleDrop(add: bool, port: int, protocol: Protocol, zone: string, writable: bool, results: Results) returns (r: ChangeResult)
      modifies this
      ensures r.Refused? <==> !(ValidPort(port) && ValidZone(zone) && writable && AdmitsDrop(old(host), add, RichPort(zone, port, protocol, Deny, Both)))
      ensures r.Refused? ==> host == old(host)
      ensures r.Changed? ==> host == old(host).Set(Runtime, RichPort(zone, port, protocol, Deny, Both), add)
                                              .Set(Permanent, RichPort(zone, port, protocol, Deny, Both), add)
      ensures r.Failed? ==> !(results.runtime.Worked? && results.permanent.Worked?)
      ensures r.Failed? ==> SameBut(old(host), host, RichPort(zone, port, protocol, Deny, Both))
      ensures r.Failed? && CleanFailure(results) ==> host == old(host)
    {
      if !ValidPort(port) || !ValidZone(zone) {
        return Refused;
      }
      var rules := Inspect(host);
      if !writable || zone in host.opaqueZones || zone !in host.zones {
        return Refused;
      }
      var n := RichPort(zone, port, protocol, Deny, Both);
      DropGuardExact(host, rules, add, n);
      if !DropGuard(rules, add, port, protocol, zone) {
        return Refused;
      }
      AdmittedIsOpposite(host, add, n);
      var ok := BothLayers(n, add, results);
      r := if ok then Changed else Failed;
    }
  }

  // The first edit fails without effect, or only the second one does and its
  // compensation works.
  predicate CleanFailure(results: Results) {
    results.runtime.HadNoEffect? || (results.runtime.Worked? && results.permanent.HadNoEffect? && !results.undo.HadNoEffect?)
  }

  // An admitted change asks for the opposite of what the runtime layer holds.
  lemma AdmittedIsOpposite(h: Host, add: bool, n: Native)
    requires (n.OpenPort? && n.port > 0 && AdmitsAllow(h, add, n)) || (IsDrop(n) && AdmitsDrop(h, add, n))
    ensures n in h.runtime <==> !add
  {
    assert n in h.GoverningIn(n.zone, n.port, n.protocol) <==> !h.Nowhere(n);
    assert n in h.Governing(n.port, n.protocol) <==> !h.Nowhere(n);
  }
}
