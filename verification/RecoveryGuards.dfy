/**
 The loops with which the handlers examine an inspection before they act, each
 shown to decide what the protocol requires of the host.
 */
module RecoveryGuards {
  import opened Common
  import opened FirewallRules
  import opened FirewallText
  import opened FirewallHost
  import opened FirewallChange
  import opened RecoveryProtocol

  // ----- Reading a report -----

  lemma ReportedAt(h: Host, rules: seq<Rule>, i: nat)
    requires Reports(h, rules) && i < |rules|
    ensures var n := rules[i].native;
            n in h.Visible() && rules[i] == Rule(n, n in h.runtime, n in h.permanent, h.Conflicting(n))
  {
    assert Natives(rules)[i] in Natives(rules);
  }

  lemma ReportedSomewhere(h: Host, rules: seq<Rule>, n: Native) returns (i: nat)
    requires Reports(h, rules) && n in h.Visible()
    ensures i < |rules| && rules[i].native == n
  {
    assert n in Natives(rules);
    i :| 0 <= i < |rules| && Natives(rules)[i] == n;
  }

  // ----- The confirmation's view of the announced state -----

  predicate ClashesWithEdit(m: Native, n: Native, d: Native) {
    (m != n && SameSocket(m, n)) || (m != d && SameSocket(m, d))
  }

  predicate InPlace(r: Rule) {
    r.native.OpenPort? && r.runtime && r.permanent && !r.conflict
  }

  method ScanEdit(rules: seq<Rule>, n: Native, d: Native) returns (ok: bool)
    ensures ok <==>
            (forall i :: 0 <= i < |rules| ==>
               rules[i].native != n && (rules[i].native == d ==> InPlace(rules[i])) && !ClashesWithEdit(rules[i].native, n, d)) &&
            (exists i :: 0 <= i < |rules| && rules[i].native == d)
  {
    var seenNew := false;
    for i := 0 to |rules|
      invariant forall k :: 0 <= k < i ==>
                  rules[k].native != n && (rules[k].native == d ==> InPlace(rules[k])) && !ClashesWithEdit(rules[k].native, n, d)
      invariant seenNew <==> exists k :: 0 <= k < i && rules[k].native == d
    {
      var item := rules[i];
      if item.native == n {
        return false;
      }
      if item.native == d {
        if !InPlace(item) {
          return false;
        }
        seenNew := true;
      }
      if ClashesWithEdit(item.native, n, d) {
        return false;
      }
    }
    return seenNew;
  }

  // Whether the scan of an inspected edit agrees with what was announced.
  lemma ScanEditExact(h: Host, rules: seq<Rule>, p: Pending)
    requires Reports(h, rules) && p.op.kind.EditExternal? && WellFormed(p.op)
    ensures var n, d := p.op.id, p.op.dest;
            Announced(p, h) <==>
            (forall i :: 0 <= i < |rules| ==>
               rules[i].native != n && (rules[i].native == d ==> InPlace(rules[i])) && !ClashesWithEdit(rules[i].native, n, d)) &&
            (exists i :: 0 <= i < |rules| && rules[i].native == d)
  {
    var n, d := p.op.id, p.op.dest;
    forall i: nat | i < |rules|
      ensures rules[i].native in h.Visible()
      ensures rules[i].native == d ==> (InPlace(rules[i]) <==> h.Everywhere(d) && !h.Conflicting(d))
    {
      ReportedAt(h, rules, i);
    }
    forall m | m in h.Visible() ensures exists i :: 0 <= i < |rules| && rules[i].native == m {
      var i := ReportedSomewhere(h, rules, m);
    }
  }

  method ScanChange(rules: seq<Rule>, n: Native, kind: Kind) returns (ok: bool)
    ensures ok <==>
            (forall i :: 0 <= i < |rules| ==> !RefusesChange(rules[i], n, kind)) &&
            ((exists i :: 0 <= i < |rules| && rules[i].native == n) <==> kind.AddDrop?)
  {
    var present := false;
    for i := 0 to |rules|
      invariant forall k :: 0 <= k < i ==> !RefusesChange(rules[k], n, kind)
      invariant present <==> exists k :: 0 <= k < i && rules[k].native == n
    {
      if RefusesChange(rules[i], n, kind) {
        return false;
      }
      if rules[i].native == n {
        present := true;
      }
    }
    return present == kind.AddDrop?;
  }

  predicate RefusesChange(r: Rule, n: Native, kind: Kind) {
    if r.native != n then !kind.RemoveAllow? && SameSocket(r.native, n)
    else kind.AddDrop? && !(r.runtime && r.permanent && !r.conflict)
  }

  lemma ScanChangeExact(h: Host, rules: seq<Rule>, p: Pending)
    requires Reports(h, rules) && !p.op.kind.EditExternal? && WellFormed(p.op)
    ensures var n, kind := p.op.id, p.op.kind;
            Announced(p, h) <==>
            (forall i :: 0 <= i < |rules| ==> !RefusesChange(rules[i], n, kind)) &&
            ((exists i :: 0 <= i < |rules| && rules[i].native == n) <==> kind.AddDrop?)
  {
    var n := p.op.id;
    forall i: nat | i < |rules|
      ensures rules[i].native in h.Visible()
      ensures rules[i].native == n ==> rules[i] == Rule(n, n in h.runtime, n in h.permanent, h.Conflicting(n))
    {
      ReportedAt(h, rules, i);
    }
    forall m | m in h.Visible() ensures exists i :: 0 <= i < |rules| && rules[i].native == m {
      var i := ReportedSomewhere(h, rules, m);
    }
  }

  /** Inspects the host and looks for the announced state. */
  method CheckAnnounced(p: Pending, h: Host) returns (ok: bool)
    requires WellFormed(p.op)
    ensures ok <==> Announced(p, h)
  {
    var rules := Inspect(h);
    if p.op.kind.EditExternal? {
      ok := ScanEdit(rules, p.op.id, p.op.dest);
      ScanEditExact(h, rules, p);
    } else {
      ok := ScanChange(rules, p.op.id, p.op.kind);
      ScanChangeExact(h, rules, p);
    }
  }

  // ----- The control handler's count of governing rules -----

  predicate Governed(m: Native, n: Native)
    requires !n.UfwPort? && !n.OpenRange?
  {
    m.ContainsPort(n.port) && m.protocol == n.protocol
  }

  /** Counts the rules that govern the port; none, if one of them is in another
      zone or conflicts. */
  method ScanControl(rules: seq<Rule>, n: Native) returns (clear: bool, matching: nat, target: Option<Rule>)
    requires !n.UfwPort? && !n.OpenRange?
    ensures clear <==> forall i :: 0 <= i < |rules| && Governed(rules[i].native, n) ==>
                         rules[i].native.Zone() == n.zone && !rules[i].conflict
    ensures clear ==> matching == |Matches(rules, n)|
    ensures clear && target.Some? ==> target.value in rules && target.value.native == n
    ensures clear && target.None? ==> forall i :: 0 <= i < |rules| && Governed(rules[i].native, n) ==> rules[i].native != n
  {
    clear, matching, target := true, 0, None;
    for i := 0 to |rules|
      invariant clear && matching == |Matches(rules[..i], n)|
      invariant forall k :: 0 <= k < i && Governed(rules[k].native, n) ==>
                  rules[k].native.Zone() == n.zone && !rules[k].conflict
      invariant target.Some? ==> target.value in rules && target.value.native == n
      invariant target.None? ==> forall k :: 0 <= k < i && Governed(rules[k].native, n) ==> rules[k].native != n
    {
      assert rules[..i + 1][..i] == rules[..i];
      var r := rules[i];
      if Governed(r.native, n) {
        if r.native.Zone() != n.zone {
          return false, matching, target;
        }
        matching := matching + 1;
        if r.native == n {
          target := Some(r);
        }
        if r.conflict {
          return false, matching, target;
        }
      }
    }
    assert rules[..|rules|] == rules;
  }

  function Matches(rules: seq<Rule>, n: Native): seq<Native>
    requires !n.UfwPort? && !n.OpenRange?
  {
    if rules == [] then []
    else
      var last := rules[|rules| - 1].native;
      Matches(rules[..|rules| - 1], n) + if Governed(last, n) then [last] else []
  }

  predicate Lists(rules: seq<Rule>, m: Native) {
    exists i :: 0 <= i < |rules| && rules[i].native == m
  }

  lemma ListsOneMore(rules: seq<Rule>, m: Native)
    requires rules != []
    ensures Lists(rules, m) <==> m == rules[|rules| - 1].native || Lists(rules[..|rules| - 1], m)
  {
    var rest := rules[..|rules| - 1];
    if Lists(rest, m) {
      var i :| 0 <= i < |rest| && rest[i].native == m;
      assert rules[i].native == m;
    }
    if i :| 0 <= i < |rest| && rules[i].native == m {
      assert rest[i].native == m;
    }
  }

  lemma {:induction false} MatchesAreThose(rules: seq<Rule>, n: Native)
    requires !n.UfwPort? && !n.OpenRange?
    requires forall i, j :: 0 <= i < j < |rules| ==> rules[i].native != rules[j].native
    ensures forall m :: m in Matches(rules, n) <==> Governed(m, n) && Lists(rules, m)
    ensures forall i, j :: 0 <= i < j < |Matches(rules, n)| ==> Matches(rules, n)[i] != Matches(rules, n)[j]
    decreases |rules|
  {
    if rules != [] {
      var rest, last := rules[..|rules| - 1], rules[|rules| - 1].native;
      assert forall i :: 0 <= i < |rest| ==> rest[i] == rules[i];
      MatchesAreThose(rest, n);
      forall m ensures m in Matches(rules, n) <==> Governed(m, n) && Lists(rules, m) {
        ListsOneMore(rules, m);
      }
      assert !Lists(rest, last);
    }
  }

  lemma {:induction false} DistinctCount(s: seq<Native>, t: set<Native>)
    requires forall m :: m in s <==> m in t
    requires forall i, j :: 0 <= i < j < |s| ==> s[i] != s[j]
    ensures |s| == |t|
  {
    if s == [] {
      assert t == {};
    } else {
      var last := s[|s| - 1];
      assert s == s[..|s| - 1] + [last];
      DistinctCount(s[..|s| - 1], t - {last});
    }
  }

  // The count is the number of rules that govern the port.
  lemma MatchesCount(h: Host, rules: seq<Rule>, n: Native)
    requires Reports(h, rules) && !n.UfwPort? && !n.OpenRange?
    ensures forall m :: m in Matches(rules, n) <==> m in h.Governing(n.port, n.protocol)
    ensures |Matches(rules, n)| == |h.Governing(n.port, n.protocol)|
  {
    assert forall i, j :: 0 <= i < j < |rules| ==> Natives(rules)[i] != Natives(rules)[j];
    MatchesAreThose(rules, n);
    forall m ensures m in Matches(rules, n) <==> m in h.Governing(n.port, n.protocol) {
      ReportedIsVisible(h, rules, m);
    }
    DistinctCount(Matches(rules, n), h.Governing(n.port, n.protocol));
  }

  lemma ClearIsUnmixed(h: Host, rules: seq<Rule>, n: Native)
    requires Reports(h, rules) && !n.UfwPort? && !n.OpenRange?
    ensures (forall i :: 0 <= i < |rules| && Governed(rules[i].native, n) ==>
               rules[i].native.Zone() == n.zone && !rules[i].conflict) <==>
            (forall m :: m in h.Governing(n.port, n.protocol) ==> m.Zone() == n.zone && !h.Conflicting(m))
  {
    forall i: nat | i < |rules| ensures rules[i].native in h.Visible() && rules[i].conflict == h.Conflicting(rules[i].native) {
      ReportedAt(h, rules, i);
    }
    forall m | m in h.Visible() ensures exists i :: 0 <= i < |rules| && rules[i].native == m {
      var i := ReportedSomewhere(h, rules, m);
    }
  }

  // What the scan tells the control handler about the host.
  datatype Found = Mixed | Nobody | Alone(runtime: bool, permanent: bool) | Another | Several

  ghost predicate Finds(h: Host, n: Native, f: Found)
    requires !n.UfwPort? && !n.OpenRange?
  {
    var governing := h.Governing(n.port, n.protocol);
    match f
    case Mixed => exists m :: m in governing && (m.Zone() != n.zone || h.Conflicting(m))
    case Nobody => governing == {}
    case Alone(runtime, permanent) => governing == {n} && runtime == (n in h.runtime) && permanent == (n in h.permanent)
    case Another => |governing| == 1 && n !in governing
    case Several => |governing| > 1
  }

  ghost predicate Unmixed(h: Host, n: Native)
    requires !n.UfwPort? && !n.OpenRange?
  {
    forall m :: m in h.Governing(n.port, n.protocol) ==> m.Zone() == n.zone && !h.Conflicting(m)
  }

  method FindGoverning(h: Host, n: Native) returns (f: Found)
    requires !n.UfwPort? && !n.OpenRange? && n.port > 0
    ensures f.Mixed? <==> !Unmixed(h, n)
    ensures Finds(h, n, f)
  {
    var rules := Inspect(h);
    var clear, matching, target := ScanControl(rules, n);
    ClearIsUnmixed(h, rules, n);
    MatchesCount(h, rules, n);
    var governing := h.Governing(n.port, n.protocol);
    if !clear {
      return Mixed;
    }
    if matching == 0 {
      return Nobody;
    }
    if matching > 1 {
      return Several;
    }
    OneElement(governing);
    if target.Some? {
      var r := target.value;
      ghost var i :| 0 <= i < |rules| && rules[i] == r;
      ReportedAt(h, rules, i);
      assert n in governing;
      return Alone(r.runtime, r.permanent);
    }
    TargetMissing(h, rules, n);
    return Another;
  }

  lemma OneElement(s: set<Native>)
    requires |s| == 1
    ensures forall m :: m in s ==> s == {m}
  {
    forall m | m in s ensures s == {m} {
      assert |s - {m}| == 0;
    }
  }

  lemma TargetMissing(h: Host, rules: seq<Rule>, n: Native)
    requires Reports(h, rules) && !n.UfwPort? && !n.OpenRange?
    requires forall i :: 0 <= i < |rules| && Governed(rules[i].native, n) ==> rules[i].native != n
    ensures n !in h.Governing(n.port, n.protocol)
  {
    ReportedIsVisible(h, rules, n);
  }

  // ----- The edit handler's checks -----

  predicate BlocksEdit(m: Native, n: Native, d: Native)
    requires d.OpenPort?
  {
    m != n && (SameSocket(m, n) || (m.ContainsPort(d.port) && m.protocol == d.protocol))
  }

  // What the edit handler asks of the host.
  ghost predicate Editable(h: Host, n: Native, d: Native)
    requires d.OpenPort?
  {
    && n in h.Visible() && h.Everywhere(n) && !h.Conflicting(n)
    && forall m :: m in h.Visible() ==> !BlocksEdit(m, n, d)
  }

  /** Finds the source rule, then looks for any rule in the way. */
  method CheckEditable(h: Host, n: Native, d: Native) returns (ok: bool)
    requires n.OpenPort? && d.OpenPort?
    ensures ok <==> Editable(h, n, d)
  {
    var rules := Inspect(h);
    var source: Option<Rule> := None;
    for i := 0 to |rules|
      invariant source.None? ==> forall k :: 0 <= k < i ==> rules[k].native != n
      invariant source.Some? ==> source.value in rules && source.value.native == n
    {
      if source.None? && rules[i].native == n {
        source := Some(rules[i]);
      }
    }
    ReportedIsVisible(h, rules, n);
    if source.None? {
      return false;
    }
    ghost var at :| 0 <= at < |rules| && rules[at] == source.value;
    ReportedAt(h, rules, at);
    if !InPlace(source.value) {
      return false;
    }
    ok := NothingInTheWay(h, rules, n, d);
  }

  method NothingInTheWay(h: Host, rules: seq<Rule>, n: Native, d: Native) returns (ok: bool)
    requires Reports(h, rules) && d.OpenPort?
    ensures ok <==> forall m :: m in h.Visible() ==> !BlocksEdit(m, n, d)
  {
    for i := 0 to |rules|
      invariant forall k :: 0 <= k < i ==> !BlocksEdit(rules[k].native, n, d)
    {
      ReportedAt(h, rules, i);
      if BlocksEdit(rules[i].native, n, d) {
        return false;
      }
    }
    forall m | m in h.Visible() ensures !BlocksEdit(m, n, d) {
      var i := ReportedSomewhere(h, rules, m);
    }
    return true;
  }

  /** After an edit: the source is gone and the destination is in place. */
  method CheckLanded(h: Host, op: Op) returns (ok: bool)
    requires op.dest.OpenPort?
    ensures ok <==> EditLanded(h, op)
  {
    var rules := Inspect(h);
    var oldExists, newFound := false, false;
    for i := 0 to |rules|
      invariant oldExists <==> exists k :: 0 <= k < i && rules[k].native == op.id
      invariant newFound <==> exists k :: 0 <= k < i && rules[k].native == op.dest && InPlace(rules[k])
    {
      if rules[i].native == op.id {
        oldExists := true;
      }
      if rules[i].native == op.dest && InPlace(rules[i]) {
        newFound := true;
      }
    }
    LandedExact(h, rules, op);
    return !oldExists && newFound;
  }

  lemma LandedExact(h: Host, rules: seq<Rule>, op: Op)
    requires Reports(h, rules) && op.dest.OpenPort?
    ensures (exists k :: 0 <= k < |rules| && rules[k].native == op.id) <==> op.id in h.Visible()
    ensures (exists k :: 0 <= k < |rules| && rules[k].native == op.dest && InPlace(rules[k])) <==>
            op.dest in h.Visible() && h.Everywhere(op.dest) && !h.Conflicting(op.dest)
  {
    ReportedIsVisible(h, rules, op.id);
    ReportedIsVisible(h, rules, op.dest);
    forall k: nat | k < |rules| && rules[k].native == op.dest
      ensures InPlace(rules[k]) <==> h.Everywhere(op.dest) && !h.Conflicting(op.dest)
    {
      ReportedAt(h, rules, k);
    }
  }

  // ----- The helper's check before a change -----

  /** The helper inspects again and refuses a change it does not recognise. */
  method CheckAdmitted(h: Host, c: Change) returns (ok: bool)
    requires Valid(c.rule) && (c.rule.OpenPort? || IsDrop(c.rule))
    ensures ok <==> Admits(h, c)
  {
    var n := c.rule;
    if n.zone in h.opaqueZones || n.zone !in h.zones {
      return false;
    }
    var rules := Inspect(h);
    if n.OpenPort? {
      ok := AllowGuard(rules, c.add, n.port, n.protocol, n.zone);
      AllowGuardExact(h, rules, c.add, n);
    } else {
      ok := DropGuard(rules, c.add, n.port, n.protocol, n.zone);
      DropGuardExact(h, rules, c.add, n);
    }
  }
}
