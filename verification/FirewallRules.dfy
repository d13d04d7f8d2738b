/**
 The inventory of native firewall rules, and the interval sweep that marks
 rules whose policies overlap.

 A `Native` is one line of the host firewall as the inspector recognises it.
 A `Rule` is what an inspection reports about it.
 */
module FirewallRules {

  datatype Protocol = Tcp | Udp
  datatype Action = Allow | Deny | Reject
  datatype Coverage = Both | OnlyIPv4 | OnlyIPv6
  datatype Family = IPv4 | IPv6

  datatype Native =
    | OpenPort(zone: string, port: nat, protocol: Protocol)
    | OpenRange(zone: string, first: nat, last: nat, protocol: Protocol)
    | RichPort(zone: string, port: nat, protocol: Protocol, action: Action, coverage: Coverage)
    | UfwPort(port: nat, protocol: Protocol, coverage: Coverage)
  {
    predicate IsRange() {
      OpenRange? && 0 < first <= last
    }

    function Port(): nat {
      if OpenRange? then 0 else port
    }

    function FirstPort(): nat {
      if IsRange() then first else Port()
    }

    function LastPort(): nat {
      if IsRange() then last else Port()
    }

    // The secondary sort key; it is zero for a single port.
    function RangeEnd(): nat {
      if OpenRange? then last else 0
    }

    predicate ContainsPort(p: nat) {
      FirstPort() <= p <= LastPort()
    }

    function Zone(): string {
      if UfwPort? then "" else zone
    }

    function PolicyAction(): Action {
      if RichPort? then action else Allow
    }

    function PolicyCoverage(): Coverage {
      if RichPort? || UfwPort? then coverage else Both
    }

    predicate InFamily(f: Family) {
      match PolicyCoverage()
      case Both => true
      case OnlyIPv4 => f == IPv4
      case OnlyIPv6 => f == IPv6
    }
  }

  /** One entry of an inspection. */
  datatype Rule = Rule(native: Native, runtime: bool, permanent: bool, conflict: bool)

  // ----- The pairwise definition of an overlap -----

  predicate Intersects(a: Native, b: Native) {
    a.FirstPort() <= b.LastPort() && b.FirstPort() <= a.LastPort()
  }

  predicate SameTable(a: Native, b: Native) {
    a.UfwPort? == b.UfwPort? && a.Zone() == b.Zone() && a.protocol == b.protocol
  }

  predicate SharesFamily(a: Native, b: Native) {
    exists f :: a.InFamily(f) && b.InFamily(f)
  }

  predicate Overlap(a: Native, b: Native) {
    SameTable(a, b) && SharesFamily(a, b) && Intersects(a, b)
  }

  // Some rule other than the i-th overlaps the i-th.
  predicate OverlapsAnother(natives: seq<Native>, i: nat)
    requires i < |natives|
  {
    exists j :: 0 <= j < |natives| && j != i && Overlap(natives[i], natives[j])
  }

  function Natives(rules: seq<Rule>): (natives: seq<Native>)
    ensures |natives| == |rules|
    ensures forall i :: 0 <= i < |rules| ==> natives[i] == rules[i].native
  {
    seq(|rules|, i requires 0 <= i < |rules| => rules[i].native)
  }

  // ----- Sorting one group -----

  predicate Before(a: Native, b: Native) {
    a.FirstPort() < b.FirstPort() || (a.FirstPort() == b.FirstPort() && a.RangeEnd() <= b.RangeEnd())
  }

  predicate InRange(indices: seq<nat>, n: nat) {
    forall k :: 0 <= k < |indices| ==> indices[k] < n
  }

  predicate ValidIndices(indices: seq<nat>, n: nat) {
    InRange(indices, n) && forall k, l :: 0 <= k < l < |indices| ==> indices[k] != indices[l]
  }

  predicate SortedBy(natives: seq<Native>, indices: seq<nat>)
    requires ValidIndices(indices, |natives|)
  {
    forall k, l :: 0 <= k < l < |indices| ==> Before(natives[indices[k]], natives[indices[l]])
  }

  /** Any ordering by first port and then range end will do; ties are free. */
  method SortIndices(natives: seq<Native>, indices: seq<nat>) returns (sorted: seq<nat>)
    requires ValidIndices(indices, |natives|)
    ensures ValidIndices(sorted, |natives|) && SortedBy(natives, sorted)
    ensures forall i :: i in sorted <==> i in indices
  {
    sorted := [];
    for n := 0 to |indices|
      invariant ValidIndices(sorted, |natives|) && SortedBy(natives, sorted)
      invariant forall i :: i in sorted <==> i in indices[..n]
    {
      sorted := Insert(natives, sorted, indices[n]);
    }
  }

  method Insert(natives: seq<Native>, sorted: seq<nat>, x: nat) returns (longer: seq<nat>)
    requires ValidIndices(sorted, |natives|) && SortedBy(natives, sorted)
    requires x < |natives| && x !in sorted
    ensures ValidIndices(longer, |natives|) && SortedBy(natives, longer)
    ensures forall i :: i in longer <==> i == x || i in sorted
  {
    var at := |sorted|;
    while 0 < at && !Before(natives[sorted[at - 1]], natives[x])
      invariant 0 <= at <= |sorted|
      invariant forall k :: at <= k < |sorted| ==> Before(natives[x], natives[sorted[k]])
    {
      at := at - 1;
    }
    longer := sorted[..at] + [x] + sorted[at..];
    assert forall k :: 0 <= k < at ==> Before(natives[sorted[k]], natives[x]);
    InsertedSorted(natives, sorted, x, at);
    InsertedMembers(sorted, x, at);
  }

  lemma InsertedAt(sorted: seq<nat>, x: nat, at: nat, k: nat)
    requires at <= |sorted| && k <= |sorted|
    ensures (sorted[..at] + [x] + sorted[at..])[k] == if k < at then sorted[k] else if k == at then x else sorted[k - 1]
  {
  }

  lemma InsertedSorted(natives: seq<Native>, sorted: seq<nat>, x: nat, at: nat)
    requires ValidIndices(sorted, |natives|) && SortedBy(natives, sorted) && x < |natives| && x !in sorted && at <= |sorted|
    requires forall k :: 0 <= k < at ==> Before(natives[sorted[k]], natives[x])
    requires forall k :: at <= k < |sorted| ==> Before(natives[x], natives[sorted[k]])
    ensures ValidIndices(sorted[..at] + [x] + sorted[at..], |natives|)
    ensures SortedBy(natives, sorted[..at] + [x] + sorted[at..])
  {
    var longer := sorted[..at] + [x] + sorted[at..];
    forall k: nat | k < |longer| ensures longer[k] < |natives| {
      InsertedAt(sorted, x, at, k);
    }
    forall k: nat, l: nat | k < l < |longer|
      ensures longer[k] != longer[l] && Before(natives[longer[k]], natives[longer[l]])
    {
      InsertedAt(sorted, x, at, k);
      InsertedAt(sorted, x, at, l);
    }
  }

  lemma InsertedMembers(sorted: seq<nat>, x: nat, at: nat)
    requires at <= |sorted|
    ensures forall i :: i in sorted[..at] + [x] + sorted[at..] <==> i == x || i in sorted
  {
    assert sorted == sorted[..at] + sorted[at..];
  }

  // ----- The sweep over one sorted group -----

  // The index i is in the list and meets another member of the list.
  predicate MeetsAnother(natives: seq<Native>, indices: seq<nat>, i: nat)
    requires InRange(indices, |natives|)
  {
    i in indices && exists j :: j in indices && j != i && Intersects(natives[i], natives[j])
  }

  // highest is the member of the list whose interval reaches furthest.
  predicate Highest(natives: seq<Native>, indices: seq<nat>, highest: int)
    requires InRange(indices, |natives|)
  {
    if indices == [] then highest == -1
    else
      highest >= 0 && highest in indices &&
      forall i :: i in indices ==> natives[i].LastPort() <= natives[highest].LastPort()
  }

  // When the next interval in order meets an earlier one, that one has already
  // met a third interval unless it is the one reaching furthest.
  lemma OnlyHighestIsNew(natives: seq<Native>, done: seq<nat>, highest: nat, next: nat, i: nat)
    requires ValidIndices(done + [next], |natives|) && SortedBy(natives, done + [next])
    requires InRange(done, |natives|) && next < |natives|
    requires highest in done && Highest(natives, done, highest)
    requires i in done && i != highest && Intersects(natives[i], natives[next])
    ensures MeetsAnother(natives, done, i)
  {
    var all := done + [next];
    var k :| 0 <= k < |done| && done[k] == i;
    var h :| 0 <= h < |done| && done[h] == highest;
    assert all[k] == i && all[h] == highest && all[|done|] == next;
    assert Before(natives[highest], natives[next]);
    assert Intersects(natives[i], natives[highest]);
  }

  lemma SweepStep(natives: seq<Native>, done: seq<nat>, highest: int, next: nat, i: nat)
    requires ValidIndices(done + [next], |natives|) && SortedBy(natives, done + [next])
    requires InRange(done, |natives|) && next < |natives|
    requires Highest(natives, done, highest)
    ensures MeetsAnother(natives, done + [next], i) <==>
            || MeetsAnother(natives, done, i)
            || (0 <= highest < |natives| && natives[next].FirstPort() <= natives[highest].LastPort() && (i == next || i == highest))
  {
    var all := done + [next];
    assert forall j :: j in all <==> j in done || j == next;
    assert all[|done|] == next;
    forall j | j in done ensures j != next && natives[j].FirstPort() <= natives[next].FirstPort() {
      var k :| 0 <= k < |done| && done[k] == j;
      assert all[k] == j;
      assert Before(natives[all[k]], natives[all[|done|]]);
    }
    if i in done && i != highest && Intersects(natives[i], natives[next]) {
      OnlyHighestIsNew(natives, done, highest, next, i);
    }
  }

  // After n rules of the group, exactly those that met another one are marked.
  ghost predicate Swept(was: seq<Rule>, rules: seq<Rule>, indices: seq<nat>)
    requires |was| == |rules| && InRange(indices, |was|)
  {
    forall i :: 0 <= i < |rules| ==>
      rules[i] == was[i].(conflict := was[i].conflict || MeetsAnother(Natives(was), indices, i))
  }

  lemma SweptKeepsNatives(was: seq<Rule>, rules: seq<Rule>, indices: seq<nat>)
    requires |was| == |rules| && InRange(indices, |was|) && Swept(was, rules, indices)
    ensures Natives(rules) == Natives(was)
  {
  }

  // Marks the next rule and the one reaching furthest, if they meet.
  method SweepOne(rules: array<Rule>, ghost was: seq<Rule>, ghost done: seq<nat>, idx: nat, highestEnd: int, highestIndex: int)
    requires |was| == rules.Length && ValidIndices(done + [idx], rules.Length) && InRange(done, rules.Length) && idx < rules.Length
    requires SortedBy(Natives(was), done + [idx]) && Highest(Natives(was), done, highestIndex)
    requires highestEnd == if highestIndex < 0 then -1 else Natives(was)[highestIndex].LastPort()
    requires Swept(was, rules[..], done)
    modifies rules
    ensures Swept(was, rules[..], done + [idx])
  {
    SweptKeepsNatives(was, rules[..], done);
    ghost var natives, before := Natives(was), rules[..];
    assert rules[idx].native == natives[idx];
    forall i: nat | i < rules.Length
      ensures MeetsAnother(natives, done + [idx], i) <==>
              || MeetsAnother(natives, done, i)
              || (0 <= highestIndex && natives[idx].FirstPort() <= highestEnd && (i == idx || i == highestIndex))
    {
      SweepStep(natives, done, highestIndex, idx, i);
    }
    if rules[idx].native.FirstPort() <= highestEnd {
      rules[idx] := rules[idx].(conflict := true);
      rules[highestIndex] := rules[highestIndex].(conflict := true);
      assert rules[..] == before[idx := before[idx].(conflict := true)][highestIndex := before[highestIndex].(conflict := true)];
    }
  }

  method SweepGroup(rules: array<Rule>, indices: seq<nat>)
    requires ValidIndices(indices, rules.Length)
    requires SortedBy(Natives(rules[..]), indices)
    modifies rules
    ensures Swept(old(rules[..]), rules[..], indices)
  {
    ghost var was := rules[..];
    var highestEnd: int, highestIndex: int := -1, -1;
    for n := 0 to |indices|
      invariant Highest(Natives(was), indices[..n], highestIndex)
      invariant highestEnd == if highestIndex < 0 then -1 else Natives(was)[highestIndex].LastPort()
      invariant Swept(was, rules[..], indices[..n])
    {
      var idx := indices[n];
      assert indices[..n] + [idx] == indices[..n + 1];
      SweptKeepsNatives(was, rules[..], indices[..n]);
      assert rules[..][idx].native == Natives(was)[idx];
      var end := rules[idx].native.LastPort();
      SweepOne(rules, was, indices[..n], idx, highestEnd, highestIndex);
      if end > highestEnd {
        highestEnd, highestIndex := end, idx;
      }
    }
    assert indices[..|indices|] == indices;
  }

  // ----- Grouping -----

  datatype GroupKey = GroupKey(ufw: bool, zone: string, protocol: Protocol, family: Family)

  predicate InGroup(n: Native, key: GroupKey) {
    n.UfwPort? == key.ufw && n.Zone() == key.zone && n.protocol == key.protocol && n.InFamily(key.family)
  }

  // Every group lists exactly the members of its key among the first n rules;
  // the n-th rule is already in the groups named by extra.
  ghost predicate GroupedWith(natives: seq<Native>, groups: map<GroupKey, seq<nat>>, n: nat, extra: set<GroupKey>)
    requires n <= |natives|
  {
    && (forall key :: key in groups ==> ValidIndices(groups[key], |natives|))
    && (forall key, i :: key in groups && i in groups[key] ==> i < n || (i == n && key in extra))
    && (forall key, i :: key in groups && i in groups[key] && i < |natives| ==> InGroup(natives[i], key))
    && (forall key, i :: 0 <= i < |natives| && InGroup(natives[i], key) && (i < n || (i == n && key in extra)) ==>
          key in groups && i in groups[key])
  }

  ghost predicate Grouped(natives: seq<Native>, groups: map<GroupKey, seq<nat>>, n: nat)
    requires n <= |natives|
  {
    GroupedWith(natives, groups, n, {})
  }

  function Join(groups: map<GroupKey, seq<nat>>, key: GroupKey, i: nat): map<GroupKey, seq<nat>> {
    groups[key := (if key in groups then groups[key] else []) + [i]]
  }

  // Joining puts one more index into one group.
  lemma JoinMembers(groups: map<GroupKey, seq<nat>>, key: GroupKey, n: nat)
    ensures forall k, i :: k in Join(groups, key, n) && i in Join(groups, key, n)[k] <==>
              (k in groups && i in groups[k]) || (k == key && i == n)
  {
    var before := if key in groups then groups[key] else [];
    assert Join(groups, key, n)[key] == before + [n];
    assert forall i :: i in before + [n] <==> i in before || i == n;
  }

  lemma JoinValid(groups: map<GroupKey, seq<nat>>, key: GroupKey, n: nat, size: nat)
    requires n < size && (forall k :: k in groups ==> ValidIndices(groups[k], size)) && (key in groups ==> n !in groups[key])
    ensures forall k :: k in Join(groups, key, n) ==> ValidIndices(Join(groups, key, n)[k], size)
  {
    if key in groups {
      forall k | 0 <= k < |groups[key]| ensures groups[key][k] != n {
        assert groups[key][k] in groups[key];
      }
    }
  }

  lemma JoinKeepsGrouped(natives: seq<Native>, groups: map<GroupKey, seq<nat>>, n: nat, extra: set<GroupKey>, key: GroupKey)
    requires n < |natives| && GroupedWith(natives, groups, n, extra)
    requires key !in extra && InGroup(natives[n], key)
    ensures GroupedWith(natives, Join(groups, key, n), n, extra + {key})
  {
    JoinMembers(groups, key, n);
    JoinValid(groups, key, n, |natives|);
  }

  lemma AllKeysJoined(natives: seq<Native>, groups: map<GroupKey, seq<nat>>, n: nat, extra: set<GroupKey>)
    requires n < |natives| && GroupedWith(natives, groups, n, extra)
    requires forall key :: InGroup(natives[n], key) ==> key in extra
    ensures Grouped(natives, groups, n + 1)
  {
  }

  // A rule belongs to the group of each family it covers and to no other.
  lemma KeysOf(n: Native, key: GroupKey)
    requires InGroup(n, key)
    ensures key == GroupKey(n.UfwPort?, n.Zone(), n.protocol, IPv4) || key == GroupKey(n.UfwPort?, n.Zone(), n.protocol, IPv6)
  {
    match key
    case GroupKey(_, _, _, family) =>
      match family {
        case IPv4 =>
        case IPv6 =>
      }
  }

  method GroupByTable(natives: seq<Native>) returns (groups: map<GroupKey, seq<nat>>)
    ensures Grouped(natives, groups, |natives|)
  {
    groups := map[];
    for i := 0 to |natives|
      invariant Grouped(natives, groups, i)
    {
      var r := natives[i];
      var v4 := GroupKey(r.UfwPort?, r.Zone(), r.protocol, IPv4);
      var v6 := v4.(family := IPv6);
      ghost var extra := {};
      if r.PolicyCoverage() != OnlyIPv6 {
        JoinKeepsGrouped(natives, groups, i, extra, v4);
        groups, extra := Join(groups, v4, i), extra + {v4};
      }
      if r.PolicyCoverage() != OnlyIPv4 {
        JoinKeepsGrouped(natives, groups, i, extra, v6);
        groups, extra := Join(groups, v6, i), extra + {v6};
      }
      forall key | InGroup(r, key) ensures key in extra {
        KeysOf(r, key);
      }
      AllKeysJoined(natives, groups, i, extra);
    }
  }

  // ----- The whole sweep -----

  ghost predicate MarkedBy(natives: seq<Native>, groups: map<GroupKey, seq<nat>>, keys: set<GroupKey>, i: nat)
    requires forall key :: key in groups ==> ValidIndices(groups[key], |natives|)
  {
    exists key :: key in keys && key in groups && InRange(groups[key], |natives|) && MeetsAnother(natives, groups[key], i)
  }

  // Meeting a member of one's own groups is the pairwise definition.
  lemma MarkedIsOverlap(natives: seq<Native>, groups: map<GroupKey, seq<nat>>, i: nat)
    requires Grouped(natives, groups, |natives|) && i < |natives|
    ensures MarkedBy(natives, groups, groups.Keys, i) <==> OverlapsAnother(natives, i)
  {
    if OverlapsAnother(natives, i) {
      var j :| 0 <= j < |natives| && j != i && Overlap(natives[i], natives[j]);
      var f :| natives[i].InFamily(f) && natives[j].InFamily(f);
      var key := GroupKey(natives[i].UfwPort?, natives[i].Zone(), natives[i].protocol, f);
      assert InGroup(natives[i], key) && InGroup(natives[j], key);
      assert key in groups.Keys && MeetsAnother(natives, groups[key], i);
    }
    if MarkedBy(natives, groups, groups.Keys, i) {
      var key :| key in groups && MeetsAnother(natives, groups[key], i);
      var j :| j in groups[key] && j != i && Intersects(natives[i], natives[j]);
      assert natives[i].InFamily(key.family) && natives[j].InFamily(key.family);
      assert Overlap(natives[i], natives[j]);
    }
  }

  /** Marks exactly the rules that overlap another rule, whatever the map
      order and however ties are sorted. */
  method MarkRuleConflicts(rules: array<Rule>)
    modifies rules
    ensures forall i :: 0 <= i < rules.Length ==>
              rules[i] == old(rules[i]).(conflict :=
                old(rules[i]).conflict || OverlapsAnother(old(Natives(rules[..])), i))
  {
    ghost var natives := Natives(rules[..]);
    var groups := GroupByTable(Natives(rules[..]));
    var left := groups.Keys;
    while left != {}
      invariant left <= groups.Keys
      invariant Natives(rules[..]) == natives
      invariant forall i :: 0 <= i < rules.Length ==>
                  rules[i] == old(rules[i]).(conflict :=
                    old(rules[i]).conflict || MarkedBy(natives, groups, groups.Keys - left, i))
      decreases left
    {
      var key :| key in left;
      var sorted := SortIndices(Natives(rules[..]), groups[key]);
      assert forall i: nat | i < rules.Length ::
          MeetsAnother(natives, sorted, i) <==> MeetsAnother(natives, groups[key], i);
      SweepGroup(rules, sorted);
      assert forall i: nat | i < rules.Length ::
          MarkedBy(natives, groups, groups.Keys - (left - {key}), i) <==>
          MarkedBy(natives, groups, groups.Keys - left, i) || MeetsAnother(natives, groups[key], i);
      left := left - {key};
    }
    forall i: nat | i < rules.Length
      ensures MarkedBy(natives, groups, groups.Keys - left, i) <==> OverlapsAnother(natives, i)
    {
      assert groups.Keys - left == groups.Keys;
      MarkedIsOverlap(natives, groups, i);
    }
  }
}
