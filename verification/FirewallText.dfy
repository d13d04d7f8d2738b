/**
 How native rules are written and recognised: port specifications, the
 simple rich-rule line, and the identifiers under which settings are kept.
 */
module FirewallText {
  import opened Common
  import opened Text
  import opened FirewallRules

  // ----- Validity -----

  predicate IsAlphanumeric(c: char) {
    'a' <= c <= 'z' || 'A' <= c <= 'Z' || '0' <= c <= '9'
  }

  predicate ValidZone(zone: string) {
    && 1 <= |zone| <= 64
    && IsAlphanumeric(zone[0])
    && forall i :: 0 < i < |zone| ==> IsAlphanumeric(zone[i]) || zone[i] in "_.-"
  }

  predicate ValidPort(port: int) {
    1 <= port <= 65535
  }

  predicate Valid(n: Native) {
    match n
    case OpenPort(zone, port, _) => ValidZone(zone) && ValidPort(port)
    case OpenRange(zone, first, last, _) => ValidZone(zone) && ValidPort(first) && ValidPort(last) && first < last
    case RichPort(zone, port, _, _, _) => ValidZone(zone) && ValidPort(port)
    case UfwPort(port, _, _) => ValidPort(port)
  }

  lemma ZoneLacksColon(zone: string)
    requires ValidZone(zone)
    ensures Lacks(zone, ':')
  {
    forall i | 0 <= i < |zone| ensures zone[i] != ':' {
      if i > 0 {
        assert IsAlphanumeric(zone[i]) || zone[i] in "_.-";
      }
    }
  }

  // ----- Ports -----

  function ProtocolText(p: Protocol): string {
    match p
    case Tcp => "tcp"
    case Udp => "udp"
  }

  function ParseProtocol(s: string): (p: Option<Protocol>)
    ensures forall q :: p == Some(q) <==> s == ProtocolText(q)
  {
    if s == "tcp" then Some(Tcp) else if s == "udp" then Some(Udp) else None
  }

  function PortText(port: nat, protocol: Protocol): string {
    Decimal(port) + ['/'] + ProtocolText(protocol)
  }

  function RangeText(first: nat, last: nat, protocol: Protocol): string {
    Decimal(first) + ['-'] + PortText(last, protocol)
  }

  // One to five digits with no leading zero, naming a port up to 65535.
  function ParseNumber(s: string): (n: Option<nat>)
    ensures n.Some? ==> ValidPort(n.value) && Decimal(n.value) == s
  {
    if AllDigits(s) && 1 <= |s| <= 5 && s[0] != '0' then
      DecimalOfValue(s);
      if Value(s) <= 65535 then Some(Value(s)) else None
    else
      None
  }

  function Pow10(k: nat): nat {
    if k == 0 then 1 else 10 * Pow10(k - 1)
  }

  lemma {:induction false} DecimalLength(n: nat, k: nat)
    requires k > 0 && n < Pow10(k)
    ensures |Decimal(n)| <= k
  {
    if n >= 10 {
      assert k > 1 && n / 10 < Pow10(k - 1);
      DecimalLength(n / 10, k - 1);
    }
  }

  lemma ParsePrintedNumber(n: nat)
    requires ValidPort(n)
    ensures ParseNumber(Decimal(n)) == Some(n)
  {
    ValueOfDecimal(n);
    assert Pow10(2) == 100;
    assert Pow10(5) == 1000 * Pow10(2);
    DecimalLength(n, 5);
  }

  function ParsePort(s: string): (r: Option<(nat, Protocol)>)
  {
    var i := Find(s, '/');
    if i == |s| then None
    else
      match (ParseNumber(s[..i]), ParseProtocol(s[i + 1..]))
      case (Some(n), Some(p)) => Some((n, p))
      case _ => None
  }

  // A specification is accepted exactly when it is the printed form of a valid port.
  lemma ParsePortExact(s: string, port: nat, protocol: Protocol)
    ensures ParsePort(s) == Some((port, protocol)) <==> ValidPort(port) && s == PortText(port, protocol)
  {
    if ParsePort(s) == Some((port, protocol)) {
      SplitAt(s, Find(s, '/'));
    }
    if ValidPort(port) && s == PortText(port, protocol) {
      var digits, rest := Decimal(port), ProtocolText(protocol);
      FindDelimiter(digits, '/', rest);
      assert s[..|digits|] == digits && s[|digits| + 1..] == rest;
      ParsePrintedNumber(port);
    }
  }

  datatype PortSpec = Single(port: nat, protocol: Protocol) | Range(first: nat, last: nat, protocol: Protocol)

  predicate ValidSpec(spec: PortSpec) {
    match spec
    case Single(port, _) => ValidPort(port)
    case Range(first, last, _) => ValidPort(first) && ValidPort(last) && first < last
  }

  function SpecText(spec: PortSpec): string {
    match spec
    case Single(port, protocol) => PortText(port, protocol)
    case Range(first, last, protocol) => RangeText(first, last, protocol)
  }

  function ParsePortSpec(s: string): Option<PortSpec> {
    match ParsePort(s)
    case Some((port, protocol)) => Some(Single(port, protocol))
    case None =>
      var i := Find(s, '-');
      if i == |s| then None
      else
        match (ParseNumber(s[..i]), ParsePort(s[i + 1..]))
        case (Some(first), Some((last, protocol))) =>
          if first < last then Some(Range(first, last, protocol)) else None
        case _ => None
  }

  lemma PortTextLacks(port: nat, protocol: Protocol, c: char)
    requires c == ':' || c == '-'
    ensures Lacks(PortText(port, protocol), c)
  {
  }

  lemma RangeTextHasDash(first: nat, last: nat, protocol: Protocol)
    ensures !Lacks(RangeText(first, last, protocol), '-')
  {
    assert RangeText(first, last, protocol)[|Decimal(first)|] == '-';
  }

  lemma RangeIsNotPort(first: nat, last: nat, protocol: Protocol)
    ensures ParsePort(RangeText(first, last, protocol)).None?
  {
    var s := RangeText(first, last, protocol);
    RangeTextHasDash(first, last, protocol);
    match ParsePort(s) {
      case None =>
      case Some((port, p)) =>
        ParsePortExact(s, port, p);
        PortTextLacks(port, p, '-');
    }
  }

  lemma ParsePortSpecExact(s: string, spec: PortSpec)
    ensures ParsePortSpec(s) == Some(spec) <==> ValidSpec(spec) && s == SpecText(spec)
  {
    match spec {
      case Single(port, protocol) =>
        ParsePortExact(s, port, protocol);
      case Range(first, last, protocol) =>
        ParseRangeExact(s, first, last, protocol);
    }
  }

  lemma ParseRangeExact(s: string, first: nat, last: nat, protocol: Protocol)
    ensures ParsePortSpec(s) == Some(Range(first, last, protocol)) <==>
            ValidSpec(Range(first, last, protocol)) && s == RangeText(first, last, protocol)
  {
    if ParsePortSpec(s) == Some(Range(first, last, protocol)) {
      ParsedRangeIsPrinted(s, first, last, protocol);
    }
    if ValidSpec(Range(first, last, protocol)) && s == RangeText(first, last, protocol) {
      ParsePrintedRange(first, last, protocol);
    }
  }

  lemma ParsedRangeIsPrinted(s: string, first: nat, last: nat, protocol: Protocol)
    requires ParsePortSpec(s) == Some(Range(first, last, protocol))
    ensures ValidSpec(Range(first, last, protocol)) && s == RangeText(first, last, protocol)
  {
    var i := Find(s, '-');
    SplitAt(s, i);
    ParsePortExact(s[i + 1..], last, protocol);
  }

  lemma ParsePrintedRange(first: nat, last: nat, protocol: Protocol)
    requires ValidSpec(Range(first, last, protocol))
    ensures ParsePortSpec(RangeText(first, last, protocol)) == Some(Range(first, last, protocol))
  {
    RangeIsNotPort(first, last, protocol);
    var digits, rest := Decimal(first), PortText(last, protocol);
    var s := RangeText(first, last, protocol);
    FindDelimiter(digits, '-', rest);
    assert s[..|digits|] == digits && s[|digits| + 1..] == rest;
    ParsePrintedNumber(first);
    ParsePortExact(rest, last, protocol);
  }

  // ----- Simple rich rules -----

  function CoverageText(c: Coverage): string {
    match c
    case Both => ""
    case OnlyIPv4 => " family=\"ipv4\""
    case OnlyIPv6 => " family=\"ipv6\""
  }

  // firewalld's own word for the policy.
  function VerdictText(a: Action): string {
    match a
    case Allow => "accept"
    case Deny => "drop"
    case Reject => "reject"
  }

  function ParseVerdict(s: string): (a: Option<Action>)
    ensures forall b :: a == Some(b) <==> s == VerdictText(b)
  {
    if s == "accept" then Some(Allow) else if s == "drop" then Some(Deny) else if s == "reject" then Some(Reject) else None
  }

  // The fixed words around the port, the protocol and the verdict.
  datatype Syntax = Syntax(port: string, protocol: string, verdict: string)

  const SIMPLE_RICH := Syntax(" port port=\"", "\" protocol=\"", "\" ")

  predicate EndsFields(k: Syntax) {
    1 <= |k.protocol| && k.protocol[0] == '"' && 1 <= |k.verdict| && k.verdict[0] == '"'
  }

  function TailText(k: Syntax, protocol: Protocol, action: Action): string {
    k.protocol + (ProtocolText(protocol) + (k.verdict + VerdictText(action)))
  }

  function PolicyText(k: Syntax, port: nat, protocol: Protocol, action: Action): string {
    k.port + (Decimal(port) + TailText(k, protocol, action))
  }

  function RichText(port: nat, protocol: Protocol, action: Action, coverage: Coverage): string {
    "rule" + (CoverageText(coverage) + PolicyText(SIMPLE_RICH, port, protocol, action))
  }

  // The single argument X-port passes to firewalld for its own drop policy.
  function RichDropText(port: int, protocol: Protocol): Result<string, string> {
    if !ValidPort(port) then Err("invalid port/protocol")
    else Ok("rule port port=\"" + (Decimal(port) + ("\" protocol=\"" + (ProtocolText(protocol) + "\" drop"))))
  }

  // The characters Unicode counts as white space.
  predicate IsSpace(c: char) {
    var code := c as int;
    || 0x9 <= code <= 0xD || code == 0x20 || code == 0x85 || code == 0xA0 || code == 0x1680
    || 0x2000 <= code <= 0x200A || code == 0x2028 || code == 0x2029 || code == 0x202F || code == 0x205F || code == 0x3000
  }

  function TrimLeft(s: string): string {
    if s != "" && IsSpace(s[0]) then TrimLeft(s[1..]) else s
  }

  function TrimRight(s: string): string {
    if s != "" && IsSpace(s[|s| - 1]) then TrimRight(s[..|s| - 1]) else s
  }

  function Trim(s: string): string {
    TrimRight(TrimLeft(s))
  }

  function ParseCoverage(s: string): (Coverage, string) {
    match Strip(CoverageText(OnlyIPv4), s)
    case Some(rest) => (OnlyIPv4, rest)
    case None =>
      match Strip(CoverageText(OnlyIPv6), s)
      case Some(rest) => (OnlyIPv6, rest)
      case None => (Both, s)
  }

  // The words lead, then the text up to the next quotation mark; the mark and
  // what follows it is left.
  function ParseField(lead: string, s: string): Option<(string, string)> {
    match Strip(lead, s)
    case None => None
    case Some(t) => var i := Find(t, '"'); Some((t[..i], t[i..]))
  }

  function ParseTail(k: Syntax, s: string): Option<(Protocol, Action)> {
    match ParseField(k.protocol, s)
    case None => None
    case Some((name, u)) =>
      match Strip(k.verdict, u)
      case None => None
      case Some(verdict) =>
        match (ParseProtocol(name), ParseVerdict(verdict))
        case (Some(p), Some(a)) => Some((p, a))
        case _ => None
  }

  function ParsePolicy(k: Syntax, s: string): Option<(nat, Protocol, Action)> {
    match ParseField(k.port, s)
    case None => None
    case Some((digits, u)) =>
      match (ParseNumber(digits), ParseTail(k, u))
      case (Some(n), Some((p, a))) => Some((n, p, a))
      case _ => None
  }

  function ParseSimpleRichRule(raw: string, zone: string): Option<Native> {
    match Strip("rule", Trim(raw))
    case None => None
    case Some(s) =>
      var (coverage, t) := ParseCoverage(s);
      match ParsePolicy(SIMPLE_RICH, t)
      case Some((port, protocol, action)) => Some(RichPort(zone, port, protocol, action, coverage))
      case None => None
  }

  lemma FieldExact(lead: string, s: string, a: string, rest: string)
    requires Lacks(a, '"') && |rest| > 0 && rest[0] == '"'
    ensures ParseField(lead, s) == Some((a, rest)) <==> s == lead + (a + rest)
  {
    if s == lead + (a + rest) {
      StripConcat(lead, a + rest);
      assert a + rest == a + ['"'] + rest[1..];
      FindDelimiter(a, '"', rest[1..]);
      assert (a + rest)[..|a|] == a && (a + rest)[|a|..] == rest;
    }
    if ParseField(lead, s) == Some((a, rest)) {
      var t := Strip(lead, s).value;
      assert t == a + rest;
    }
  }

  lemma TailExact(k: Syntax, s: string, protocol: Protocol, action: Action)
    requires EndsFields(k)
    ensures ParseTail(k, s) == Some((protocol, action)) <==> s == TailText(k, protocol, action)
  {
    var name, verdict := ProtocolText(protocol), VerdictText(action);
    FieldExact(k.protocol, s, name, k.verdict + verdict);
    StripConcat(k.verdict, verdict);
  }

  lemma PolicyPrints(k: Syntax, port: nat, protocol: Protocol, action: Action)
    requires EndsFields(k) && ValidPort(port)
    ensures ParsePolicy(k, PolicyText(k, port, protocol, action)) == Some((port, protocol, action))
  {
    var tail := TailText(k, protocol, action);
    FieldExact(k.port, PolicyText(k, port, protocol, action), Decimal(port), tail);
    TailExact(k, tail, protocol, action);
    ParsePrintedNumber(port);
  }

  lemma PolicyReads(k: Syntax, s: string, port: nat, protocol: Protocol, action: Action)
    requires EndsFields(k) && ParsePolicy(k, s) == Some((port, protocol, action))
    ensures ValidPort(port) && s == PolicyText(k, port, protocol, action)
  {
    var field := ParseField(k.port, s).value;
    TailExact(k, field.1, protocol, action);
    FieldExact(k.port, s, Decimal(port), TailText(k, protocol, action));
  }

  lemma PolicyExact(k: Syntax, s: string, port: nat, protocol: Protocol, action: Action)
    requires EndsFields(k)
    ensures ParsePolicy(k, s) == Some((port, protocol, action)) <==> ValidPort(port) && s == PolicyText(k, port, protocol, action)
  {
    if ParsePolicy(k, s) == Some((port, protocol, action)) {
      PolicyReads(k, s, port, protocol, action);
    }
    if ValidPort(port) {
      PolicyPrints(k, port, protocol, action);
    }
  }

  lemma CoverageExact(coverage: Coverage, policy: string)
    requires |policy| > 1 && policy[1] == 'p'
    ensures ParseCoverage(CoverageText(coverage) + policy) == (coverage, policy)
  {
    var s := CoverageText(coverage) + policy;
    StripConcat(CoverageText(coverage), policy);
    match coverage {
      case Both => assert CoverageText(OnlyIPv4)[1] == 'f' && CoverageText(OnlyIPv6)[1] == 'f';
      case OnlyIPv4 =>
      case OnlyIPv6 => assert s[12] == '6' && CoverageText(OnlyIPv4)[12] == '4';
    }
  }

  lemma ParseCoverageSplits(s: string)
    ensures s == CoverageText(ParseCoverage(s).0) + ParseCoverage(s).1
  {
  }

  // The recogniser accepts a line exactly when, trimmed, it is the printed
  // form of a rich rule on a valid port, and it recovers that rule.
  lemma ParseSimpleRichRuleExact(raw: string, zone: string, port: nat, protocol: Protocol, action: Action, coverage: Coverage)
    ensures ParseSimpleRichRule(raw, zone) == Some(RichPort(zone, port, protocol, action, coverage)) <==>
            ValidPort(port) && Trim(raw) == RichText(port, protocol, action, coverage)
  {
    if ParseSimpleRichRule(raw, zone) == Some(RichPort(zone, port, protocol, action, coverage)) {
      ParsedRichIsPrinted(raw, zone, port, protocol, action, coverage);
    }
    if ValidPort(port) && Trim(raw) == RichText(port, protocol, action, coverage) {
      ParsePrintedRich(raw, zone, port, protocol, action, coverage);
    }
  }

  lemma ParsedRichIsPrinted(raw: string, zone: string, port: nat, protocol: Protocol, action: Action, coverage: Coverage)
    requires ParseSimpleRichRule(raw, zone) == Some(RichPort(zone, port, protocol, action, coverage))
    ensures ValidPort(port) && Trim(raw) == RichText(port, protocol, action, coverage)
  {
    var s := Strip("rule", Trim(raw)).value;
    PolicyExact(SIMPLE_RICH, ParseCoverage(s).1, port, protocol, action);
    ParseCoverageSplits(s);
  }

  lemma ParsePrintedRich(raw: string, zone: string, port: nat, protocol: Protocol, action: Action, coverage: Coverage)
    requires ValidPort(port) && Trim(raw) == RichText(port, protocol, action, coverage)
    ensures ParseSimpleRichRule(raw, zone) == Some(RichPort(zone, port, protocol, action, coverage))
  {
    var policy := PolicyText(SIMPLE_RICH, port, protocol, action);
    StripConcat("rule", CoverageText(coverage) + policy);
    CoverageExact(coverage, policy);
    PolicyExact(SIMPLE_RICH, policy, port, protocol, action);
  }

  lemma Associate(a: string, b: string, c: string)
    ensures a + (b + c) == (a + b) + c
  {
  }

  lemma RichDropTextIsRichText(port: nat, protocol: Protocol)
    requires ValidPort(port)
    ensures RichDropText(port, protocol) == Ok(RichText(port, protocol, Deny, Both))
  {
    var tail := TailText(SIMPLE_RICH, protocol, Deny);
    assert "\" " + "drop" == "\" drop";
    Associate("rule", SIMPLE_RICH.port, Decimal(port) + tail);
    assert "rule" + SIMPLE_RICH.port == "rule port port=\"";
    var policy := PolicyText(SIMPLE_RICH, port, protocol, Deny);
    assert "" + policy == policy;
  }

  lemma TrimKeeps(s: string)
    requires s != "" && !IsSpace(s[0]) && !IsSpace(s[|s| - 1])
    ensures Trim(s) == s
  {
  }

  // Printing X-port's drop policy and reading it back gives the same policy.
  lemma DropRoundTrip(port: nat, protocol: Protocol, zone: string)
    requires ValidPort(port)
    ensures RichDropText(port, protocol).Ok?
    ensures ParseSimpleRichRule(RichDropText(port, protocol).value, zone) == Some(RichPort(zone, port, protocol, Deny, Both))
  {
    var text := RichDropText(port, protocol).value;
    assert text[0] == 'r';
    LastIsVerdict("rule port port=\"", Decimal(port), "\" protocol=\"", ProtocolText(protocol), "\" drop");
    TrimKeeps(text);
    RichDropTextIsRichText(port, protocol);
    ParsePrintedRich(text, zone, port, protocol, Deny, Both);
  }

  lemma LastIsVerdict(a: string, b: string, c: string, d: string, e: string)
    requires |e| > 0
    ensures var s := a + (b + (c + (d + e))); |s| > 0 && s[|s| - 1] == e[|e| - 1]
  {
  }

  // ----- Identifiers -----

  function ActionName(a: Action): string {
    match a
    case Allow => "accept"
    case Deny => "deny"
    case Reject => "reject"
  }

  function CoverageName(c: Coverage): string {
    match c
    case Both => "both"
    case OnlyIPv4 => "ipv4"
    case OnlyIPv6 => "ipv6"
  }

  function RichSuffix(n: Native): string
    requires n.RichPort?
  {
    PortText(n.port, n.protocol) + [':'] + (ActionName(n.action) + [':'] + CoverageName(n.coverage))
  }

  function LocalId(n: Native): string
    requires !n.UfwPort?
  {
    match n
    case OpenPort(_, port, protocol) => PortText(port, protocol)
    case OpenRange(_, first, last, protocol) => RangeText(first, last, protocol)
    case RichPort(_, _, _, _, _) => "rich" + [':'] + RichSuffix(n)
  }

  function RuleId(n: Native): string {
    if n.UfwPort? then "ufw" + [':'] + PortText(n.port, n.protocol)
    else "firewalld" + [':'] + (n.zone + [':'] + LocalId(n))
  }

  lemma PortTextInjective(p: nat, a: Protocol, q: nat, b: Protocol)
    requires PortText(p, a) == PortText(q, b)
    ensures p == q && a == b
  {
    SplitUnique(Decimal(p), Decimal(q), '/', ProtocolText(a), ProtocolText(b));
    DecimalInjective(p, q);
    assert ParseProtocol(ProtocolText(a)) == Some(b);
  }

  lemma LocalIdShape(n: Native)
    requires !n.UfwPort?
    ensures n.RichPort? <==> |LocalId(n)| > 0 && !IsDigit(LocalId(n)[0])
    ensures n.OpenRange? ==> !Lacks(LocalId(n), '-')
    ensures n.OpenPort? ==> Lacks(LocalId(n), '-')
  {
    if n.OpenRange? {
      RangeTextHasDash(n.first, n.last, n.protocol);
    }
  }

  lemma LocalIdInjective(m: Native, n: Native)
    requires !m.UfwPort? && !n.UfwPort? && m.zone == n.zone && LocalId(m) == LocalId(n)
    ensures m == n
  {
    LocalIdShape(m);
    LocalIdShape(n);
    match m {
      case OpenPort(_, p, a) =>
        PortTextInjective(p, a, n.port, n.protocol);
      case OpenRange(_, first, last, a) =>
        SplitUnique(Decimal(first), Decimal(n.first), '-', PortText(last, a), PortText(n.last, n.protocol));
        DecimalInjective(first, n.first);
        PortTextInjective(last, a, n.last, n.protocol);
      case RichPort(_, _, _, _, _) =>
        RichIdInjective(m, n);
    }
  }

  lemma RichIdInjective(m: Native, n: Native)
    requires m.RichPort? && n.RichPort? && m.zone == n.zone && LocalId(m) == LocalId(n)
    ensures m == n
  {
    SplitUnique("rich", "rich", ':', RichSuffix(m), RichSuffix(n));
    PortTextLacks(m.port, m.protocol, ':');
    PortTextLacks(n.port, n.protocol, ':');
    SplitUnique(PortText(m.port, m.protocol), PortText(n.port, n.protocol), ':',
                ActionName(m.action) + [':'] + CoverageName(m.coverage), ActionName(n.action) + [':'] + CoverageName(n.coverage));
    PortTextInjective(m.port, m.protocol, n.port, n.protocol);
    SplitUnique(ActionName(m.action), ActionName(n.action), ':', CoverageName(m.coverage), CoverageName(n.coverage));
  }

  lemma RuleIdLead(n: Native)
    ensures |RuleId(n)| > 0 && (n.UfwPort? <==> RuleId(n)[0] == 'u')
  {
  }

  // Two native rules share an identifier only when they are the same rule; a
  // UFW identifier alone leaves the address family out.
  lemma RuleIdInjective(m: Native, n: Native)
    requires Valid(m) && Valid(n) && RuleId(m) == RuleId(n)
    ensures m == n || (m.UfwPort? && n.UfwPort? && m.port == n.port && m.protocol == n.protocol)
  {
    RuleIdLead(m);
    RuleIdLead(n);
    if m.UfwPort? {
      SplitUnique("ufw", "ufw", ':', PortText(m.port, m.protocol), PortText(n.port, n.protocol));
      PortTextInjective(m.port, m.protocol, n.port, n.protocol);
    } else {
      SplitUnique("firewalld", "firewalld", ':', m.zone + [':'] + LocalId(m), n.zone + [':'] + LocalId(n));
      ZoneLacksColon(m.zone);
      ZoneLacksColon(n.zone);
      SplitUnique(m.zone, n.zone, ':', LocalId(m), LocalId(n));
      LocalIdInjective(m, n);
    }
  }

  // ----- Settings keys -----

  datatype Slot = OwnedKey | NoteKey | PurposeKey | PendingKey | PausedKey

  function SlotPrefix(slot: Slot): string {
    match slot
    case OwnedKey => "firewall_owned"
    case NoteKey => "firewall_note"
    case PurposeKey => "firewall_purpose"
    case PendingKey => "firewall_pending"
    case PausedKey => "firewall_paused"
  }

  function Qualify(prefix: string, id: string): string {
    prefix + [':'] + id
  }

  function SettingKey(slot: Slot, n: Native): string {
    Qualify(SlotPrefix(slot), RuleId(n))
  }

  lemma QualifyInjective(p: string, a: string, q: string, b: string)
    requires Lacks(p, ':') && Lacks(q, ':') && Qualify(p, a) == Qualify(q, b)
    ensures p == q && a == b
  {
    SplitUnique(p, q, ':', a, b);
  }

  lemma SlotPrefixLacksColon(s: Slot)
    ensures Lacks(SlotPrefix(s), ':')
  {
  }

  lemma SlotPrefixInjective(s: Slot, t: Slot)
    requires SlotPrefix(s) == SlotPrefix(t)
    ensures s == t
  {
    assert |SlotPrefix(s)| == |SlotPrefix(t)|;
    assert SlotPrefix(PurposeKey)[10] == 'u' && SlotPrefix(PendingKey)[10] == 'e';
  }

  // Distinct slots or distinct rules never share a settings key.
  lemma SettingKeyInjective(s: Slot, m: Native, t: Slot, n: Native)
    requires Valid(m) && Valid(n) && !m.UfwPort? && SettingKey(s, m) == SettingKey(t, n)
    ensures s == t && m == n
  {
    SlotPrefixLacksColon(s);
    SlotPrefixLacksColon(t);
    QualifyInjective(SlotPrefix(s), RuleId(m), SlotPrefix(t), RuleId(n));
    SlotPrefixInjective(s, t);
    RuleIdInjective(m, n);
  }
}
