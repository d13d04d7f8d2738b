/** JSON values, and the rendering of the Xray configuration from the accounts. */
module XrayConfig {
  import opened Common
  import opened Text

  datatype Json =
    | Null
    | Bool(value: bool)
    | Number(digits: string)
    | Str(text: string)
    | Arr(items: seq<Json>)
    | Obj(fields: map<string, Json>)

  type Sections = map<string, Json>

  /** What the renderer reads of an account; the JSON columns are none when
      their text does not parse. */
  datatype Inbound = Inbound(
    enabled: bool, listen: string, port: int, protocol: string, tag: string,
    settings: Option<Json>, stream: Option<Json>, sniffing: Option<Json>)

  /** The stored global configuration. */
  datatype Base = NoBase | Malformed | Parsed(json: Json)

  datatype RenderError = InvalidPort | DuplicatePort | EmptyTag | DuplicateTag | InvalidJson | ApiConflict | InvalidBase

  // A stored base of `null` leaves the renderer with no map to write to.
  datatype Rendering = Rendered(config: Json) | Refused(error: RenderError) | Panics

  const DEFAULT_API_PORT := 10085

  // ----- Which accounts can be rendered -----

  predicate WellFormed(a: Inbound) {
    1 <= a.port <= 65535 && a.tag != "" && a.settings.Some? && a.stream.Some? && a.sniffing.Some?
  }

  // Every enabled account is well formed and no two share a port or a tag.
  predicate Renderable(accounts: seq<Inbound>) {
    && (forall i :: 0 <= i < |accounts| && accounts[i].enabled ==> WellFormed(accounts[i]))
    && (forall i, j :: 0 <= i < j < |accounts| && accounts[i].enabled && accounts[j].enabled ==>
          accounts[i].port != accounts[j].port && accounts[i].tag != accounts[j].tag)
  }

  function ApiPort(configured: int): int {
    if configured <= 0 then DEFAULT_API_PORT else configured
  }

  predicate UsesPort(accounts: seq<Inbound>, port: int) {
    exists i :: 0 <= i < |accounts| && accounts[i].enabled && accounts[i].port == port
  }

  predicate UsesTag(accounts: seq<Inbound>, tag: string) {
    exists i :: 0 <= i < |accounts| && accounts[i].enabled && accounts[i].tag == tag
  }

  // ----- The rendering -----

  function Entry(a: Inbound): Json
    requires WellFormed(a)
  {
    Obj((if a.listen == "" then map[] else map["listen" := Str(a.listen)]) +
        map["port" := Number(Decimal(a.port)), "protocol" := Str(a.protocol), "settings" := a.settings.value,
            "streamSettings" := a.stream.value, "tag" := Str(a.tag), "sniffing" := a.sniffing.value])
  }

  function ApiEntry(port: nat): Json {
    Obj(map["listen" := Str("127.0.0.1"), "port" := Number(Decimal(port)), "protocol" := Str("dokodemo-door"),
            "settings" := Obj(map["address" := Str("127.0.0.1")]), "tag" := Str("api")])
  }

  function Entries(accounts: seq<Inbound>): seq<Json>
    requires forall i :: 0 <= i < |accounts| && accounts[i].enabled ==> WellFormed(accounts[i])
  {
    if accounts == [] then []
    else
      var last := accounts[|accounts| - 1];
      Entries(accounts[..|accounts| - 1]) + if last.enabled then [Entry(last)] else []
  }

  function Object(v: Option<Json>): Sections {
    if v.Some? && v.value.Obj? then v.value.fields else map[]
  }

  function Get(m: Sections, key: string): Option<Json> {
    if key in m then Some(m[key]) else None
  }

  const API_RULE := Obj(map["type" := Str("field"), "inboundTag" := Arr([Str("api")]), "outboundTag" := Str("api")])

  const API_SECTION :=
    Obj(map["tag" := Str("api"), "services" := Arr([Str("HandlerService"), Str("LoggerService"), Str("StatsService")])])

  const DEFAULT_LOG := Obj(map["loglevel" := Str("warning")])

  const DEFAULT_OUTBOUNDS :=
    Arr([Obj(map["protocol" := Str("freedom"), "tag" := Str("direct")]),
         Obj(map["protocol" := Str("blackhole"), "tag" := Str("blocked")])])

  predicate IsApiRule(rule: Json) {
    && rule.Obj?
    && Get(rule.fields, "outboundTag") == Some(Str("api"))
    && var tags := Get(rule.fields, "inboundTag");
       tags.Some? && tags.value.Arr? && Str("api") in tags.value.items
  }

  function Rules(routing: Sections): seq<Json> {
    var rules := Get(routing, "rules");
    if rules.Some? && rules.value.Arr? then rules.value.items else []
  }

  function Others(rules: seq<Json>): seq<Json> {
    if rules == [] then []
    else
      var last := rules[|rules| - 1];
      Others(rules[..|rules| - 1]) + if IsApiRule(last) then [] else [last]
  }

  function Policy(base: Sections): Sections {
    var policy := Object(Get(base, "policy"));
    var system := Object(Get(policy, "system"));
    policy["system" := Obj(system["statsInboundUplink" := Bool(true)]["statsInboundDownlink" := Bool(true)])]
  }

  function Routing(base: Sections): Sections {
    var routing := Object(Get(base, "routing"));
    routing["rules" := Arr([API_RULE] + Others(Rules(routing)))]
  }

  function WithDefaults(base: Sections): Sections {
    map["log" := DEFAULT_LOG, "outbounds" := DEFAULT_OUTBOUNDS] + base
  }

  function Render(inbounds: seq<Json>, base: Sections): Sections {
    WithDefaults(base)["api" := API_SECTION]["stats" := Obj(map[])]["inbounds" := Arr(inbounds)]
      ["policy" := Obj(Policy(base))]["routing" := Obj(Routing(base))]
  }

  function Inbounds(accounts: seq<Inbound>, apiPort: int): seq<Json>
    requires Renderable(accounts)
  {
    Entries(accounts) + [ApiEntry(ApiPort(apiPort))]
  }

  function SectionsOf(base: Base): Sections {
    if base.Parsed? && base.json.Obj? then base.json.fields else map[]
  }

  predicate CanRender(accounts: seq<Inbound>, apiPort: int) {
    Renderable(accounts) && !UsesPort(accounts, ApiPort(apiPort))
  }

  predicate UsableBase(base: Base) {
    base.NoBase? || (base.Parsed? && base.json.Obj?)
  }

  // ----- The renderer's loops -----

  // What the loop knows after the accounts it has passed.
  ghost predicate Passed(some: seq<Inbound>, entries: seq<Json>, ports: set<int>, tags: set<string>) {
    && Renderable(some) && entries == Entries(some)
    && (forall p :: p in ports <==> UsesPort(some, p))
    && (forall t :: t in tags <==> UsesTag(some, t))
  }

  method CheckAccounts(accounts: seq<Inbound>) returns (error: Option<RenderError>, entries: seq<Json>, ports: set<int>)
    ensures error.None? <==> Renderable(accounts)
    ensures error.None? ==> entries == Entries(accounts)
    ensures error.None? ==> forall p :: p in ports <==> UsesPort(accounts, p)
  {
    ports, entries, error := {}, [], None;
    var tags: set<string> := {};
    for i := 0 to |accounts|
      invariant error.None? && Passed(accounts[..i], entries, ports, tags)
    {
      var a := accounts[i];
      PassedOneMore(accounts, i, entries, ports, tags);
      if a.enabled {
        error := CheckOne(a, ports, tags);
        if error.Some? {
          return;
        }
        ports, tags, entries := ports + {a.port}, tags + {a.tag}, entries + [Entry(a)];
      }
    }
    assert accounts[..|accounts|] == accounts;
  }

  method CheckOne(a: Inbound, ports: set<int>, tags: set<string>) returns (error: Option<RenderError>)
    ensures error.None? <==> WellFormed(a) && a.port !in ports && a.tag !in tags
  {
    if a.port < 1 || a.port > 65535 { return Some(InvalidPort); }
    if a.port in ports { return Some(DuplicatePort); }
    if a.tag == "" { return Some(EmptyTag); }
    if a.tag in tags { return Some(DuplicateTag); }
    if a.settings.None? || a.stream.None? || a.sniffing.None? { return Some(InvalidJson); }
    return None;
  }

  // One more account, and what it adds to the entries, the ports and the tags.
  lemma OneMore(accounts: seq<Inbound>, i: nat)
    requires i < |accounts| && Renderable(accounts[..i])
    ensures var a, some, more := accounts[i], accounts[..i], accounts[..i + 1];
            && more == some + [a]
            && (forall p :: UsesPort(more, p) <==> UsesPort(some, p) || (a.enabled && a.port == p))
            && (forall t :: UsesTag(more, t) <==> UsesTag(some, t) || (a.enabled && a.tag == t))
            && (!a.enabled ==> Renderable(more))
            && (Renderable(more) ==> Entries(more) == Entries(some) + if a.enabled then [Entry(a)] else [])
  {
    var a, some, more := accounts[i], accounts[..i], accounts[..i + 1];
    assert more == some + [a] && more[..|more| - 1] == some;
    forall p {
      GrownBy(some, a, p, "");
    }
    forall t: string {
      GrownBy(some, a, 0, t);
    }
  }

  lemma GrownBy(some: seq<Inbound>, a: Inbound, p: int, t: string)
    ensures UsesPort(some + [a], p) <==> UsesPort(some, p) || (a.enabled && a.port == p)
    ensures UsesTag(some + [a], t) <==> UsesTag(some, t) || (a.enabled && a.tag == t)
  {
    var more := some + [a];
    assert more[|some|] == a;
    if i :| 0 <= i < |some| && some[i].enabled && some[i].port == p {
      assert more[i].port == p;
    }
    if i :| 0 <= i < |some| && some[i].enabled && some[i].tag == t {
      assert more[i].tag == t;
    }
  }

  // The next account is passed over, or fits, or the whole list is not renderable.
  lemma PassedOneMore(accounts: seq<Inbound>, i: nat, entries: seq<Json>, ports: set<int>, tags: set<string>)
    requires i < |accounts| && Passed(accounts[..i], entries, ports, tags)
    ensures !accounts[i].enabled ==> Passed(accounts[..i + 1], entries, ports, tags)
    ensures accounts[i].enabled ==>
              var a := accounts[i];
              if WellFormed(a) && a.port !in ports && a.tag !in tags then
                Passed(accounts[..i + 1], entries + [Entry(a)], ports + {a.port}, tags + {a.tag})
              else !Renderable(accounts)
  {
    OneMore(accounts, i);
    if accounts[i].enabled {
      FitsExactly(accounts, i, ports, tags);
    }
  }

  // The whole list is renderable only if this account fits what came before.
  lemma FitsExactly(accounts: seq<Inbound>, i: nat, ports: set<int>, tags: set<string>)
    requires i < |accounts| && accounts[i].enabled && Renderable(accounts[..i])
    requires forall p :: p in ports <==> UsesPort(accounts[..i], p)
    requires forall t :: t in tags <==> UsesTag(accounts[..i], t)
    ensures var fits := WellFormed(accounts[i]) && accounts[i].port !in ports && accounts[i].tag !in tags;
            (fits ==> Renderable(accounts[..i + 1])) && (!fits ==> !Renderable(accounts))
  {
    var a := accounts[i];
    if a.port in ports {
      var k :| 0 <= k < i && accounts[..i][k].enabled && accounts[..i][k].port == a.port;
      assert accounts[k].enabled && accounts[k].port == a.port;
    } else if a.tag in tags {
      var k :| 0 <= k < i && accounts[..i][k].enabled && accounts[..i][k].tag == a.tag;
      assert accounts[k].enabled && accounts[k].tag == a.tag;
    } else if WellFormed(a) {
      forall k | 0 <= k < i && accounts[k].enabled ensures accounts[k].port != a.port && accounts[k].tag != a.tag {
        assert accounts[..i][k] == accounts[k];
      }
    }
  }

  method KeepOthers(rules: seq<Json>) returns (kept: seq<Json>)
    ensures kept == Others(rules)
  {
    kept := [];
    for i := 0 to |rules|
      invariant kept == Others(rules[..i])
    {
      assert rules[..i + 1][..i] == rules[..i];
      if !IsApiRule(rules[i]) {
        kept := kept + [rules[i]];
      }
    }
    assert rules[..|rules|] == rules;
  }

  method FillIn(base: Sections, inbounds: seq<Json>) returns (cfg: Sections)
    ensures cfg == WithDefaults(base)["api" := API_SECTION]["stats" := Obj(map[])]["inbounds" := Arr(inbounds)]
  {
    cfg := base;
    if "log" !in cfg {
      cfg := cfg["log" := DEFAULT_LOG];
    }
    if "outbounds" !in cfg {
      cfg := cfg["outbounds" := DEFAULT_OUTBOUNDS];
    }
    assert cfg == WithDefaults(base);
    cfg := cfg["api" := API_SECTION]["stats" := Obj(map[])]["inbounds" := Arr(inbounds)];
  }

  method Assemble(base: Sections, inbounds: seq<Json>) returns (cfg: Sections)
    ensures cfg == Render(inbounds, base)
  {
    cfg := FillIn(base, inbounds);
    OwnSectionsApart(base, inbounds);
    var policy, routing := Policy(cfg), Object(Get(cfg, "routing"));
    var others := KeepOthers(Rules(routing));
    cfg := cfg["policy" := Obj(policy)];
    cfg := cfg["routing" := Obj(routing["rules" := Arr([API_RULE] + others)])];
  }

  // Filling in the managed sections and the defaults leaves policy and routing alone.
  lemma OwnSectionsApart(base: Sections, inbounds: seq<Json>)
    ensures var cfg := WithDefaults(base)["api" := API_SECTION]["stats" := Obj(map[])]["inbounds" := Arr(inbounds)];
            Get(cfg, "policy") == Get(base, "policy") && Get(cfg, "routing") == Get(base, "routing")
  {
  }

  /** Renders the managed inbounds into the stored global configuration. */
  method BuildConfigWithBase(accounts: seq<Inbound>, apiPort: int, base: Base) returns (r: Rendering)
    ensures r.Rendered? <==> CanRender(accounts, apiPort) && UsableBase(base)
    ensures r.Rendered? ==> r.config == Obj(Render(Inbounds(accounts, apiPort), SectionsOf(base)))
    ensures r.Panics? <==> CanRender(accounts, apiPort) && base == Parsed(Null)
  {
    var error, entries, ports := CheckAccounts(accounts);
    if error.Some? {
      return Refused(error.value);
    }
    var port := ApiPort(apiPort);
    if port in ports {
      return Refused(ApiConflict);
    }
    if base == Parsed(Null) {
      return Panics;
    }
    if !UsableBase(base) {
      return Refused(InvalidBase);
    }
    var cfg := Assemble(SectionsOf(base), entries + [ApiEntry(port)]);
    r := Rendered(Obj(cfg));
  }
}
