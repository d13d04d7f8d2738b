/** Laws of the rendering: it is stable, keeps what it does not manage, and
    exposes exactly the enabled accounts. */
module XrayConfigLaws {
  import opened Common
  import opened XrayConfig

  // ----- Filtering the API rule -----

  lemma {:induction false} OthersConcat(a: seq<Json>, b: seq<Json>)
    ensures Others(a + b) == Others(a) + Others(b)
    decreases |b|
  {
    if b == [] {
      assert a + b == a;
    } else {
      assert (a + b)[..|a + b| - 1] == a + b[..|b| - 1];
      OthersConcat(a, b[..|b| - 1]);
    }
  }

  lemma {:induction false} NoneIsApi(rules: seq<Json>)
    ensures forall i :: 0 <= i < |Others(rules)| ==> !IsApiRule(Others(rules)[i])
    decreases |rules|
  {
    if rules != [] {
      NoneIsApi(rules[..|rules| - 1]);
    }
  }

  lemma {:induction false} OthersOfOthers(rules: seq<Json>)
    requires forall i :: 0 <= i < |rules| ==> !IsApiRule(rules[i])
    ensures Others(rules) == rules
    decreases |rules|
  {
    if rules != [] {
      OthersOfOthers(rules[..|rules| - 1]);
      assert rules == rules[..|rules| - 1] + [rules[|rules| - 1]];
    }
  }

  lemma ApiRuleIsApi()
    ensures IsApiRule(API_RULE)
  {
    assert API_RULE.fields["inboundTag"].items[0] == Str("api");
  }

  lemma FilteringAgain(rules: seq<Json>)
    ensures Others([API_RULE] + Others(rules)) == Others(rules)
  {
    OthersConcat([API_RULE], Others(rules));
    ApiRuleIsApi();
    assert Others([API_RULE]) == [] by {
      assert [API_RULE][..0] == [];
    }
    NoneIsApi(rules);
    OthersOfOthers(Others(rules));
  }

  // Where the kept rules stood: strictly increasing positions that cover every
  // rule which is not the API rule.
  function Places(rules: seq<Json>): seq<nat>
  {
    if rules == [] then []
    else Places(rules[..|rules| - 1]) + if IsApiRule(rules[|rules| - 1]) then [] else [|rules| - 1]
  }

  // The rendered routing has the API rule first and nowhere else, and the other
  // rules of the base, all of them, in their order.
  lemma {:induction false} OthersInOrder(rules: seq<Json>)
    ensures |Places(rules)| == |Others(rules)|
    ensures forall k :: 0 <= k < |Places(rules)| ==> Places(rules)[k] < |rules| && rules[Places(rules)[k]] == Others(rules)[k]
    ensures forall k, l :: 0 <= k < l < |Places(rules)| ==> Places(rules)[k] < Places(rules)[l]
    ensures forall i :: 0 <= i < |rules| && !IsApiRule(rules[i]) ==> i in Places(rules)
    decreases |rules|
  {
    if rules != [] {
      var rest := rules[..|rules| - 1];
      OthersInOrder(rest);
      forall i | 0 <= i < |rules| && !IsApiRule(rules[i]) ensures i in Places(rules) {
        if i < |rest| {
          assert rest[i] == rules[i];
          assert i in Places(rest);
        } else {
          assert Places(rules)[|Places(rest)|] == i;
        }
      }
    }
  }

  lemma ApiRuleFirstAndOnly(inbounds: seq<Json>, base: Sections)
    ensures var rules := Rules(Object(Get(Render(inbounds, base), "routing")));
            && |rules| > 0 && rules[0] == API_RULE
            && (forall i :: 0 <= i < |rules| ==> (IsApiRule(rules[i]) <==> i == 0))
            && rules[1..] == Others(Rules(Object(Get(base, "routing"))))
  {
    var others := Others(Rules(Object(Get(base, "routing"))));
    assert Object(Get(Render(inbounds, base), "routing")) == Routing(base);
    assert Rules(Routing(base)) == [API_RULE] + others;
    NoneIsApi(Rules(Object(Get(base, "routing"))));
    ApiRuleIsApi();
  }

  // ----- Rendering a rendered configuration -----

  lemma RenderedParts(inbounds: seq<Json>, base: Sections)
    ensures WithDefaults(Render(inbounds, base)) == Render(inbounds, base)
    ensures Object(Get(Render(inbounds, base), "policy")) == Policy(base)
    ensures Object(Get(Render(inbounds, base), "routing")) == Routing(base)
  {
  }

  lemma PolicyTwice(base: Sections, again: Sections)
    requires Object(Get(again, "policy")) == Policy(base)
    ensures Policy(again) == Policy(base)
  {
    var system := Object(Get(Object(Get(base, "policy")), "system"));
    var counted := system["statsInboundUplink" := Bool(true)]["statsInboundDownlink" := Bool(true)];
    assert Object(Get(Policy(base), "system")) == counted;
    assert counted["statsInboundUplink" := Bool(true)]["statsInboundDownlink" := Bool(true)] == counted;
    assert Policy(base)["system" := Obj(counted)] == Policy(base);
  }

  lemma RoutingTwice(base: Sections, again: Sections)
    requires Object(Get(again, "routing")) == Routing(base)
    ensures Routing(again) == Routing(base)
  {
    FilteringAgain(Rules(Object(Get(base, "routing"))));
  }

  // Whatever accounts a configuration was rendered for, using it as the base
  // gives what the original base gives: no trace of them is left.
  lemma RenderForgets(first: seq<Json>, second: seq<Json>, base: Sections)
    ensures Render(second, Render(first, base)) == Render(second, base)
  {
    var once := Render(first, base);
    RenderedParts(first, base);
    PolicyTwice(base, once);
    RoutingTwice(base, once);
    SameRest(first, second, base);
  }

  lemma SameRest(first: seq<Json>, second: seq<Json>, base: Sections)
    requires var once := Render(first, base);
             WithDefaults(once) == once && Policy(once) == Policy(base) && Routing(once) == Routing(base)
    ensures Render(second, Render(first, base)) == Render(second, base)
  {
  }

  // Rendering its own output changes nothing.
  lemma RenderStable(inbounds: seq<Json>, base: Sections)
    ensures Render(inbounds, Render(inbounds, base)) == Render(inbounds, base)
  {
    RenderForgets(inbounds, inbounds, base);
  }

  const MANAGED: set<string> := {"api", "stats", "inbounds"}

  lemma ManagedOverwritten(inbounds: seq<Json>, base: Sections)
    ensures WithDefaults(base - MANAGED)["api" := API_SECTION]["stats" := Obj(map[])]["inbounds" := Arr(inbounds)] ==
            WithDefaults(base)["api" := API_SECTION]["stats" := Obj(map[])]["inbounds" := Arr(inbounds)]
  {
  }

  // Sections the panel manages may be dropped from the base at any time.
  lemma ManagedIrrelevant(inbounds: seq<Json>, base: Sections)
    ensures Render(inbounds, base - MANAGED) == Render(inbounds, base)
  {
    assert Get(base - MANAGED, "policy") == Get(base, "policy");
    assert Get(base - MANAGED, "routing") == Get(base, "routing");
    ManagedOverwritten(inbounds, base);
  }

  // Every other section of the base is handed on unchanged.
  lemma OtherSectionsKept(inbounds: seq<Json>, base: Sections, key: string)
    requires key in base && key !in MANAGED && key != "policy" && key != "routing"
    ensures Get(Render(inbounds, base), key) == Get(base, key)
  {
  }

  // ----- The inbounds -----

  // The rendered inbounds are those of the enabled accounts, each once, with
  // the API inbound last.
  ghost predicate Exposes(config: Json, inbounds: set<Json>) {
    && config.Obj?
    && var list := Get(config.fields, "inbounds");
    && list.Some? && list.value.Arr? && |list.value.items| > 0
    && forall e :: e in list.value.items[..|list.value.items| - 1] <==> e in inbounds
  }

  ghost function EntriesOf(accounts: seq<Inbound>): set<Json> {
    set a | a in accounts && a.enabled && WellFormed(a) :: Entry(a)
  }

  lemma {:induction false} EntriesAreThose(accounts: seq<Inbound>)
    requires forall i :: 0 <= i < |accounts| && accounts[i].enabled ==> WellFormed(accounts[i])
    ensures forall e :: e in Entries(accounts) <==> e in EntriesOf(accounts)
    decreases |accounts|
  {
    if accounts != [] {
      var rest, last := accounts[..|accounts| - 1], accounts[|accounts| - 1];
      EntriesAreThose(rest);
      assert accounts == rest + [last];
      forall e ensures e in EntriesOf(accounts) <==> e in EntriesOf(rest) || (last.enabled && e == Entry(last)) {
        if e in EntriesOf(rest) {
          var a :| a in rest && a.enabled && WellFormed(a) && Entry(a) == e;
          assert a in accounts;
        }
        if last.enabled && e == Entry(last) {
          assert last in accounts;
        }
      }
    }
  }

  lemma ConfigExposes(accounts: seq<Inbound>, apiPort: int, base: Sections)
    requires CanRender(accounts, apiPort)
    ensures Exposes(Obj(Render(Inbounds(accounts, apiPort), base)), EntriesOf(accounts))
  {
    var list := Inbounds(accounts, apiPort);
    assert Get(Render(list, base), "inbounds") == Some(Arr(list));
    assert list[..|list| - 1] == Entries(accounts);
    EntriesAreThose(accounts);
  }

  // Whether accounts can be rendered, and what they expose, does not depend on
  // their order.
  lemma OrderIrrelevant(a: seq<Inbound>, b: seq<Inbound>, apiPort: int)
    requires forall x :: x in a <==> x in b
    requires forall i, j :: 0 <= i < j < |b| ==> b[i] != b[j]
    requires CanRender(a, apiPort)
    ensures CanRender(b, apiPort) && EntriesOf(b) == EntriesOf(a)
  {
    forall i | 0 <= i < |b| && b[i].enabled ensures WellFormed(b[i]) {
      Positioned(a, b[i]);
    }
    forall i, j | 0 <= i < j < |b| && b[i].enabled && b[j].enabled
      ensures b[i].port != b[j].port && b[i].tag != b[j].tag
    {
      Positioned(a, b[i]);
      Positioned(a, b[j]);
      var k, l :| 0 <= k < |a| && 0 <= l < |a| && a[k] == b[i] && a[l] == b[j];
      assert k != l;
    }
    if UsesPort(b, ApiPort(apiPort)) {
      var i :| 0 <= i < |b| && b[i].enabled && b[i].port == ApiPort(apiPort);
      Positioned(a, b[i]);
    }
  }

  lemma Positioned(s: seq<Inbound>, x: Inbound)
    requires x in s
    ensures exists k :: 0 <= k < |s| && s[k] == x
  {
  }
}
