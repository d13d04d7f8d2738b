/** The sections of the stored global configuration that may be edited. */
module GlobalSections {
  import opened Common
  import opened XrayConfig
  import opened XrayConfigLaws

  const EDITABLE: set<string> := {"routing", "dns", "outbounds", "policy"}

  const MAX_BYTES := 0x20_0000

  /** A stored or submitted text: nothing but blanks, or a text with its length
      in bytes and the value it parses to. */
  datatype Source = Blank | Source(bytes: nat, json: Option<Json>)

  datatype Refusal = TooLarge | NotJson | NotObject | IsManaged(key: string) | NotEditable(key: string)

  function ParseObject(s: Source): Result<Sections, Refusal> {
    match s
    case Blank => Ok(map[])
    case Source(bytes, json) =>
      if bytes > MAX_BYTES then Err(TooLarge)
      else if json.None? then Err(NotJson)
      else match json.value
           case Obj(fields) => Ok(fields)
           case Null => Err(NotObject)
           case _ => Err(NotJson)
  }

  // ----- What may be seen and what is stored -----

  function Visible(base: Sections): Sections {
    map key | key in base && key in EDITABLE :: base[key]
  }

  function Merged(base: Sections, editable: Sections): Sections {
    base - EDITABLE - MANAGED + editable
  }

  /** Copies the editable sections one by one. */
  method EditableGlobalConfig(stored: Source) returns (r: Result<Sections, Refusal>)
    ensures r.Ok? <==> ParseObject(stored).Ok?
    ensures r.Ok? ==> r.value == Visible(ParseObject(stored).value)
  {
    var base := ParseObject(stored);
    if base.Err? {
      return base;
    }
    var keys, out := EDITABLE, map[];
    while keys != {}
      invariant keys <= EDITABLE
      invariant out == map key | key in base.value && key in EDITABLE - keys :: base.value[key]
      decreases keys
    {
      var key :| key in keys;
      keys := keys - {key};
      if key in base.value {
        out := out[key := base.value[key]];
      }
    }
    r := Ok(out);
  }

  /** Checks the submitted keys, then deletes and sets sections one by one. */
  method MergeEditableGlobalConfig(stored: Source, submitted: Source) returns (r: Result<Sections, Refusal>)
    ensures r.Ok? <==> ParseObject(stored).Ok? && ParseObject(submitted).Ok? && ParseObject(submitted).value.Keys <= EDITABLE
    ensures r.Ok? ==> r.value == Merged(ParseObject(stored).value, ParseObject(submitted).value)
    ensures r.Err? && r.error.IsManaged? ==>
              ParseObject(submitted).Ok? && r.error.key in ParseObject(submitted).value.Keys * MANAGED
  {
    var base, editable := ParseObject(stored), ParseObject(submitted);
    if base.Err? {
      return base;
    }
    if editable.Err? {
      return editable;
    }
    var keys := editable.value.Keys;
    while keys != {}
      invariant keys <= editable.value.Keys && editable.value.Keys - keys <= EDITABLE
      decreases keys
    {
      var key :| key in keys;
      if key !in EDITABLE {
        return Err(if key in MANAGED then IsManaged(key) else NotEditable(key));
      }
      keys := keys - {key};
    }
    var merged := base.value;
    merged := DeleteAll(merged, EDITABLE);
    merged := DeleteAll(merged, MANAGED);
    merged := SetAll(merged, editable.value);
    r := Ok(merged);
  }

  method DeleteAll(m: Sections, keys: set<string>) returns (out: Sections)
    ensures out == m - keys
  {
    var left := keys;
    out := m;
    while left != {}
      invariant left <= keys && out == m - (keys - left)
      decreases left
    {
      var key :| key in left;
      left, out := left - {key}, out - {key};
    }
    assert keys - left == keys;
  }

  method SetAll(m: Sections, values: Sections) returns (out: Sections)
    ensures out == m + values
  {
    var left := values.Keys;
    out := m;
    while left != {}
      invariant left <= values.Keys
      invariant out == m + (map key | key in values && key !in left :: values[key])
      decreases left
    {
      var key :| key in left;
      left, out := left - {key}, out[key := values[key]];
    }
    assert values == map key | key in values && key !in left :: values[key];
  }

  // ----- Laws -----

  // Storing what was shown changes nothing but dropping the managed sections.
  lemma GetPut(base: Sections)
    ensures Merged(base, Visible(base)) == base - MANAGED
  {
  }

  // What was stored is what is shown next.
  lemma PutGet(base: Sections, editable: Sections)
    requires editable.Keys <= EDITABLE
    ensures Visible(Merged(base, editable)) == editable
  {
  }

  // The last edit wins.
  lemma PutPut(base: Sections, first: Sections, second: Sections)
    requires first.Keys <= EDITABLE
    ensures Merged(Merged(base, first), second) == Merged(base, second)
  {
  }

  // Saving the editor without a change never changes what Xray is given.
  lemma SavingUnchangedRendersSame(inbounds: seq<Json>, base: Sections)
    ensures Render(inbounds, Merged(base, Visible(base))) == Render(inbounds, base)
  {
    GetPut(base);
    ManagedIrrelevant(inbounds, base);
  }
}
