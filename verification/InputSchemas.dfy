/** The input schema of a `user_input` step, and its JSON-Schema-like dictionary form. */
module InputSchemas {
  import opened Wrappers

  const VALID_FIELD_TYPES := {"string", "number", "boolean", "array"}

  datatype InputField<J> = InputField(
    name: string, kind: string, caption: string, description: Option<string>, required: bool, default: Option<J>,
    choices: Option<seq<string>>, nullable: bool, minLength: Option<int>, maxLength: Option<int>,
    minValue: Option<real>, maxValue: Option<real>)

  datatype InputSchema<J> = InputSchema(fields: seq<InputField<J>>, title: string, description: string)

  /** One property's dictionary; `None` is an absent key. */
  datatype Property<J> = Property(
    kind: Option<string>, title: Option<string>, description: Option<string>, default: Option<J>,
    choices: Option<seq<string>>, nullable: Option<bool>, minLength: Option<int>, maxLength: Option<int>,
    minValue: Option<real>, maxValue: Option<real>)

  datatype Entry<J> = Entry(name: string, property: Property<J>)

  /** The whole dictionary, with its properties in insertion order. */
  datatype Raw<J> = Empty | Dict(properties: seq<Entry<J>>, required: seq<string>, title: Option<string>,
                                 description: Option<string>)

  datatype SchemaError = UnsupportedType(kind: string)

  // ---------------------------------------------------------------- printing

  function PropertyOf<J>(f: InputField<J>): Property<J> {
    Property(Some(f.kind), if f.caption != "" && f.caption != f.name then Some(f.caption) else None,
             f.description, f.default, f.choices, if f.nullable then Some(true) else None, f.minLength, f.maxLength,
                 f.minValue, f.maxValue)
  }

  /** Assignment to a dictionary key: a key already present keeps its place. */
  function Put<J>(entries: seq<Entry<J>>, e: Entry<J>): seq<Entry<J>> {
    if |entries| == 0 then [e]
    else if entries[0].name == e.name then [e] + entries[1..]
    else [entries[0]] + Put(entries[1..], e)
  }

  function Properties<J>(fields: seq<InputField<J>>): seq<Entry<J>> {
    if |fields| == 0 then []
    else
      var last := fields[|fields| - 1];
      Put(Properties(fields[..|fields| - 1]), Entry(last.name, PropertyOf(last)))
  }

  function Required<J>(fields: seq<InputField<J>>): seq<string> {
    if |fields| == 0 then []
    else
      var last := fields[|fields| - 1];
      Required(fields[..|fields| - 1]) + (if last.required then [last.name] else [])
  }

  function NonEmpty(s: string): Option<string> {
    if s == "" then None else Some(s)
  }

  function ToDict<J>(s: InputSchema<J>): Raw<J> {
    if s.fields == [] then Empty
    else Dict(Properties(s.fields), Required(s.fields), NonEmpty(s.title), NonEmpty(s.description))
  }

  // ---------------------------------------------------------------- parsing

  function FieldOf<J>(e: Entry<J>, required: seq<string>): InputField<J> {
    var p := e.property;
    InputField(e.name, p.kind.GetOr("string"), p.title.GetOr(e.name), p.description, e.name in required, p.default,
               p.choices, p.nullable.GetOr(false), p.minLength, p.maxLength, p.minValue, p.maxValue)
  }

  function Fields<J>(entries: seq<Entry<J>>, required: seq<string>): Result<seq<InputField<J>>, SchemaError> {
    if |entries| == 0 then Ok([])
    else
      match Fields(entries[..|entries| - 1], required)
      case Err(e) => Err(e)
      case Ok(fields) =>
        var f := FieldOf(entries[|entries| - 1], required);
        if f.kind in VALID_FIELD_TYPES then Ok(fields + [f]) else Err(UnsupportedType(f.kind))
  }

  function FromDict<J>(raw: Raw<J>): Result<InputSchema<J>, SchemaError> {
    match raw
    case Empty => Ok(InputSchema([], "", ""))
    case Dict(properties, required, title, description) =>
      match Fields(properties, required)
      case Err(e) => Err(e)
      case Ok(fields) => Ok(InputSchema(fields, title.GetOr(""), description.GetOr("")))
  }

  // ---------------------------------------------------------------- the loops

  method PrintSchema<J>(s: InputSchema<J>) returns (raw: Raw<J>)
    ensures raw == ToDict(s)
  {
    hide Put, PropertyOf;
    if |s.fields| == 0 { return Empty; }
    var required, properties := [], [];
    for i := 0 to |s.fields|
      invariant required == Required(s.fields[..i]) && properties == Properties(s.fields[..i])
    {
      var f := s.fields[i];
      assert s.fields[..i + 1][..i] == s.fields[..i];
      if f.required { required := required + [f.name]; }
      properties := Put(properties, Entry(f.name, PropertyOf(f)));
    }
    assert s.fields[..|s.fields|] == s.fields;
    raw := Dict(properties, required, NonEmpty(s.title), NonEmpty(s.description));
  }

  method ParseSchema<J>(raw: Raw<J>) returns (r: Result<InputSchema<J>, SchemaError>)
    ensures r == FromDict(raw)
  {
    hide FieldOf, VALID_FIELD_TYPES;
    if raw.Empty? { return Ok(InputSchema([], "", "")); }
    var fields := [];
    for i := 0 to |raw.properties|
      invariant Fields(raw.properties[..i], raw.required) == Ok(fields)
    {
      var f := FieldOf(raw.properties[i], raw.required);
      assert raw.properties[..i + 1][..i] == raw.properties[..i];
      if f.kind !in VALID_FIELD_TYPES {
        FirstBadTypeWins(raw.properties, raw.required, i + 1);
        return Err(UnsupportedType(f.kind));
      }
      fields := fields + [f];
    }
    assert raw.properties[..|raw.properties|] == raw.properties;
    r := Ok(InputSchema(fields, raw.title.GetOr(""), raw.description.GetOr("")));
  }

  lemma {:induction false} FirstBadTypeWins<J>(entries: seq<Entry<J>>, required: seq<string>, n: nat)
    requires n <= |entries| && Fields(entries[..n], required).Err?
    ensures Fields(entries, required) == Fields(entries[..n], required)
  {
    hide FieldOf, VALID_FIELD_TYPES;
    if n == |entries| {
      assert entries[..n] == entries;
    } else {
      assert entries[..|entries| - 1][..n] == entries[..n];
      FirstBadTypeWins(entries[..|entries| - 1], required, n);
    }
  }

  // ---------------------------------------------------------------- round trips

  ghost predicate DistinctNames<J>(fields: seq<InputField<J>>) {
    forall i, j :: 0 <= i < j < |fields| ==> fields[i].name != fields[j].name
  }

  /** What the constructor of a field guarantees. */
  predicate ValidFields<J>(fields: seq<InputField<J>>) {
    forall i :: 0 <= i < |fields| ==> fields[i].kind in VALID_FIELD_TYPES
  }

  /** An empty label is read back as the name. */
  function Labelled<J>(f: InputField<J>): InputField<J> {
    f.(caption := if f.caption == "" then f.name else f.caption)
  }

  ghost predicate Has<J>(entries: seq<Entry<J>>, name: string) {
    exists i :: 0 <= i < |entries| && entries[i].name == name
  }

  ghost predicate Named<J>(fields: seq<InputField<J>>, name: string) {
    exists i :: 0 <= i < |fields| && fields[i].name == name
  }

  lemma {:induction false} PutKeys<J>(entries: seq<Entry<J>>, e: Entry<J>, name: string)
    ensures Has(Put(entries, e), name) <==> name == e.name || Has(entries, name)
    ensures |Put(entries, e)| == |entries| + (if Has(entries, e.name) then 0 else 1)
    ensures !Has(entries, e.name) ==> Put(entries, e) == entries + [e]
  {
    if |entries| == 0 {
      assert [e][0].name == e.name;
    } else {
      PutKeys(entries[1..], e, name);
      HeadOrTail(entries, name);
      HeadOrTail(entries, e.name);
      HeadOrTail(Put(entries, e), name);
      if entries[0].name != e.name {
        assert Put(entries, e)[1..] == Put(entries[1..], e);
      }
    }
  }

  lemma HeadOrTail<J>(entries: seq<Entry<J>>, name: string)
    requires |entries| > 0
    ensures Has(entries, name) <==> entries[0].name == name || Has(entries[1..], name)
  {
    if Has(entries, name) && entries[0].name != name {
      var i :| 0 <= i < |entries| && entries[i].name == name;
      assert entries[1..][i - 1].name == name;
    }
    if Has(entries[1..], name) {
      var i :| 0 <= i < |entries| - 1 && entries[1..][i].name == name;
      assert entries[i + 1].name == name;
    }
  }

  lemma {:induction false} PropertyKeys<J>(fields: seq<InputField<J>>, name: string)
    ensures Has(Properties(fields), name) <==> Named(fields, name)
  {
    if |fields| > 0 {
      var n := |fields| - 1;
      PropertyKeys(fields[..n], name);
      PutKeys(Properties(fields[..n]), Entry(fields[n].name, PropertyOf(fields[n])), name);
      if Named(fields, name) && fields[n].name != name {
        var i :| 0 <= i < |fields| && fields[i].name == name;
        assert fields[..n][i].name == name;
      }
    }
  }

  /** One property per field exactly when no two fields share a name; then in the same order. */
  lemma {:induction false} PropertiesMirrorFields<J>(fields: seq<InputField<J>>)
    ensures |Properties(fields)| <= |fields|
    ensures |Properties(fields)| == |fields| <==> DistinctNames(fields)
    ensures DistinctNames(fields) ==>
              forall i :: 0 <= i < |fields| ==> Properties(fields)[i] == Entry(fields[i].name, PropertyOf(fields[i]))
  {
    if |fields| > 0 {
      hide PropertyOf, Put, DistinctNames, Named, Has;
      var n := |fields| - 1;
      var init, e := fields[..n], Entry(fields[n].name, PropertyOf(fields[n]));
      PropertiesMirrorFields(init);
      PropertyKeys(init, fields[n].name);
      PutKeys(Properties(init), e, e.name);
      LastNameIsNew(fields);
    } else {
      assert DistinctNames(fields);
    }
  }

  lemma LastNameIsNew<J>(fields: seq<InputField<J>>)
    requires |fields| > 0
    ensures var n := |fields| - 1;
            DistinctNames(fields) <==> DistinctNames(fields[..n]) && !Named(fields[..n], fields[n].name)
  {
    var n := |fields| - 1;
    var init := fields[..n];
    if !DistinctNames(init) {
      var i, j :| 0 <= i < j < |init| && init[i].name == init[j].name;
      assert fields[i].name == fields[j].name;
    } else if Named(init, fields[n].name) {
      var i :| 0 <= i < |init| && init[i].name == fields[n].name;
      assert fields[i].name == fields[n].name;
    } else {
      forall i, j | 0 <= i < j < |fields| ensures fields[i].name != fields[j].name {
        assert init[i].name == fields[i].name;
      }
    }
  }

  lemma {:induction false} RequiredNames<J>(fields: seq<InputField<J>>, i: nat)
    requires DistinctNames(fields) && i < |fields|
    ensures fields[i].name in Required(fields) <==> fields[i].required
    ensures forall name :: name in Required(fields) ==> Named(fields, name)
  {
    var n := |fields| - 1;
    var init := fields[..n];
    if n > 0 {
      RequiredNames(init, if i < n then i else 0);
      forall name | name in Required(fields) ensures Named(fields, name) {
        if name in Required(init) {
          var k :| 0 <= k < |init| && init[k].name == name;
          assert fields[k].name == name;
        }
      }
    }
    assert !Named(init, fields[n].name);
  }

  /** A field survives printing and parsing, except that an empty label becomes the name. */
  lemma FieldComesBack<J>(f: InputField<J>, required: seq<string>)
    requires f.name in required <==> f.required
    ensures FieldOf(Entry(f.name, PropertyOf(f)), required) == Labelled(f)
    ensures PropertyOf(Labelled(f)) == PropertyOf(f)
  {
  }

  lemma {:induction false} FieldsComeBack<J>(entries: seq<Entry<J>>, required: seq<string>, fields: seq<InputField<J>>)
    requires |entries| == |fields| && ValidFields(fields)
    requires forall i :: 0 <= i < |fields| ==>
               entries[i] == Entry(fields[i].name, PropertyOf(fields[i]))
                   && (fields[i].name in required <==> fields[i].required)
    ensures Fields(entries, required).Ok? && |Fields(entries, required).value| == |fields|
    ensures forall i :: 0 <= i < |fields| ==> Fields(entries, required).value[i] == Labelled(fields[i])
  {
    hide VALID_FIELD_TYPES, PropertyOf, FieldOf;
    if |fields| > 0 {
      var n := |fields| - 1;
      FieldsComeBack(entries[..n], required, fields[..n]);
      FieldComesBack(fields[n], required);
    }
  }

  lemma {:induction false} FieldCount<J>(entries: seq<Entry<J>>, required: seq<string>)
    ensures Fields(entries, required).Ok? ==> |Fields(entries, required).value| == |entries|
  {
    if |entries| > 0 { FieldCount(entries[..|entries| - 1], required); }
  }

  /** What comes back from a schema with distinct names. */
  function Normal<J>(s: InputSchema<J>): InputSchema<J> {
    if s.fields == [] then InputSchema([], "", "")
    else s.(fields := seq(|s.fields|, i requires 0 <= i < |s.fields| => Labelled(s.fields[i])))
  }

  lemma DistinctNamesComeBack<J>(s: InputSchema<J>)
    requires ValidFields(s.fields) && DistinctNames(s.fields)
    ensures FromDict(ToDict(s)) == Ok(Normal(s))
  {
    hide PropertyOf, FieldOf, VALID_FIELD_TYPES, Labelled, Fields, Properties, Required;
    if s.fields != [] {
      PropertiesMirrorFields(s.fields);
      var required := Required(s.fields);
      forall i | 0 <= i < |s.fields| ensures s.fields[i].name in required <==> s.fields[i].required {
        RequiredNames(s.fields, i);
      }
      FieldsComeBack(Properties(s.fields), required, s.fields);
      assert Fields(Properties(s.fields), required).value == Normal(s).fields;
    }
  }

  /** The round trip is the identity exactly for schemas whose field names are distinct, whose
      labels are not empty (unless the name is), and which have no title or description without a
      field to carry them. */
  lemma RoundTripIff<J>(s: InputSchema<J>)
    requires ValidFields(s.fields)
    ensures FromDict(ToDict(s)) == Ok(s) <==>
            && DistinctNames(s.fields)
            && (forall i :: 0 <= i < |s.fields| ==> s.fields[i].caption != "" || s.fields[i].name == "")
            && (s.fields == [] ==> s.title == "" && s.description == "")
  {
    if DistinctNames(s.fields) {
      DistinctNamesComeBack(s);
      assert forall i :: 0 <= i < |s.fields| ==>
             (Labelled(s.fields[i]) == s.fields[i] <==> s.fields[i].caption != "" || s.fields[i].name == "");
      if s.fields != [] {
        assert Normal(s) == s <==> forall i :: 0 <= i < |s.fields| ==> Normal(s).fields[i] == s.fields[i];
      }
    } else {
      PropertiesMirrorFields(s.fields);
      FieldCount(Properties(s.fields), Required(s.fields));
    }
  }

  lemma {:induction false} LabelsDoNotShow<J>(a: seq<InputField<J>>, b: seq<InputField<J>>)
    requires |a| == |b| && forall i :: 0 <= i < |a| ==> b[i] == Labelled(a[i])
    ensures Properties(a) == Properties(b) && Required(a) == Required(b)
  {
    hide PropertyOf, Labelled;
    if |a| > 0 {
      var n := |a| - 1;
      LabelsDoNotShow(a[..n], b[..n]);
      LabelDoesNotShow(a[n]);
    }
  }

  lemma LabelDoesNotShow<J>(f: InputField<J>)
    ensures PropertyOf(Labelled(f)) == PropertyOf(f) && Labelled(f).name == f.name && Labelled(f).required == f.required
  {
  }

  /** One round trip loses nothing that the dictionary form shows. */
  lemma SecondPrintIsFirst<J>(s: InputSchema<J>)
    requires ValidFields(s.fields) && DistinctNames(s.fields)
    ensures FromDict(ToDict(s)).Ok? && ToDict(FromDict(ToDict(s)).value) == ToDict(s)
  {
    hide FromDict, Properties, Required, Labelled, PropertyOf;
    DistinctNamesComeBack(s);
    if s.fields != [] {
      LabelsDoNotShow(s.fields, Normal(s).fields);
    }
  }

  /** `f` is read from the property `p` called `name`: an absent type means a string, an absent title the
      name, an absent `nullable` no, and everything else is taken over. */
  ghost predicate ReadFrom<J>(f: InputField<J>, name: string, p: Property<J>, required: seq<string>) {
    && f.name == name && f.required == (name in required)
    && (p.kind == Some(f.kind) || (p.kind.None? && f.kind == "string"))
    && (p.title == Some(f.caption) || (p.title.None? && f.caption == name))
    && (p.nullable == Some(f.nullable) || (p.nullable.None? && !f.nullable))
    && f.description == p.description && f.default == p.default && f.choices == p.choices
    && f.minLength == p.minLength && f.maxLength == p.maxLength
    && f.minValue == p.minValue && f.maxValue == p.maxValue
  }

  predicate Supported<J>(p: Property<J>) {
    p.kind.None? || p.kind.value == "string" || p.kind.value == "number" || p.kind.value == "boolean"
    || p.kind.value == "array"
  }

  /** A schema parses exactly when every property's type is supported, and then to one field for each, in
      order; otherwise the first other type is reported. */
  lemma {:induction false} FieldsAreRead<J>(entries: seq<Entry<J>>, required: seq<string>)
    ensures var r := Fields(entries, required);
            && (r.Ok? <==> forall i :: 0 <= i < |entries| ==> Supported(entries[i].property))
            && (r.Ok? ==> |r.value| == |entries| && forall i :: 0 <= i < |entries| ==>
                            ReadFrom(r.value[i], entries[i].name, entries[i].property, required))
            && (r.Err? ==> exists i :: 0 <= i < |entries| && FirstUnsupported(entries, i, r.error.kind))
  {
    hide ReadFrom, FieldOf, Supported, VALID_FIELD_TYPES, FirstUnsupported;
    if |entries| > 0 {
      var n := |entries| - 1;
      FieldsAreRead(entries[..n], required);
      OneIsRead(entries[n], required);
      forall i | 0 <= i < n ensures entries[..n][i] == entries[i] {}
      if Fields(entries[..n], required).Err? {
        var i :| 0 <= i < n && FirstUnsupported(entries[..n], i, Fields(entries[..n], required).error.kind);
        StillFirst(entries, n, i, Fields(entries[..n], required).error.kind);
      } else if Fields(entries, required).Err? {
        LastIsFirst(entries, Fields(entries, required).error.kind);
      }
    }
  }

  ghost predicate FirstUnsupported<J>(entries: seq<Entry<J>>, i: nat, kind: string) {
    && i < |entries| && !Supported(entries[i].property) && entries[i].property.kind == Some(kind)
    && forall j :: 0 <= j < i ==> Supported(entries[j].property)
  }

  lemma OneIsRead<J>(e: Entry<J>, required: seq<string>)
    ensures ReadFrom(FieldOf(e, required), e.name, e.property, required)
    ensures FieldOf(e, required).kind in VALID_FIELD_TYPES <==> Supported(e.property)
    ensures !Supported(e.property) ==> e.property.kind == Some(FieldOf(e, required).kind)
  {
  }

  lemma StillFirst<J>(entries: seq<Entry<J>>, n: nat, i: nat, kind: string)
    requires n <= |entries| && FirstUnsupported(entries[..n], i, kind)
    ensures FirstUnsupported(entries, i, kind) && !Supported(entries[i].property)
  {
    forall j | 0 <= j < i ensures Supported(entries[j].property) { assert Supported(entries[..n][j].property); }
  }

  lemma LastIsFirst<J>(entries: seq<Entry<J>>, kind: string)
    requires |entries| > 0 && entries[|entries| - 1].property.kind == Some(kind)
    requires !Supported(entries[|entries| - 1].property)
    requires forall i :: 0 <= i < |entries| - 1 ==> Supported(entries[i].property)
    ensures FirstUnsupported(entries, |entries| - 1, kind)
  {
    forall j | 0 <= j < |entries| - 1 ensures Supported(entries[j].property) {
      assert entries[..|entries| - 1][j] == entries[j];
    }
  }

  /** The same of whole schemas; the empty dictionary is the schema without fields. */
  lemma SchemaIsRead<J>(raw: Raw<J>)
    ensures var r := FromDict(raw);
            && (raw.Empty? ==> r.Ok? && r.value.fields == [] && r.value.title == "" && r.value.description == "")
            && (raw.Dict? ==>
                  && (r.Ok? <==> forall i :: 0 <= i < |raw.properties| ==> Supported(raw.properties[i].property))
                  && (r.Err? ==> exists i :: 0 <= i < |raw.properties| && FirstUnsupported(raw.properties, i,
                        r.error.kind))
                  && (r.Ok? ==>
                        && r.value.title == raw.title.GetOr("") && r.value.description == raw.description.GetOr("")
                        && |r.value.fields| == |raw.properties|
                        && forall i :: 0 <= i < |raw.properties| ==>
                             ReadFrom(r.value.fields[i], raw.properties[i].name, raw.properties[i].property,
                                      raw.required)))
  {
    hide ReadFrom, Fields, Supported, FirstUnsupported;
    if raw.Dict? { FieldsAreRead(raw.properties, raw.required); }
  }
}
