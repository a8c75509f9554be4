/** Layered configuration: defaults, file, environment, overrides, each validated, then merged. */
module ConfigSystem {
  import opened Wrappers

  datatype Value = Bool(b: bool) | Int(i: int) | Str(s: string) | List(items: seq<Value>) |
      Dict(entries: map<string, Value>) | Other

  datatype FieldType = BoolType | IntType | StrType(validValues: Option<seq<string>>) |
      ListType(itemValidValues: Option<seq<string>>)

  datatype FieldDef = FieldDef(kind: FieldType, default: Value)

  type Schema = map<string, map<string, FieldDef>>

  /** What the code relies on in its schema table: section names are plain words, no field is named
      like a section, and every default passes its own check. */
  ghost predicate GoodSchema(schema: Schema) {
    && (forall sec :: sec in schema ==> sec != "" && '.' !in sec)
    && (forall sec, f :: sec in schema && f in schema[sec] ==> f !in schema)
    && (forall sec, f :: sec in schema && f in schema[sec] ==> FieldOk(schema[sec][f], schema[sec][f].default))
  }

  // ---------------------------------------------------------------- validation

  predicate FieldOk(def: FieldDef, v: Value) {
    match def.kind
    case BoolType => v.Bool?
    case IntType => v.Int?
    case StrType(valid) => v.Str? && (valid.Some? ==> v.s in valid.value)
    case ListType(valid) =>
      v.List? && (valid.Some? ==> forall i :: 0 <= i < |v.items| ==> v.items[i].Str? && v.items[i].s in valid.value)
  }

  function Path(path: string, key: string): string {
    if path == "" then key else path + "." + key
  }

  /** Whether `_validate_parsed` returns; a key that names a section is taken for one at any depth. */
  predicate Validated(schema: Schema, raw: Value, path: string)
    requires raw.Dict?
    decreases raw
  {
    forall key :: key in raw.entries ==>
      if key in schema then raw.entries[key].Dict? && Validated(schema, raw.entries[key], Path(path, key))
      else path in schema && key in schema[path] && FieldOk(schema[path][key], raw.entries[key])
  }

  // ---------------------------------------------------------------- layers

  function Defaults(schema: Schema): (r: Value)
    ensures r.Dict?
  {
    Dict(map sec | sec in schema :: Dict(map f | f in schema[sec] :: schema[sec][f].default))
  }

  function Get(entries: map<string, Value>, key: string): Option<Value> {
    if key in entries then Some(entries[key]) else None
  }

  /** Overlays recursively where both sides are dictionaries. */
  function Merge(base: Value, overlay: Value): (r: Value)
    requires base.Dict? && overlay.Dict?
    ensures r.Dict?
    decreases overlay, 0
  {
    Dict(map key | key in base.entries.Keys + overlay.entries.Keys ::
           if key in overlay.entries then MergeEntry(Get(base.entries, key), overlay.entries[key])
           else base.entries[key])
  }

  function MergeEntry(before: Option<Value>, v: Value): Value
    decreases v, 1
  {
    if before.Some? && before.value.Dict? && v.Dict? then Merge(before.value, v) else v
  }

  /** What is read of a file: sections that are dictionaries, and of those the known fields. */
  function FileLayer(schema: Schema, data: map<string, Value>): (r: Value)
    ensures r.Dict?
  {
    Dict(map sec | sec in schema && sec in data && data[sec].Dict? ::
           Dict(map f | f in schema[sec] && f in data[sec].entries :: data[sec].entries[f]))
  }

  /** Which variables are set, and how their text is read. */
  datatype Environment = Environment(variable: (string, string) -> Option<string>,
                                     parse: (FieldDef, string) -> Option<Value>)

  predicate IsSet(schema: Schema, env: Environment, sec: string, f: string) {
    sec in schema && f in schema[sec] && env.variable(sec, f).Some?
  }

  /** `None` when a variable cannot be read as its field's type. */
  function EnvLayer(schema: Schema, env: Environment): (r: Option<Value>)
    ensures r.Some? ==> r.value.Dict?
  {
    if exists sec, f :: sec in schema && f in schema[sec] && IsSet(schema, env, sec, f)
                        && env.parse(schema[sec][f], env.variable(sec, f).value).None?
    then None
    else Some(Dict(map sec | sec in schema && (exists f :: f in schema[sec] && IsSet(schema, env, sec, f)) ::
                     Dict(map f | f in schema[sec] && IsSet(schema, env, sec, f) ::
                            env.parse(schema[sec][f], env.variable(sec, f).value).value)))
  }

  /** An override under its two-part key. */
  datatype Target = Target(section: string, field: string)

  function SectionsOf(overrides: map<Target, Value>): set<string> {
    set t | t in overrides :: t.section
  }

  function FieldsOf(overrides: map<Target, Value>, sec: string): set<string> {
    set t | t in overrides && t.section == sec :: t.field
  }

  function OverrideLayer(overrides: map<Target, Value>): (r: Value)
    ensures r.Dict?
  {
    Dict(map sec | sec in SectionsOf(overrides) ::
           Dict(map f | f in FieldsOf(overrides, sec) && Target(sec, f) in overrides :: overrides[Target(sec, f)]))
  }

  function Overlay(schema: Schema, base: Value, layer: Value): Option<Value>
    requires base.Dict? && layer.Dict?
  {
    if Validated(schema, layer, "") then Some(Merge(base, layer)) else None
  }

  function LoadConfig(schema: Schema, file: Option<map<string, Value>>, env: Environment,
                      overrides: map<Target, Value>): (r: Option<Value>)
    ensures r.Some? ==> r.value.Dict?
  {
    var withFile := if file.None? then Some(Defaults(schema))
        else Overlay(schema, Defaults(schema), FileLayer(schema, file.value));
    if withFile.None? then None
    else
      var layer := EnvLayer(schema, env);
      if layer.None? then None
      else
        var withEnv := Overlay(schema, withFile.value, layer.value);
        if withEnv.None? then None
        else Overlay(schema, withEnv.value, OverrideLayer(overrides))
  }

  // ---------------------------------------------------------------- per-key reading

  function Lookup(v: Value, sec: string, f: string): Option<Value> {
    if v.Dict? && sec in v.entries && v.entries[sec].Dict? && f in v.entries[sec].entries
    then Some(v.entries[sec].entries[f]) else None
  }

  /** Every field of the schema is present with a value its check accepts. */
  ghost predicate Complete(schema: Schema, v: Value) {
    v.Dict? && forall sec, f :: sec in schema && f in schema[sec] ==>
        Lookup(v, sec, f).Some? && FieldOk(schema[sec][f], Lookup(v, sec, f).value)
  }

  ghost predicate HasSections(schema: Schema, v: Value) {
    v.Dict? && v.entries.Keys == schema.Keys && forall sec :: sec in schema ==> v.entries[sec].Dict?
  }

  lemma MergeAt(base: Value, overlay: Value, key: string)
    requires base.Dict? && overlay.Dict?
    ensures key in Merge(base, overlay).entries <==> key in base.entries || key in overlay.entries
    ensures key in overlay.entries ==>
              Merge(base, overlay).entries[key]
              == MergeEntry(Get(base.entries, key), overlay.entries[key])
    ensures key in base.entries && key !in overlay.entries ==> Merge(base, overlay).entries[key] == base.entries[key]
  {
    hide MergeEntry;
  }

  lemma MergeReads(base: Value, overlay: Value, sec: string, f: string)
    requires base.Dict? && overlay.Dict? && sec in base.entries && base.entries[sec].Dict?
    requires sec in overlay.entries ==> overlay.entries[sec].Dict?
    requires Lookup(base, sec, f).Some? && Lookup(overlay, sec, f).Some? ==> !Lookup(base, sec, f).value.Dict?
    ensures Lookup(Merge(base, overlay), sec, f) == if Lookup(overlay, sec, f).Some? then Lookup(overlay, sec, f)
            else Lookup(base, sec, f)
  {
    hide Merge;
    MergeAt(base, overlay, sec);
    if sec in overlay.entries { MergeAt(base.entries[sec], overlay.entries[sec], f); }
  }

  lemma MergeSections(schema: Schema, base: Value, overlay: Value)
    requires HasSections(schema, base) && overlay.Dict?
    requires forall sec :: sec in overlay.entries ==> sec in schema && overlay.entries[sec].Dict?
    ensures HasSections(schema, Merge(base, overlay))
  {
    hide Merge;
    forall sec ensures sec in Merge(base, overlay).entries <==> sec in schema
               ensures sec in schema ==> Merge(base, overlay).entries[sec].Dict? {
      MergeAt(base, overlay, sec);
    }
    assert Merge(base, overlay).entries.Keys == schema.Keys;
  }

  lemma ValidatedSections(schema: Schema, layer: Value)
    requires GoodSchema(schema) && layer.Dict? && Validated(schema, layer, "")
    ensures forall sec :: sec in layer.entries ==>
            sec in schema && layer.entries[sec].Dict? && Validated(schema, layer.entries[sec], sec)
  {
  }

  /** A validated layer keeps the configuration complete, and wins where it has a value. */
  lemma OverlayKeeps(schema: Schema, base: Value, layer: Value)
    requires GoodSchema(schema) && Complete(schema, base) && HasSections(schema, base)
    requires layer.Dict? && Validated(schema, layer, "")
    ensures Complete(schema, Merge(base, layer)) && HasSections(schema, Merge(base, layer))
    ensures forall sec, f :: sec in schema && f in schema[sec] ==>
              Lookup(Merge(base, layer), sec, f) == if Lookup(layer, sec, f).Some? then Lookup(layer, sec, f)
                  else Lookup(base, sec, f)
  {
    hide Merge, Validated, Lookup;
    ValidatedSections(schema, layer);
    MergeSections(schema, base, layer);
    forall sec, f | sec in schema && f in schema[sec]
      ensures Lookup(Merge(base, layer), sec, f) == if Lookup(layer, sec, f).Some? then Lookup(layer, sec, f)
              else Lookup(base, sec, f)
      ensures Lookup(layer, sec, f).Some? ==> FieldOk(schema[sec][f], Lookup(layer, sec, f).value)
    {
      KnownFieldIsOk(schema, base, sec, f);
      LayerFieldIsOk(schema, layer, sec, f);
      MergeReads(base, layer, sec, f);
    }
  }

  lemma KnownFieldIsOk(schema: Schema, base: Value, sec: string, f: string)
    requires Complete(schema, base) && sec in schema && f in schema[sec]
    ensures Lookup(base, sec, f).Some? && !Lookup(base, sec, f).value.Dict?
  {
  }

  lemma LayerFieldIsOk(schema: Schema, layer: Value, sec: string, f: string)
    requires GoodSchema(schema) && layer.Dict? && Validated(schema, layer, "") && sec in schema && f in schema[sec]
    ensures Lookup(layer, sec, f).Some? ==> FieldOk(schema[sec][f], Lookup(layer, sec, f).value)
  {
    ValidatedSections(schema, layer);
  }

  lemma DefaultsAreComplete(schema: Schema)
    requires GoodSchema(schema)
    ensures Complete(schema, Defaults(schema)) && HasSections(schema, Defaults(schema))
    ensures forall sec, f :: sec in schema && f in schema[sec] ==>
            Lookup(Defaults(schema), sec, f) == Some(schema[sec][f].default)
  {
    forall sec, f | sec in schema && f in schema[sec]
      ensures Lookup(Defaults(schema), sec, f) == Some(schema[sec][f].default)
              && FieldOk(schema[sec][f], schema[sec][f].default) {
    }
  }

  // ---------------------------------------------------------------- what is accepted

  /** A layer that holds only known fields is accepted exactly when each value passes its check. */
  lemma KnownLayerIff(schema: Schema, layer: Value)
    requires GoodSchema(schema) && layer.Dict?
    requires forall sec :: sec in layer.entries ==>
             sec in schema && layer.entries[sec].Dict? && layer.entries[sec].entries.Keys <= schema[sec].Keys
    ensures Validated(schema, layer, "") <==>
            forall sec, f :: sec in layer.entries && f in layer.entries[sec].entries ==>
                FieldOk(schema[sec][f], layer.entries[sec].entries[f])
  {
    forall sec | sec in layer.entries
      ensures Validated(schema, layer.entries[sec], sec) <==>
              forall f :: f in layer.entries[sec].entries ==> FieldOk(schema[sec][f], layer.entries[sec].entries[f])
    {
      assert forall f :: f in layer.entries[sec].entries ==> f in schema[sec] && f !in schema;
    }
  }

  /** Nested dictionaries of section names with nothing at the bottom. */
  predicate Skeleton(schema: Schema, v: Value) {
    v.Dict? && forall key :: key in v.entries ==> key in schema && Skeleton(schema, v.entries[key])
  }

  /** Below a section no field can be reached, because no section is named by a dotted path. */
  lemma {:induction false} NestedIsSkeleton(schema: Schema, v: Value, path: string)
    requires GoodSchema(schema) && v.Dict? && '.' in path
    ensures Validated(schema, v, path) <==> Skeleton(schema, v)
    decreases v
  {
    forall key | key in v.entries && v.entries[key].Dict?
      ensures Validated(schema, v.entries[key], Path(path, key)) <==> Skeleton(schema, v.entries[key])
    {
      assert Path(path, key)[..|path|] == path;
      NestedIsSkeleton(schema, v.entries[key], Path(path, key));
    }
  }

  /** The intended override is a known field with a valid value. The code also takes one whose field
      is itself a section name, when its value is a skeleton. */
  predicate OverrideOk(schema: Schema, t: Target, v: Value) {
    t.section in schema &&
    if t.field in schema then Skeleton(schema, v)
    else t.field in schema[t.section] && FieldOk(schema[t.section][t.field], v)
  }

  lemma OverrideLayerReads(overrides: map<Target, Value>, sec: string, f: string)
    ensures Lookup(OverrideLayer(overrides), sec, f) == if Target(sec, f) in overrides then
            Some(overrides[Target(sec, f)]) else None
    ensures sec in OverrideLayer(overrides).entries <==> exists t :: t in overrides && t.section == sec
    ensures sec in OverrideLayer(overrides).entries ==> OverrideLayer(overrides).entries[sec].Dict?
  {
  }

  lemma OverridesAcceptedIff(schema: Schema, overrides: map<Target, Value>)
    requires GoodSchema(schema)
    ensures Validated(schema, OverrideLayer(overrides), "")
            <==> forall t :: t in overrides ==> OverrideOk(schema, t, overrides[t])
  {
    hide OverrideLayer, Validated, Skeleton, FieldOk;
    var layer := OverrideLayer(overrides);
    if Validated(schema, layer, "") {
      forall t | t in overrides ensures OverrideOk(schema, t, overrides[t]) {
        OverrideLayerReads(overrides, t.section, t.field);
        ValidatedOverride(schema, layer, t.section, t.field);
      }
    }
    if forall t :: t in overrides ==> OverrideOk(schema, t, overrides[t]) {
      forall sec | sec in layer.entries
        ensures sec in schema && layer.entries[sec].Dict? && Validated(schema, layer.entries[sec], sec)
      {
        OverrideLayerReads(overrides, sec, "");
        forall f | f in layer.entries[sec].entries
            ensures OverrideOk(schema, Target(sec, f), layer.entries[sec].entries[f]) {
          OverrideLayerReads(overrides, sec, f);
        }
        OkSectionIsValidated(schema, layer.entries[sec], sec);
      }
      SectionsAreValidated(schema, layer);
    }
  }

  lemma ValidatedOverride(schema: Schema, layer: Value, sec: string, f: string)
    requires GoodSchema(schema) && layer.Dict? && Validated(schema, layer, "") && Lookup(layer, sec, f).Some?
    ensures OverrideOk(schema, Target(sec, f), Lookup(layer, sec, f).value)
  {
    hide Skeleton;
    ValidatedSections(schema, layer);
    var v := Lookup(layer, sec, f).value;
    if f in schema { NestedIsSkeleton(schema, v, Path(sec, f)); }
  }

  lemma OkSectionIsValidated(schema: Schema, v: Value, sec: string)
    requires GoodSchema(schema) && sec in schema && v.Dict?
    requires forall f :: f in v.entries ==> OverrideOk(schema, Target(sec, f), v.entries[f])
    ensures Validated(schema, v, sec)
  {
    forall f | f in v.entries && f in schema
        ensures v.entries[f].Dict? && Validated(schema, v.entries[f], Path(sec, f)) {
      assert Skeleton(schema, v.entries[f]);
      NestedIsSkeleton(schema, v.entries[f], Path(sec, f));
    }
  }

  lemma SectionsAreValidated(schema: Schema, layer: Value)
    requires layer.Dict?
    requires forall sec :: sec in layer.entries ==>
             sec in schema && layer.entries[sec].Dict? && Validated(schema, layer.entries[sec], sec)
    ensures Validated(schema, layer, "")
  {
  }

  // ---------------------------------------------------------------- the whole load

  /** What each source says about one field. */
  function FromFile(file: Option<map<string, Value>>, sec: string, f: string): Option<Value> {
    if file.Some? then Lookup(Dict(file.value), sec, f) else None
  }

  function FromEnv(schema: Schema, env: Environment, sec: string, f: string): Option<Value> {
    if IsSet(schema, env, sec, f) then env.parse(schema[sec][f], env.variable(sec, f).value) else None
  }

  lemma FileLayerReads(schema: Schema, data: map<string, Value>, sec: string, f: string)
    requires sec in schema && f in schema[sec]
    ensures Lookup(FileLayer(schema, data), sec, f) == Lookup(Dict(data), sec, f)
  {
  }

  lemma EnvLayerReads(schema: Schema, env: Environment, sec: string, f: string)
    requires EnvLayer(schema, env).Some? && sec in schema && f in schema[sec]
    ensures EnvLayer(schema, env).value.Dict?
    ensures Lookup(EnvLayer(schema, env).value, sec, f) == FromEnv(schema, env, sec, f)
  {
  }

  /** Every field of a loaded configuration has the value of the last source that sets it, and that
      value passes the field's check. */
  lemma LoadIsPrecedence(schema: Schema, file: Option<map<string, Value>>, env: Environment,
                         overrides: map<Target, Value>, sec: string, f: string)
    requires GoodSchema(schema) && sec in schema && f in schema[sec]
    ensures LoadConfig(schema, file, env, overrides).Some? ==>
            var r := Lookup(LoadConfig(schema, file, env, overrides).value, sec, f);
            && r == Some(if Target(sec, f) in overrides then overrides[Target(sec, f)]
                         else if FromEnv(schema, env, sec, f).Some? then FromEnv(schema, env, sec, f).value
                         else if FromFile(file, sec, f).Some? then FromFile(file, sec, f).value
                         else schema[sec][f].default)
            && FieldOk(schema[sec][f], r.value)
  {
    hide Merge, Validated, Lookup, Defaults, FileLayer, EnvLayer, OverrideLayer, FieldOk;
    if LoadConfig(schema, file, env, overrides).None? { return; }
    var base := Defaults(schema);
    DefaultsAreComplete(schema);
    if file.Some? {
      var layer := FileLayer(schema, file.value);
      FileLayerReads(schema, file.value, sec, f);
      OverlayKeeps(schema, base, layer);
      base := Merge(base, layer);
    }
    assert Lookup(base, sec, f) ==
           Some(if FromFile(file, sec, f).Some? then FromFile(file, sec, f).value else schema[sec][f].default);
    var layer := EnvLayer(schema, env).value;
    EnvLayerReads(schema, env, sec, f);
    OverlayKeeps(schema, base, layer);
    OverrideLayerReads(overrides, sec, f);
    OverlayKeeps(schema, Merge(base, layer), OverrideLayer(overrides));
  }

  /** Every value a file or a variable gives for a known field passes that field's check. */
  ghost predicate FileOk(schema: Schema, file: Option<map<string, Value>>) {
    forall sec, f :: sec in schema && f in schema[sec] && FromFile(file, sec, f).Some? ==>
                       FieldOk(schema[sec][f], FromFile(file, sec, f).value)
  }

  ghost predicate EnvOk(schema: Schema, env: Environment) {
    forall sec, f :: IsSet(schema, env, sec, f) ==>
                       FromEnv(schema, env, sec, f).Some? && FieldOk(schema[sec][f], FromEnv(schema, env, sec, f).value)
  }

  lemma FileAcceptedIff(schema: Schema, data: map<string, Value>)
    requires GoodSchema(schema)
    ensures Validated(schema, FileLayer(schema, data), "") <==> FileOk(schema, Some(data))
  {
    hide Validated, FieldOk;
    var layer := FileLayer(schema, data);
    KnownLayerIff(schema, layer);
    forall sec, f | sec in schema && f in schema[sec]
      ensures Lookup(layer, sec, f) == FromFile(Some(data), sec, f) {
      FileLayerReads(schema, data, sec, f);
    }
    if Validated(schema, layer, "") {
      forall sec, f | sec in schema && f in schema[sec] && FromFile(Some(data), sec, f).Some?
        ensures FieldOk(schema[sec][f], FromFile(Some(data), sec, f).value) {
        assert f in layer.entries[sec].entries;
      }
    }
  }

  lemma EnvAcceptedIff(schema: Schema, env: Environment)
    requires GoodSchema(schema)
    ensures EnvLayer(schema, env).Some? && Validated(schema, EnvLayer(schema, env).value, "") <==> EnvOk(schema, env)
  {
    hide Validated, FieldOk;
    if EnvLayer(schema, env).Some? {
      var layer := EnvLayer(schema, env).value;
      KnownLayerIff(schema, layer);
      forall sec, f | sec in schema && f in schema[sec]
        ensures Lookup(layer, sec, f) == FromEnv(schema, env, sec, f) {
        EnvLayerReads(schema, env, sec, f);
      }
      if Validated(schema, layer, "") {
        forall sec, f | IsSet(schema, env, sec, f)
          ensures FromEnv(schema, env, sec, f).Some? && FieldOk(schema[sec][f], FromEnv(schema, env, sec, f).value) {
          assert f in layer.entries[sec].entries;
        }
      }
    }
  }

  /** Loading succeeds exactly when every source's values for known fields pass their checks, every
      set variable can be read, and every override is acceptable. */
  lemma LoadAcceptedIff(schema: Schema, file: Option<map<string, Value>>, env: Environment,
                        overrides: map<Target, Value>)
    requires GoodSchema(schema)
    ensures LoadConfig(schema, file, env, overrides).Some? <==>
            && FileOk(schema, file) && EnvOk(schema, env)
            && forall t :: t in overrides ==> OverrideOk(schema, t, overrides[t])
  {
    hide Merge, Validated, Defaults, FileLayer, EnvLayer, OverrideLayer, FieldOk, OverrideOk, IsSet;
    if file.Some? { FileAcceptedIff(schema, file.value); }
    EnvAcceptedIff(schema, env);
    OverridesAcceptedIff(schema, overrides);
  }

  /** A value of the kind a field asks for, and among the values it lists. */
  ghost predicate Suits(kind: FieldType, v: Value) {
    && (kind == BoolType <==> v.Bool?)
    && (kind == IntType <==> v.Int?)
    && (kind.StrType? <==> v.Str?)
    && (kind.ListType? <==> v.List?)
    && !v.Dict? && !v.Other?
    && (forall valid :: kind == StrType(Some(valid)) ==> v.s in valid)
    && (forall valid, x :: kind == ListType(Some(valid)) && x in v.items ==> exists t :: x == Str(t) && t in valid)
  }

  lemma ChecksSuitability(def: FieldDef, v: Value)
    ensures FieldOk(def, v) <==> Suits(def.kind, v)
  {
    if FieldOk(def, v) && def.kind.ListType? && def.kind.itemValidValues.Some? {
      forall x | x in v.items ensures exists t :: x == Str(t) && t in def.kind.itemValidValues.value {
        var i :| 0 <= i < |v.items| && v.items[i] == x;
        assert x == Str(x.s);
      }
    }
    if Suits(def.kind, v) && def.kind.ListType? && def.kind.itemValidValues.Some? {
      forall i | 0 <= i < |v.items| ensures v.items[i].Str? && v.items[i].s in def.kind.itemValidValues.value {
        assert v.items[i] in v.items;
      }
    }
  }

  /** Every field of a loaded configuration holds a value of its kind, one of those listed if any are. */
  lemma LoadedValuesSuit(schema: Schema, file: Option<map<string, Value>>, env: Environment,
                         overrides: map<Target, Value>, sec: string, f: string)
    requires GoodSchema(schema) && sec in schema && f in schema[sec]
    requires LoadConfig(schema, file, env, overrides).Some?
    ensures var r := Lookup(LoadConfig(schema, file, env, overrides).value, sec, f);
            r.Some? && Suits(schema[sec][f].kind, r.value)
  {
    hide LoadConfig, FieldOk, Suits, GoodSchema, FromFile, FromEnv;
    LoadIsPrecedence(schema, file, env, overrides, sec, f);
    ChecksSuitability(schema[sec][f], Lookup(LoadConfig(schema, file, env, overrides).value, sec, f).value);
  }

  /** And a field can be overridden by exactly such values. */
  lemma OverrideNeedsSuitableValue(schema: Schema, file: Option<map<string, Value>>, env: Environment,
                                   sec: string, f: string, v: Value)
    requires GoodSchema(schema) && sec in schema && f in schema[sec]
    requires LoadConfig(schema, file, env, map[]).Some?
    ensures LoadConfig(schema, file, env, map[Target(sec, f) := v]).Some? <==> Suits(schema[sec][f].kind, v)
  {
    hide LoadConfig, FieldOk, Suits, FileOk, EnvOk;
    LoadAcceptedIff(schema, file, env, map[]);
    LoadAcceptedIff(schema, file, env, map[Target(sec, f) := v]);
    ChecksSuitability(schema[sec][f], v);
    assert map[Target(sec, f) := v][Target(sec, f)] == v;
  }

  // ---------------------------------------------------------------- nothing else gets in

  lemma MergedKeys(base: Value, overlay: Value, sec: string, key: string)
    requires base.Dict? && overlay.Dict? && sec in base.entries && base.entries[sec].Dict?
    requires sec in overlay.entries ==> overlay.entries[sec].Dict?
    ensures var m := Merge(base, overlay);
            && sec in m.entries && m.entries[sec].Dict?
            && (key in m.entries[sec].entries <==>
                key in base.entries[sec].entries || (sec in overlay.entries && key in overlay.entries[sec].entries))
  {
    hide Merge;
    MergeAt(base, overlay, sec);
    if sec in overlay.entries { MergeAt(base.entries[sec], overlay.entries[sec], key); }
  }

  lemma EnvKeys(schema: Schema, env: Environment, sec: string, key: string)
    requires EnvLayer(schema, env).Some? && sec in schema && sec in EnvLayer(schema, env).value.entries
    ensures var v := EnvLayer(schema, env).value.entries[sec]; v.Dict? && (key in v.entries ==> key in schema[sec])
  {
  }

  /** A loaded section holds the fields of the schema, and besides them only the skeletons that
      overrides named after sections put there. */
  lemma LoadedKeys(schema: Schema, file: Option<map<string, Value>>, env: Environment, overrides: map<Target, Value>,
                   sec: string, key: string)
    requires GoodSchema(schema) && sec in schema
    ensures LoadConfig(schema, file, env, overrides).Some? ==>
            var r := LoadConfig(schema, file, env, overrides).value;
            && sec in r.entries && r.entries[sec].Dict?
            && (key in r.entries[sec].entries
                <==> key in schema[sec] || (key in schema && Target(sec, key) in overrides))
  {
    hide Merge, Validated, Lookup, EnvLayer, OverrideLayer, FieldOk, IsSet;
    if LoadConfig(schema, file, env, overrides).None? { return; }
    DefaultsAreComplete(schema);
    var base := Defaults(schema);
    if file.Some? {
      ValidatedSections(schema, FileLayer(schema, file.value));
      MergedKeys(base, FileLayer(schema, file.value), sec, key);
      OverlayKeeps(schema, base, FileLayer(schema, file.value));
      base := Merge(base, FileLayer(schema, file.value));
    }
    var layer := EnvLayer(schema, env).value;
    ValidatedSections(schema, layer);
    if sec in layer.entries { EnvKeys(schema, env, sec, key); }
    MergedKeys(base, layer, sec, key);
    OverlayKeeps(schema, base, layer);
    var last := OverrideLayer(overrides);
    ValidatedSections(schema, last);
    OverridesAcceptedIff(schema, overrides);
    OverrideHas(overrides, sec, key);
    MergedKeys(Merge(base, layer), last, sec, key);
  }

  lemma OverrideHas(overrides: map<Target, Value>, sec: string, key: string)
    ensures var v := OverrideLayer(overrides);
            (sec in v.entries && v.entries[sec].Dict? && key in v.entries[sec].entries)
                <==> Target(sec, key) in overrides
  {
    OverrideLayerReads(overrides, sec, key);
  }

  /** The merge under way: the keys in `todo` are still as in `base`. */
  ghost predicate MergedSoFar(base: Value, overlay: Value, entries: map<string, Value>, todo: set<string>)
    requires base.Dict? && overlay.Dict?
  {
    && todo <= overlay.entries.Keys
    && forall k :: Get(entries, k) == if k in todo then Get(base.entries, k) else Get(Merge(base, overlay).entries, k)
  }

  lemma MergeStarts(base: Value, overlay: Value)
    requires base.Dict? && overlay.Dict?
    ensures MergedSoFar(base, overlay, base.entries, overlay.entries.Keys)
  {
    hide Merge, MergeEntry;
    forall k ensures Get(base.entries, k) == if k in overlay.entries.Keys then Get(base.entries, k)
        else Get(Merge(base, overlay).entries, k) {
      MergeAt(base, overlay, k);
    }
  }

  lemma MergeAdvances(base: Value, overlay: Value, entries: map<string, Value>, todo: set<string>, key: string)
    requires base.Dict? && overlay.Dict? && MergedSoFar(base, overlay, entries, todo) && key in todo
    ensures MergedSoFar(base, overlay, entries[key := MergeEntry(Get(entries, key), overlay.entries[key])],
                        todo - {key})
  {
    hide Merge, MergeEntry;
    MergeAt(base, overlay, key);
    var after := entries[key := MergeEntry(Get(entries, key), overlay.entries[key])];
    forall k ensures Get(after, k) == if k in todo - {key} then Get(base.entries, k)
        else Get(Merge(base, overlay).entries, k) {
      if k != key { assert Get(after, k) == Get(entries, k); }
    }
  }

  lemma MergeEnds(base: Value, overlay: Value, entries: map<string, Value>)
    requires base.Dict? && overlay.Dict? && MergedSoFar(base, overlay, entries, {})
    ensures Dict(entries) == Merge(base, overlay)
  {
    hide Merge;
    var all := Merge(base, overlay).entries;
    forall k ensures (k in entries <==> k in all) && (k in entries ==> entries[k] == all[k]) {
      assert Get(entries, k) == Get(all, k);
    }
    assert entries == all;
  }

  /** The merge as the program does it, key by key. */
  method MergeDict(base: Value, overlay: Value) returns (merged: Value)
    requires base.Dict? && overlay.Dict?
    ensures merged == Merge(base, overlay)
    decreases overlay, 0
  {
    hide Merge, MergeEntry, MergedSoFar;
    var entries, todo := base.entries, overlay.entries.Keys;
    MergeStarts(base, overlay);
    while todo != {}
      invariant todo <= overlay.entries.Keys && MergedSoFar(base, overlay, entries, todo)
      decreases |todo|
    {
      var key :| key in todo;
      var entry := MergeOne(Get(entries, key), overlay.entries[key]);
      MergeAdvances(base, overlay, entries, todo, key);
      entries, todo := entries[key := entry], todo - {key};
    }
    MergeEnds(base, overlay, entries);
    merged := Dict(entries);
  }

  method MergeOne(before: Option<Value>, v: Value) returns (merged: Value)
    ensures merged == MergeEntry(before, v)
    decreases v, 1
  {
    if before.Some? && before.value.Dict? && v.Dict? {
      merged := MergeDict(before.value, v);
    } else {
      merged := v;
    }
  }

  /** The recursive validator as the program runs it, key by key. */
  method ValidateParsed(schema: Schema, raw: Value, path: string) returns (ok: bool)
    requires raw.Dict?
    ensures ok == Validated(schema, raw, path)
    decreases raw
  {
    hide FieldOk;
    var todo := raw.entries.Keys;
    while todo != {}
      invariant todo <= raw.entries.Keys
      invariant forall key :: key in raw.entries && key !in todo ==>
                  if key in schema then raw.entries[key].Dict? && Validated(schema, raw.entries[key], Path(path, key))
                  else path in schema && key in schema[path] && FieldOk(schema[path][key], raw.entries[key])
      decreases |todo|
    {
      var key :| key in todo;
      todo := todo - {key};
      if key in schema {
        if !raw.entries[key].Dict? { return false; }
        var nested := ValidateParsed(schema, raw.entries[key], Path(path, key));
        if !nested { return false; }
      } else if path !in schema || key !in schema[path] || !FieldOk(schema[path][key], raw.entries[key]) {
        return false;
      }
    }
    ok := true;
  }

  /** The load as the program runs it: each present layer is validated, then merged in. */
  method Load(schema: Schema, file: Option<map<string, Value>>, env: Environment,
              overrides: map<Target, Value>) returns (r: Option<Value>)
    ensures r == LoadConfig(schema, file, env, overrides)
  {
    hide Merge, Validated, EnvLayer, OverrideLayer, FileLayer, Defaults;
    var merged := Defaults(schema);
    if file.Some? {
      var layer := FileLayer(schema, file.value);
      var ok := ValidateParsed(schema, layer, "");
      if !ok { return None; }
      merged := MergeDict(merged, layer);
    }
    var fromEnv := EnvLayer(schema, env);
    if fromEnv.None? { return None; }
    if fromEnv.value.entries != map[] {
      var ok := ValidateParsed(schema, fromEnv.value, "");
      if !ok { return None; }
      merged := MergeDict(merged, fromEnv.value);
    } else {
      EmptyLayer(schema, merged, fromEnv.value);
    }
    var last := OverrideLayer(overrides);
    if last.entries != map[] {
      var ok := ValidateParsed(schema, last, "");
      if !ok { return None; }
      merged := MergeDict(merged, last);
    } else {
      EmptyLayer(schema, merged, last);
    }
    r := Some(merged);
  }

  /** Skipping an empty layer is the same as merging it. */
  lemma EmptyLayer(schema: Schema, base: Value, layer: Value)
    requires base.Dict? && layer.Dict? && layer.entries == map[]
    ensures Validated(schema, layer, "") && Merge(base, layer) == base
  {
    assert Merge(base, layer).entries == base.entries;
  }

  // ---------------------------------------------------------------- an override that should not load

  lemma OneOverride(sec: string, f: string, v: Value)
    ensures forall t :: t in map[Target(sec, f) := v] <==> t == Target(sec, f)
  {
  }

  /** An override the documentation calls unknown loads: the name of any section as a field, with an
      empty dictionary, which then stands in the configuration as a field of no schema. */
  lemma SectionAsFieldLoads(schema: Schema, file: Option<map<string, Value>>, env: Environment, sec: string,
                            other: string)
    requires GoodSchema(schema) && sec in schema && other in schema
    ensures other !in schema[sec]
    ensures LoadConfig(schema, file, env, map[Target(sec, other) := Dict(map[])]).Some?
            <==> FileOk(schema, file) && EnvOk(schema, env)
    ensures FileOk(schema, file) && EnvOk(schema, env) ==>
              var r := LoadConfig(schema, file, env, map[Target(sec, other) := Dict(map[])]).value;
              sec in r.entries && r.entries[sec].Dict? && other in r.entries[sec].entries
  {
    hide LoadConfig, FileOk, EnvOk, GoodSchema;
    var overrides := map[Target(sec, other) := Dict(map[])];
    FieldsAreNoSections(schema, sec, other);
    LoadAcceptedIff(schema, file, env, overrides);
    OneOverride(sec, other, Dict(map[]));
    assert Target(sec, other) in overrides && overrides[Target(sec, other)] == Dict(map[]);
    LoadedKeys(schema, file, env, overrides, sec, other);
  }

  lemma FieldsAreNoSections(schema: Schema, sec: string, other: string)
    requires GoodSchema(schema) && sec in schema && other in schema
    ensures other !in schema[sec]
  {
  }

  // ---------------------------------------------------------------- the schema of the program

  datatype Row = Row(field: string, def: FieldDef)

  function Fields(rows: seq<Row>): map<string, FieldDef> {
    if |rows| == 0 then map[] else Fields(rows[..|rows| - 1])[rows[|rows| - 1].field := rows[|rows| - 1].def]
  }

  const LOGGING := [Row("level",
                        FieldDef(StrType(Some(["debug", "info", "warning", "error", "critical"])), Str("info")))]
  const METRICS := [Row("enabled", FieldDef(BoolType, Bool(true))),
                    Row("exporter", FieldDef(StrType(Some(["none", "stdout", "prometheus"])), Str("stdout")))]
  const QUEUES := [Row("defaultdepthlimit", FieldDef(IntType, Int(1000)))]
  const WORKERS := [Row("count", FieldDef(IntType, Int(4))),
                    Row("heartbeatintervalms", FieldDef(IntType, Int(5000))),
                    Row("heartbeattimeoutms", FieldDef(IntType, Int(15000)))]
  const ALERTS := [Row("transports", FieldDef(ListType(Some(["slack", "smtp", "file", "none"])), List([Str("none")])))]
  const AUTH := [Row("enabled", FieldDef(BoolType, Bool(false))), Row("token", FieldDef(StrType(None), Str("")))]
  const RATE_LIMIT := [Row("enabled", FieldDef(BoolType, Bool(false))),
                       Row("maxrequestsper_minute", FieldDef(IntType, Int(60)))]
  const DECOMPOSITION := [Row("max_depth", FieldDef(IntType, Int(2))),
                          Row("max_children", FieldDef(IntType, Int(8))),
                          Row("default_timeout_seconds", FieldDef(IntType, Int(300))),
                          Row("default_max_retries", FieldDef(IntType, Int(2))),
                          Row("max_concurrent_subtasks", FieldDef(IntType, Int(16))),
                          Row("merge_strategy",
                              FieldDef(StrType(Some(["concat", "summarize_llm", "select_best", "custom"])),
                                       Str("concat"))),
                          Row("dag_validation_enabled", FieldDef(BoolType, Bool(true))),
                          Row("fan_out_batch_size", FieldDef(IntType, Int(4))),
                          Row("fan_in_poll_interval_ms", FieldDef(IntType, Int(500))),
                          Row("continuation_timeout_seconds", FieldDef(IntType, Int(600))),
                          Row("pool_size", FieldDef(IntType, Int(2)))]

  const SECTIONS: set<string> :=
      {"logging", "metrics", "queues", "workers", "alerts", "auth", "rate_limit", "decomposition"}

  /** The rows of one section. */
  function Rows(sec: string): seq<Row> {
    if sec == "logging" then LOGGING
    else if sec == "metrics" then METRICS
    else if sec == "queues" then QUEUES
    else if sec == "workers" then WORKERS
    else if sec == "alerts" then ALERTS
    else if sec == "auth" then AUTH
    else if sec == "rate_limit" then RATE_LIMIT
    else DECOMPOSITION
  }

  function ProgramSchema(): Schema {
    map sec | sec in SECTIONS :: Fields(Rows(sec))
  }

  ghost predicate GoodRow(row: Row) {
    row.field !in SECTIONS && FieldOk(row.def, row.def.default)
  }

  lemma {:induction false} FieldsComeFromRows(rows: seq<Row>, f: string)
    requires f in Fields(rows)
    ensures exists i :: 0 <= i < |rows| && rows[i].field == f && rows[i].def == Fields(rows)[f]
  {
    var n := |rows| - 1;
    if rows[n].field != f {
      FieldsComeFromRows(rows[..n], f);
      var i :| 0 <= i < n && rows[..n][i].field == f && rows[..n][i].def == Fields(rows[..n])[f];
      assert rows[i].field == f;
    }
  }

  lemma LoggingIsGood()
    ensures forall i :: 0 <= i < |LOGGING| ==> GoodRow(LOGGING[i])
  {
    assert ["debug", "info", "warning", "error", "critical"][1] == "info";
  }

  lemma MetricsIsGood()
    ensures forall i :: 0 <= i < |METRICS| ==> GoodRow(METRICS[i])
  {
    assert ["none", "stdout", "prometheus"][1] == "stdout";
    assert GoodRow(METRICS[0]);
    assert GoodRow(METRICS[1]);
  }

  lemma QueuesAndWorkersAreGood()
    ensures forall i :: 0 <= i < |QUEUES| ==> GoodRow(QUEUES[i])
    ensures forall i :: 0 <= i < |WORKERS| ==> GoodRow(WORKERS[i])
  {
    assert GoodRow(WORKERS[0]);
    assert GoodRow(WORKERS[1]);
    assert GoodRow(WORKERS[2]);
  }

  lemma AlertsAndAuthAreGood()
    ensures forall i :: 0 <= i < |ALERTS| ==> GoodRow(ALERTS[i])
    ensures forall i :: 0 <= i < |AUTH| ==> GoodRow(AUTH[i])
  {
    assert ["slack", "smtp", "file", "none"][3] == "none";
    assert GoodRow(AUTH[0]);
    assert GoodRow(AUTH[1]);
  }

  lemma RateLimitIsGood()
    ensures forall i :: 0 <= i < |RATE_LIMIT| ==> GoodRow(RATE_LIMIT[i])
  {
    assert GoodRow(RATE_LIMIT[0]);
    assert GoodRow(RATE_LIMIT[1]);
  }

  lemma DecompositionIsGood(i: nat)
    requires i < |DECOMPOSITION|
    ensures GoodRow(DECOMPOSITION[i])
  {
    assert ["concat", "summarize_llm", "select_best", "custom"][0] == "concat";
  }

  lemma RowsAreGood(sec: string, i: nat)
    requires sec in SECTIONS && i < |Rows(sec)|
    ensures GoodRow(Rows(sec)[i])
  {
    hide GoodRow, LOGGING, METRICS, QUEUES, WORKERS, ALERTS, AUTH, RATE_LIMIT, DECOMPOSITION, SECTIONS;
    LoggingIsGood();
    MetricsIsGood();
    QueuesAndWorkersAreGood();
    AlertsAndAuthAreGood();
    RateLimitIsGood();
    if Rows(sec) == DECOMPOSITION { DecompositionIsGood(i); }
  }

  lemma SectionsArePlain(sec: string)
    requires sec in SECTIONS
    ensures sec != "" && '.' !in sec
  {
  }

  lemma ProgramFieldIsGood(sec: string, f: string)
    requires sec in ProgramSchema() && f in ProgramSchema()[sec]
    ensures f !in ProgramSchema()
    ensures FieldOk(ProgramSchema()[sec][f], ProgramSchema()[sec][f].default)
  {
    hide Rows, SECTIONS, Fields, FieldOk;
    FieldsComeFromRows(Rows(sec), f);
    var i: nat :| i < |Rows(sec)| && Rows(sec)[i].field == f && Rows(sec)[i].def == Fields(Rows(sec))[f];
    RowsAreGood(sec, i);
  }

  /** The table in the program meets every assumption made of a schema here. */
  lemma ProgramSchemaIsGood()
    ensures GoodSchema(ProgramSchema())
  {
    var schema: Schema := ProgramSchema();
    hide ProgramSchema, FieldOk;
    forall sec | sec in schema ensures sec != "" && '.' !in sec { ProgramSections(sec); }
    forall sec, f | sec in schema && f in schema[sec] ensures f !in schema { ProgramFieldIsGood(sec, f); }
    forall sec: string, f: string | sec in schema && f in schema[sec]
        ensures FieldOk(schema[sec][f], schema[sec][f].default) {
      ProgramFieldIsGood(sec, f);
    }
  }

  lemma ProgramSections(sec: string)
    requires sec in ProgramSchema()
    ensures sec != "" && '.' !in sec
  {
    hide SECTIONS;
    SectionsArePlain(sec);
  }
}
