/** The configuration classes of `src/bpytest/common/bpytest_config.py`:
    field help, the strict and the lenient pyproject loaders, and the JSON
    encoding `BpyTestConfig` uses to hand itself to the Blender process.
    The JSON document is the ordered key/value list `json.dumps` writes and
    `json.loads` reads back. */
module BpyConfig {
  import opened Strings
  import opened Seqs
  import opened Py
  import opened ConfigValues

  // The `help` metadata of each field.
  const HelpBlenderExeIdList := "List of blender executable ids to be used for the test session, "
    + "each specified ID will be used to find the corresponding env variable with the path to the blender executable. "
    + "e.g. 'blender_3_5' will look for the env variable 'BLENDER_3_5' and use its value as the path to the blender executable. "
    + "This is useful for testing multiple versions of blender in the same test session."
  const HelpEnvfile := "Path to the environment file"
  const HelpPythonDependencies := "List of python dependencies to be installed before running the tests, "
  const HelpIsolateInstallation := "If set to True, the test session will run in an isolated Blender environment "
    + "by duplicating the Blender installation folder and "
    + "using that duplicate during testing. "
    + "The duplicated folder will be removed after the test completes. "
    + "For Blender versions 4.2 and newer, a 'portable' "
    + "directory will be generated inside the installation path, "
    + "ensuring Blender starts with a completely clean configuration."
  const HelpPythonpath := "Path python cwd"
  const HelpLinkAddons := "List of addon directories to be linked and enabled before running the tests. "
  const HelpEnableAddons := "List of already installed add-ons to be enabled before running the tests. "
    + "If your add-on is already installed in the Blender installation that you will run the tests, "
    + "use this option to enable it. "
  const HelpNorecursedirs := "List of directories to be excluded from the test discovery, separated by commas. "
  const HelpInclude := "List of directories to be included in the test discovery, separated by commas. "
  const HelpCollectorString := "Test file or directory path"
  const HelpKeyword := "Run only tests that match the given keyword expression"
  const HelpNocapture := "Disables output capture,if True, the test output will be displayed in the console."

  const PackageLevelFields: seq<Field> := [
    Field("blender_exe_id_list", ListField, Some(HelpBlenderExeIdList)),
    Field("envfile", StrField, Some(HelpEnvfile)),
    Field("python_dependencies", ListField, Some(HelpPythonDependencies)),
    Field("isolate_installation", BoolField, Some(HelpIsolateInstallation))
  ]

  const BlenderLevelFields: seq<Field> := [
    Field("pythonpath", PathField, Some(HelpPythonpath)),
    Field("link_addons", ListField, Some(HelpLinkAddons)),
    Field("enable_addons", ListField, Some(HelpEnableAddons)),
    Field("norecursedirs", ListField, Some(HelpNorecursedirs)),
    Field("include", ListField, Some(HelpInclude))
  ]

  const SessionFields: seq<Field> := [
    Field("collector_string", StrField, Some(HelpCollectorString)),
    Field("keyword", StrField, Some(HelpKeyword)),
    Field("nocapture", BoolField, Some(HelpNocapture))
  ]

  /** `BpyTestConfig(SessionConfig, ConfigFileBlenderLevel)`: the dataclass
      collects the fields of the later base first. */
  const BpyFields: seq<Field> := BlenderLevelFields + SessionFields

  /** The class methods, which `hasattr` sees on every instance. */
  const ConfigMethods: set<string> := {"get_attr_help", "help", "load_from_pyproject_data"}

  /** `cls.__dataclass_fields__.get(attr)`. */
  function FindField(fields: seq<Field>, attr: string): (r: Option<Field>)
    ensures r.None? <==> forall k :: 0 <= k < |fields| ==> fields[k].name != attr
    ensures r.Some? ==> r.value.name == attr && r.value in fields
    ensures forall k :: 0 <= k < |fields| && fields[k].name == attr && (forall j :: 0 <= j < k ==> fields[j].name != attr) ==> r == Some(fields[k])
    decreases |fields|
  {
    if |fields| == 0 then None
    else if fields[0].name == attr then Some(fields[0])
    else
      var r := FindField(fields[1..], attr);
      assert forall k :: 1 <= k < |fields| ==> fields[k] == fields[1..][k - 1];
      r
  }

  /** `get_attr_help`: the field's help text, a general message for a field
      without one, and a message naming the attribute when there is no such
      field. */
  function GetAttrHelp(fields: seq<Field>, attr: string): (r: string)
    ensures (forall k :: 0 <= k < |fields| ==> fields[k].name != attr) ==> r == "No help available for " + attr
    ensures forall k :: 0 <= k < |fields| && fields[k].name == attr && (forall j :: 0 <= j < k ==> fields[j].name != attr) ==>
      r == (if fields[k].help.Some? then fields[k].help.value else "No help available")
  {
    match FindField(fields, attr)
    case None => "No help available for " + attr
    case Some(f) => if f.help.Some? then f.help.value else "No help available"
  }

  predicate UniqueNames(fields: seq<Field>) {
    forall i, j :: 0 <= i < j < |fields| ==> fields[i].name != fields[j].name
  }

  /** Every field of `BpyTestConfig` answers with its own help text. */
  lemma EveryFieldHasHelp(k: nat)
    requires k < |BpyFields|
    ensures BpyFields[k].help.Some?
    ensures GetAttrHelp(BpyFields, BpyFields[k].name) == BpyFields[k].help.value
  {
    assert UniqueNames(BpyFields);
  }

  // ----------------------------------------------------------------- loaders

  /** Assigning the pairs in order: `setattr` for each. */
  function Assign(obj: Attrs, data: seq<(string, CfgValue)>): (r: Attrs)
    ensures forall key :: key in r <==> key in obj || exists k :: 0 <= k < |data| && data[k].0 == key
    ensures forall key :: key in obj && (forall k :: 0 <= k < |data| ==> data[k].0 != key) ==> r[key] == obj[key]
    decreases |data|
  {
    if |data| == 0 then obj
    else
      assert forall k :: 1 <= k < |data| ==> data[k] == data[1..][k - 1];
      Assign(obj[data[0].0 := data[0].1], data[1..])
  }

  /** `hasattr(self, key)`: an instance attribute or a method. */
  predicate HasAttr(obj: Attrs, key: string) {
    key in obj || key in ConfigMethods
  }

  /** `_BaseConfigFile.load_from_pyproject_data`: every key must name an
      attribute; the first that does not raises `ValueError` naming the key
      and the class, with the assignments before it already made. */
  function StrictLoad(obj: Attrs, className: string, data: seq<(string, CfgValue)>): (r: Loaded)
    ensures r.error.None? <==> forall k :: 0 <= k < |data| ==> HasAttr(obj, data[k].0)
    ensures r.error.None? ==> r.obj == Assign(obj, data)
    ensures r.error.Some? ==> exists k :: (0 <= k < |data| && !HasAttr(obj, data[k].0)
      && r.error == Some(ValueError("Invalid attribute " + data[k].0 + " for " + className)))
    decreases |data|
  {
    if |data| == 0 then Loaded(obj, None)
    else if !HasAttr(obj, data[0].0) then Loaded(obj, Some(ValueError("Invalid attribute " + data[0].0 + " for " + className)))
    else
      var next := obj[data[0].0 := data[0].1];
      assert forall key :: HasAttr(next, key) <==> HasAttr(obj, key);
      assert forall k :: 1 <= k < |data| ==> data[k] == data[1..][k - 1];
      var r := StrictLoad(next, className, data[1..]);
      assert r.error.Some? ==> exists k :: (0 <= k < |data| && !HasAttr(obj, data[k].0)
        && r.error == Some(ValueError("Invalid attribute " + data[k].0 + " for " + className))) by {
        if r.error.Some? {
          var k :| 0 <= k < |data[1..]| && !HasAttr(next, data[1..][k].0)
            && r.error == Some(ValueError("Invalid attribute " + data[1..][k].0 + " for " + className));
          assert data[k + 1] == data[1..][k];
        }
      }
      r
  }

  /** A failing strict load stops at the first unknown key: the keys before
      it are assigned, the ones after it are not. */
  lemma {:induction false} StrictLoadStopsAtFirst(obj: Attrs, className: string, data: seq<(string, CfgValue)>, i: nat)
    requires i < |data|
    requires forall k :: 0 <= k < i ==> HasAttr(obj, data[k].0)
    requires !HasAttr(obj, data[i].0)
    ensures StrictLoad(obj, className, data)
         == Loaded(Assign(obj, data[..i]), Some(ValueError("Invalid attribute " + data[i].0 + " for " + className)))
    decreases i
  {
    if i > 0 {
      var next := obj[data[0].0 := data[0].1];
      assert forall key :: HasAttr(next, key) <==> HasAttr(obj, key);
      assert forall k :: 1 <= k < |data| ==> data[k] == data[1..][k - 1];
      StrictLoadStopsAtFirst(next, className, data[1..], i - 1);
      assert data[..i][1..] == data[1..][..i - 1];
    }
  }

  /** The keys `BpyTestConfig.load_from_pyproject_data` looks for: the
      fields of `SessionConfig`, then those of `ConfigFileBlenderLevel`. */
  const LenientKeys: seq<string> := FieldNames(SessionFields) + FieldNames(BlenderLevelFields)

  /** Setting `names[k]` from `data` for every name present there. */
  function AssignPresent(obj: Attrs, names: seq<string>, data: map<string, CfgValue>): (r: Attrs)
    ensures forall key :: key in r <==> key in obj || (key in data && key in names)
    ensures forall key :: key in r ==> r[key] == if key in data && key in names then data[key] else obj[key]
    decreases |names|
  {
    if |names| == 0 then obj
    else
      var next := if names[0] in data then obj[names[0] := data[names[0]]] else obj;
      var r := AssignPresent(next, names[1..], data);
      assert forall key :: key in names <==> key == names[0] || key in names[1..];
      r
  }

  /** `BpyTestConfig.load_from_pyproject_data`: only the keys of its own
      fields are read; every other key of the table is ignored and nothing
      is raised. */
  function LenientLoad(obj: Attrs, data: map<string, CfgValue>): (r: Attrs)
    ensures forall key :: key in r <==> key in obj || (key in data && key in LenientKeys)
    ensures forall key :: key in data && key in LenientKeys ==> r[key] == data[key]
    ensures forall key :: key in obj && (key !in data || key !in LenientKeys) ==> r[key] == obj[key]
  {
    AssignPresent(obj, LenientKeys, data)
  }

  /** The same pyproject key that the combined configuration skips makes
      the strict loader of `ConfigFileBlenderLevel` raise. */
  lemma PackageKeyRejectedOnlyByStrictLoader(obj: Attrs, value: CfgValue)
    requires "blender_exe_id_list" !in obj
    ensures LenientLoad(obj, map["blender_exe_id_list" := value]) == obj
    ensures StrictLoad(obj, "ConfigFileBlenderLevel", [("blender_exe_id_list", value)])
         == Loaded(obj, Some(ValueError("Invalid attribute " + "blender_exe_id_list" + " for " + "ConfigFileBlenderLevel")))
  {
    var key := "blender_exe_id_list";
    assert key !in LenientKeys by {
      assert LenientKeys == ["collector_string", "keyword", "nocapture", "pythonpath", "link_addons", "enable_addons", "norecursedirs", "include"];
    }
    var r := LenientLoad(obj, map[key := value]);
    assert r.Keys == obj.Keys;
    assert !HasAttr(obj, key);
  }

  // ----------------------------------------------------------- JSON encoding

  /** The names of `BpyTestConfig`'s fields, the keys of its `__dict__` in
      the order `__init__` assigned them. */
  const BpyNames: seq<string> := FieldNames(BpyFields)

  /** The `__dict__` of a `BpyTestConfig`: one entry per field.  No loader
      adds other keys: the lenient one sets fields only, and `deserialize`
      raises on any other key before setting it. */
  predicate IsConfigDict(obj: Attrs) {
    (forall key :: key in obj ==> key in BpyNames) && (forall k :: 0 <= k < |BpyNames| ==> BpyNames[k] in obj)
  }

  /** The values `json.loads` produces for this model. */
  predicate IsJson(v: CfgValue) {
    v.Text? || v.Flag? || v.Nothing? || v.Number? || v.Items?
  }

  /** What `serialize` writes for one attribute: the POSIX text of a
      `Path`, any other value as it is. */
  function JsonOf(v: CfgValue): CfgValue {
    if v.PathOf? then Text(v.posix) else v
  }

  /** `serialize`: a `Path` is written as its POSIX text, everything else
      as it is; an enum member is not JSON serialisable and makes
      `json.dumps` raise. */
  function Serialize(obj: Attrs): (r: Result<seq<(string, CfgValue)>, ConfigError>)
    requires IsConfigDict(obj)
    ensures r.Err? <==> exists k :: 0 <= k < |BpyNames| && obj[BpyNames[k]].Mode?
    ensures r.Err? ==> r.error.TypeError? && r.error.key in obj && obj[r.error.key].Mode?
    ensures r.Ok? ==> |r.value| == |BpyNames|
    ensures r.Ok? ==> forall k :: 0 <= k < |BpyNames| ==>
      r.value[k].0 == BpyNames[k] && IsJson(r.value[k].1)
      && r.value[k].1 == JsonOf(obj[BpyNames[k]])
  {
    SerializeFrom(obj, BpyNames)
  }

  function SerializeFrom(obj: Attrs, keys: seq<string>): (r: Result<seq<(string, CfgValue)>, ConfigError>)
    requires forall k :: 0 <= k < |keys| ==> keys[k] in obj
    ensures r.Err? <==> exists k :: 0 <= k < |keys| && obj[keys[k]].Mode?
    ensures r.Err? ==> r.error.TypeError? && r.error.key in obj && obj[r.error.key].Mode?
    ensures r.Ok? ==> |r.value| == |keys|
    ensures r.Ok? ==> forall k :: 0 <= k < |keys| ==>
      r.value[k].0 == keys[k] && IsJson(r.value[k].1)
      && r.value[k].1 == JsonOf(obj[keys[k]])
    decreases |keys|
  {
    if |keys| == 0 then Ok([])
    else
      var v := obj[keys[0]];
      if v.Mode? then Err(TypeError(keys[0]))
      else
        var rest := SerializeFrom(obj, keys[1..]);
        assert forall k :: 1 <= k < |keys| ==> keys[k] == keys[1..][k - 1];
        if rest.Err? then rest
        else Ok([(keys[0], JsonOf(v))] + rest.value)
  }

  /** The type name `deserialize` puts in its error message. */
  function TypeName(v: CfgValue): string {
    match v
    case Text(_) => "<class 'str'>"
    case Flag(_) => "<class 'bool'>"
    case Nothing => "<class 'NoneType'>"
    case Number(_) => "<class 'int'>"
    case Items(_) => "<class 'list'>"
    case PathOf(_) => "<class 'pathlib.PosixPath'>"
    case Mode(_) => "<enum 'RunnerType'>"
  }

  /** `field_type(value)`: the annotation called on the JSON value.  `Path`
      accepts only a string; `list[str]` accepts a list or a string (whose
      characters it lists); `bool` and `str` accept anything; an enum
      rejects values it does not have with `ValueError`, which is reported
      with the key; `Optional[Path]` cannot be called. */
  function Coerce(t: FieldType, key: string, v: CfgValue): (r: Result<CfgValue, ConfigError>)
    ensures r.Ok? && t == PathField ==> v.Text? && r.value == PathOf(v.s)
    ensures r.Ok? && t == ListField ==> r.value.Items?
    ensures t == BoolField ==> r == Ok(Flag(Truthy(v)))
    ensures t == StrField ==> r == Ok(Text(Str(v)))
    ensures r.Err? <==> (t == PathField && !v.Text?) || (t == ListField && !v.Items? && !v.Text?)
                        || (t == ModeField && !(v.Text? && IsRunnerType(v.s))) || t == OptionalPathField
    ensures r.Err? && r.error.ValueError? ==> t == ModeField
  {
    match t
    case PathField => if v.Text? then Ok(PathOf(v.s)) else Err(TypeError(key))
    case ListField =>
      if v.Items? then Ok(Items(v.items))
      else if v.Text? then Ok(Items(Chars(v.s)))
      else Err(TypeError(key))
    case BoolField => Ok(Flag(Truthy(v)))
    case StrField => Ok(Text(Str(v)))
    case ModeField =>
      if v.Text? && IsRunnerType(v.s) then Ok(Mode(v.s))
      else Err(ValueError("Invalid value for " + key + ": " + Str(v) + " (" + TypeName(v) + ")"))
    case OptionalPathField => Err(TypeError(key))
  }

  /** One entry of the JSON document: an unknown key raises `KeyError`
      (only `ValueError` is caught), otherwise the value is coerced. */
  function Decode(fields: seq<Field>, entry: (string, CfgValue)): (r: Result<CfgValue, ConfigError>)
    ensures FieldTypeOf(fields, entry.0).None? ==> r == Err(KeyError(entry.0))
    ensures FieldTypeOf(fields, entry.0).Some? ==> r == Coerce(FieldTypeOf(fields, entry.0).value, entry.0, entry.1)
  {
    match FieldTypeOf(fields, entry.0)
    case None => Err(KeyError(entry.0))
    case Some(t) => Coerce(t, entry.0, entry.1)
  }

  predicate DistinctKeys(data: seq<(string, CfgValue)>) {
    forall i, j :: 0 <= i < j < |data| ==> data[i].0 != data[j].0
  }

  /** `deserialize`: the entries are decoded and set in document order; the
      first one that fails stops the load with the entries before it set. */
  function Deserialize(fields: seq<Field>, obj: Attrs, data: seq<(string, CfgValue)>): (r: Loaded)
    ensures r.error.None? <==> forall k :: 0 <= k < |data| ==> Decode(fields, data[k]).Ok?
    ensures forall key :: key in obj && (forall k :: 0 <= k < |data| ==> data[k].0 != key) ==> key in r.obj && r.obj[key] == obj[key]
    ensures forall key :: key in r.obj ==> key in obj || exists k :: 0 <= k < |data| && data[k].0 == key
    decreases |data|
  {
    if |data| == 0 then Loaded(obj, None)
    else
      var d := Decode(fields, data[0]);
      if d.Err? then Loaded(obj, Some(d.error))
      else
        assert forall k :: 1 <= k < |data| ==> data[k] == data[1..][k - 1];
        Deserialize(fields, obj[data[0].0 := d.value], data[1..])
  }

  /** With distinct keys and no failure, every key of the document holds
      its decoded value. */
  lemma {:induction false} DeserializeSetsEvery(fields: seq<Field>, obj: Attrs, data: seq<(string, CfgValue)>)
    requires DistinctKeys(data)
    requires Deserialize(fields, obj, data).error.None?
    ensures forall k :: 0 <= k < |data| ==>
      data[k].0 in Deserialize(fields, obj, data).obj
      && Deserialize(fields, obj, data).obj[data[k].0] == Decode(fields, data[k]).value
    decreases |data|
  {
    if |data| > 0 {
      var next := obj[data[0].0 := Decode(fields, data[0]).value];
      var tail := data[1..];
      assert DistinctKeys(tail) by {
        forall i, j | 0 <= i < j < |tail| ensures tail[i].0 != tail[j].0 {
          assert tail[i] == data[i + 1] && tail[j] == data[j + 1];
        }
      }
      assert Deserialize(fields, obj, data) == Deserialize(fields, next, tail);
      DeserializeSetsEvery(fields, next, tail);
      forall k | 0 <= k < |tail| ensures tail[k].0 != data[0].0 {
        assert tail[k] == data[k + 1];
      }
      forall k | 1 <= k < |data| ensures data[k] == tail[k - 1] {
      }
    }
  }

  /** A failing load reports the first entry that does not decode, with
      that entry's own error. */
  lemma {:induction false} DeserializeFirstFailure(fields: seq<Field>, obj: Attrs, data: seq<(string, CfgValue)>)
    requires Deserialize(fields, obj, data).error.Some?
    ensures exists i :: (0 <= i < |data|
      && (forall k :: 0 <= k < i ==> Decode(fields, data[k]).Ok?)
      && Decode(fields, data[i]) == Err(Deserialize(fields, obj, data).error.value))
    decreases |data|
  {
    var e := Deserialize(fields, obj, data).error.value;
    var d := Decode(fields, data[0]);
    if d.Err? {
      assert Deserialize(fields, obj, data) == Loaded(obj, Some(d.error));
      assert Decode(fields, data[0]) == Err(e);
    } else {
      var next := obj[data[0].0 := d.value];
      var tail := data[1..];
      assert Deserialize(fields, obj, data) == Deserialize(fields, next, tail);
      DeserializeFirstFailure(fields, next, tail);
      var i :| 0 <= i < |tail| && (forall k :: 0 <= k < i ==> Decode(fields, tail[k]).Ok?)
        && Decode(fields, tail[i]) == Err(e);
      forall k | 0 <= k < i + 1 ensures Decode(fields, data[k]).Ok? {
        if k > 0 { assert data[k] == tail[k - 1]; }
      }
      assert data[i + 1] == tail[i];
    }
  }

  /** A value of the field's annotated type. */
  predicate HasType(t: FieldType, v: CfgValue) {
    match t
    case PathField => v.PathOf?
    case ListField => v.Items?
    case StrField => v.Text?
    case BoolField => v.Flag?
    case ModeField => v.Mode?
    case OptionalPathField => v.PathOf? || v.Nothing?
  }

  /** A `BpyTestConfig` whose attributes have their annotated types. */
  predicate WellTyped(obj: Attrs)
    requires IsConfigDict(obj)
  {
    forall k :: 0 <= k < |BpyFields| ==> HasType(BpyFields[k].ftype, obj[BpyNames[k]])
  }

  /** A field type whose values `serialize` writes and `deserialize`
      reads back unchanged. */
  predicate Transportable(t: FieldType) {
    t == PathField || t == ListField || t == StrField || t == BoolField
  }

  /** With unique names, a field's own name finds its own type. */
  lemma FieldTypeOfUnique(fields: seq<Field>, k: nat)
    requires UniqueNames(fields) && k < |fields|
    ensures FieldTypeOf(fields, fields[k].name) == Some(fields[k].ftype)
  {
  }

  /** The JSON form of a well-typed attribute decodes back to it. */
  lemma DecodeJsonOf(fields: seq<Field>, k: nat, v: CfgValue)
    requires UniqueNames(fields) && k < |fields|
    requires Transportable(fields[k].ftype) && HasType(fields[k].ftype, v)
    ensures Decode(fields, (fields[k].name, JsonOf(v))) == Ok(v)
  {
    FieldTypeOfUnique(fields, k);
  }

  lemma BpyFieldsShape()
    ensures UniqueNames(BpyFields)
    ensures forall j :: 0 <= j < |BpyFields| ==> Transportable(BpyFields[j].ftype)
  {
  }

  lemma SameAttrs(m: Attrs, obj: Attrs)
    requires forall key :: key in m ==> key in obj
    requires forall key :: key in obj ==> key in m && m[key] == obj[key]
    ensures m == obj
  {
  }

  /** The round trip for any table of transportable fields with unique
      names, and any document listing them in order. */
  lemma {:induction false} RoundTripFields(fields: seq<Field>, obj: Attrs, blank: Attrs, doc: seq<(string, CfgValue)>)
    requires UniqueNames(fields)
    requires forall key :: key in obj ==> exists k :: 0 <= k < |fields| && fields[k].name == key
    requires forall key :: key in blank ==> exists k :: 0 <= k < |fields| && fields[k].name == key
    requires forall k :: 0 <= k < |fields| ==> (fields[k].name in obj
      && Transportable(fields[k].ftype) && HasType(fields[k].ftype, obj[fields[k].name]))
    requires |doc| == |fields|
    requires forall k :: 0 <= k < |doc| ==> doc[k] == (fields[k].name, JsonOf(obj[fields[k].name]))
    ensures DistinctKeys(doc)
    ensures Deserialize(fields, blank, doc) == Loaded(obj, None)
  {
    forall k | 0 <= k < |doc| ensures Decode(fields, doc[k]) == Ok(obj[fields[k].name]) {
      DecodeJsonOf(fields, k, obj[fields[k].name]);
    }
    var r := Deserialize(fields, blank, doc);
    DeserializeSetsEvery(fields, blank, doc);
    assert forall key :: key in r.obj ==> key in obj by {
      forall key | key in r.obj ensures key in obj {
        if key !in blank {
          var k :| 0 <= k < |doc| && doc[k].0 == key;
          assert key == fields[k].name;
        } else {
          var k :| 0 <= k < |fields| && fields[k].name == key;
        }
      }
    }
    assert forall key :: key in obj ==> key in r.obj && r.obj[key] == obj[key] by {
      forall key | key in obj ensures key in r.obj && r.obj[key] == obj[key] {
        var k :| 0 <= k < |fields| && fields[k].name == key;
        assert doc[k].0 == key;
      }
    }
    SameAttrs(r.obj, obj);
  }

  /** A well-typed configuration serialises, one entry per field. */
  lemma SerializeWellTyped(obj: Attrs)
    requires IsConfigDict(obj) && WellTyped(obj)
    ensures Serialize(obj).Ok?
    ensures |Serialize(obj).value| == |BpyFields|
    ensures forall k :: 0 <= k < |BpyFields| ==>
      Serialize(obj).value[k] == (BpyFields[k].name, JsonOf(obj[BpyFields[k].name]))
  {
    forall k | 0 <= k < |BpyNames| ensures !obj[BpyNames[k]].Mode? {
      assert HasType(BpyFields[k].ftype, obj[BpyNames[k]]);
      BpyFieldsShape();
    }
  }

  /** The keys of a configuration `__dict__` are exactly the field names. */
  lemma ConfigDictKeys(obj: Attrs)
    requires IsConfigDict(obj)
    ensures forall key :: key in obj ==> exists k :: 0 <= k < |BpyFields| && BpyFields[k].name == key
    ensures forall k :: 0 <= k < |BpyFields| ==> BpyFields[k].name in obj
  {
    assert |BpyNames| == |BpyFields| && forall k :: 0 <= k < |BpyFields| ==> BpyNames[k] == BpyFields[k].name;
    forall key | key in obj ensures exists k :: 0 <= k < |BpyFields| && BpyFields[k].name == key {
      var k :| 0 <= k < |BpyNames| && BpyNames[k] == key;
    }
  }

  /** Serialising a well-typed configuration and deserialising the text
      into any other configuration reproduces every attribute. */
  lemma {:induction false} SerializeRoundTrip(obj: Attrs, blank: Attrs)
    requires IsConfigDict(obj) && WellTyped(obj) && IsConfigDict(blank)
    ensures Serialize(obj).Ok?
    ensures DistinctKeys(Serialize(obj).value)
    ensures Deserialize(BpyFields, blank, Serialize(obj).value) == Loaded(obj, None)
  {
    BpyFieldsShape();
    SerializeWellTyped(obj);
    ConfigDictKeys(obj);
    ConfigDictKeys(blank);
    WellTypedFields(obj);
    var doc := Serialize(obj).value;
    RoundTripFields(BpyFields, obj, blank, doc);
  }

  /** A well-typed configuration holds a value of its declared type under
      every field name. */
  lemma WellTypedFields(obj: Attrs)
    requires IsConfigDict(obj) && WellTyped(obj)
    ensures forall k :: 0 <= k < |BpyFields| ==> (BpyFields[k].name in obj
      && Transportable(BpyFields[k].ftype) && HasType(BpyFields[k].ftype, obj[BpyFields[k].name]))
  {
    BpyFieldsShape();
    assert forall k :: 0 <= k < |BpyFields| ==> BpyNames[k] == BpyFields[k].name;
  }
}
