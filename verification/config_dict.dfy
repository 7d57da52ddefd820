/** The string-dictionary codec of `BpyTestConfig` in `core/entity.py` and
    `src/bpytest/main.py`: `as_dict` turns every attribute into a string,
    `load_from_dict` turns such strings back into values, trying the
    literals `"True"`, `"False"`, `"None"` and the `[...]` list form before
    the field's own type.  `main.py` additionally makes `blender_exe` a
    `Path` whatever its text, and adds the command-line merge. */
module ConfigDict {
  import opened Strings
  import opened Seqs
  import opened Py
  import opened ConfigValues

  /** The fields of `BpyTestConfig` in `core/entity.py`. */
  const CoreFields: seq<Field> := [
    Field("pythonpath", PathField, None),
    Field("nocapture", BoolField, None),
    Field("toggle_console", BoolField, None),
    Field("module_list", StrField, None),
    Field("runner_type", ModeField, None),
    Field("blender_exe", PathField, None),
    Field("norecursedirs", ListField, None),
    Field("collector_string", StrField, None),
    Field("keyword", StrField, None)
  ]

  /** The fields of `BpyTestConfig` in `src/bpytest/main.py`. */
  const MainFields: seq<Field> := [
    Field("pythonpath", PathField, None),
    Field("nocapture", BoolField, None),
    Field("module_list", StrField, None),
    Field("blender_exe", OptionalPathField, None),
    Field("norecursedirs", ListField, None),
    Field("include", ListField, None),
    Field("collector_string", StrField, None),
    Field("keyword", StrField, None)
  ]

  /** The methods of both classes, which `hasattr` also sees. */
  const Methods: set<string> := {"load_from_dict", "load_from_pyproject_toml", "as_dict", "as_json"}

  /** The key `main.py` always decodes as a `Path`. */
  const PathKey := "blender_exe"

  /** `hasattr(self, key)`. */
  predicate HasAttr(obj: Attrs, key: string) {
    key in obj || key in Methods
  }

  /** A value `load_from_dict` decodes as a literal or a list before looking
      at the field. */
  predicate Special(s: string) {
    s == "True" || s == "False" || s == "None" || (StartsWith(s, "[") && EndsWith(s, "]"))
  }

  /** `field_type(value)` for a string value. */
  function Convert(t: FieldType, key: string, value: string): (r: Result<CfgValue, ConfigError>)
    ensures r.Err? <==> (t == ModeField && !IsRunnerType(value)) || t == OptionalPathField
  {
    match t
    case PathField => Ok(PathOf(value))
    case BoolField => Ok(Flag(value != ""))
    case StrField => Ok(Text(value))
    case ListField => Ok(Items(Chars(value)))
    case ModeField =>
      if IsRunnerType(value) then Ok(Mode(value))
      else Err(ValueError("'" + value + "' is not a valid RunnerType"))
    case OptionalPathField => Err(TypeError(key))
  }

  /** The list form: drop the brackets, split at every comma, remove every
      single quote and strip each piece. */
  function ParseList(value: string): (r: seq<string>)
    requires |value| >= 2
    ensures |r| >= 1
  {
    var parts := Split(value[1..|value| - 1], ",");
    seq(|parts|, k requires 0 <= k < |parts| => Strip(Replace(parts[k], "'", "")))
  }

  /** One step of `load_from_dict`; `pathKey` is the key decoded as a
      `Path` up front (`main.py`), if any. */
  function DecodeEntry(fields: seq<Field>, obj: Attrs, key: string, value: string, pathKey: Option<string>)
    : (r: Result<Attrs, ConfigError>)
    ensures r.Ok? ==> r.value.Keys <= obj.Keys + {key}
    ensures r.Ok? ==> forall k :: k in obj && k != key ==> k in r.value && r.value[k] == obj[k]
    ensures r.Err? ==> HasAttr(obj, key) && !Special(value) && pathKey != Some(key)
    ensures !HasAttr(obj, key) && !Special(value) && pathKey != Some(key) ==> r == Ok(obj)
  {
    if pathKey == Some(key) then Ok(obj[key := PathOf(value)])
    else if value == "True" then Ok(obj[key := Flag(true)])
    else if value == "False" then Ok(obj[key := Flag(false)])
    else if value == "None" then Ok(obj[key := Nothing])
    else if StartsWith(value, "[") && EndsWith(value, "]") then
      BracketedLength(value);
      Ok(obj[key := Items(ParseList(value))])
    else if HasAttr(obj, key) then
      match FieldTypeOf(fields, key)
      case None => Err(KeyError(key))
      case Some(t) =>
        match Convert(t, key, value)
        case Err(e) => Err(e)
        case Ok(v) => Ok(obj[key := v])
    else Ok(obj)
  }

  lemma BracketedLength(value: string)
    requires StartsWith(value, "[") && EndsWith(value, "]")
    ensures |value| >= 2
  {
    assert value[0] == '[' by { assert value[..1][0] == value[0]; }
    assert value[|value| - 1] == ']' by { assert value[|value| - 1..][0] == value[|value| - 1]; }
  }

  /** `load_from_dict`: decode the entries in order; an exception stops the
      loop with the earlier assignments applied. */
  function LoadFromDict(fields: seq<Field>, obj: Attrs, data: seq<(string, string)>, pathKey: Option<string>)
    : (r: Loaded)
    ensures r.obj.Keys <= obj.Keys + set k | 0 <= k < |data| :: data[k].0
    ensures forall key :: key in obj && (forall k :: 0 <= k < |data| ==> data[k].0 != key) ==> key in r.obj && r.obj[key] == obj[key]
    decreases |data|
  {
    if |data| == 0 then Loaded(obj, None)
    else match DecodeEntry(fields, obj, data[0].0, data[0].1, pathKey)
      case Err(e) => Loaded(obj, Some(e))
      case Ok(obj') =>
        var r := LoadFromDict(fields, obj', data[1..], pathKey);
        assert forall k :: 1 <= k < |data| ==> data[k] == data[1..][k - 1];
        r
  }

  /** `as_dict`, visiting the attributes in the order given: an enum member
      becomes its `.value`, everything else `str(value)`. */
  function AsDict(obj: Attrs, order: seq<string>): (r: seq<(string, string)>)
    requires forall k :: 0 <= k < |order| ==> order[k] in obj
    ensures |r| == |order|
    ensures forall k :: 0 <= k < |order| ==> r[k].0 == order[k]
  {
    seq(|order|, k requires 0 <= k < |order| => (order[k], DictText(obj[order[k]])))
  }

  /** The string `as_dict` writes for one value. */
  function DictText(v: CfgValue): (s: string)
    ensures v.Mode? ==> s == v.value
    ensures !v.Mode? ==> s == Str(v)
  {
    if v.Mode? then v.value else Str(v)
  }

  // ------------------------------------------------------------ round trip

  /** A list item that survives `str` followed by the list parsing: not
      empty, printable ASCII only (so `repr` writes it between quotes with
      no escape), no comma, no quote, no backslash, no surrounding
      whitespace. */
  predicate CleanItem(x: string) {
    x != ""
    && (forall i :: 0 <= i < |x| ==> ' ' <= x[i] <= '~' && x[i] != ',' && x[i] != '\'' && x[i] != '\\')
    && !IsSpace(x[0]) && !IsSpace(x[|x| - 1])
  }

  /** The value of `key` comes back unchanged from its `as_dict` text. */
  predicate Survives(fields: seq<Field>, key: string, v: CfgValue, pathKey: Option<string>) {
    if pathKey == Some(key) then v.PathOf?
    else match v
      case Flag(_) => true
      case Nothing => true
      case Text(s) => !Special(s) && FieldTypeOf(fields, key) == Some(StrField)
      case PathOf(p) => !Special(p) && FieldTypeOf(fields, key) == Some(PathField)
      case Mode(m) => IsRunnerType(m) && FieldTypeOf(fields, key) == Some(ModeField)
      case Items(xs) => |xs| > 0 && forall k :: 0 <= k < |xs| ==> CleanItem(xs[k])
      case Number(_) => false
  }

  /** Loading the `as_dict` text of a value that survives puts the value
      back. */
  lemma DecodeText(fields: seq<Field>, obj: Attrs, key: string, v: CfgValue, pathKey: Option<string>)
    requires key in obj
    requires Survives(fields, key, v, pathKey)
    ensures DecodeEntry(fields, obj, key, DictText(v), pathKey) == Ok(obj[key := v])
  {
    if pathKey != Some(key) && v.Items? {
      ParseReprList(v.items);
    }
  }

  /** `load_from_dict(as_dict())` restores every attribute whose value
      survives, into any object that has those attributes, and touches
      nothing else. */
  lemma {:induction false} AsDictRoundTrip(fields: seq<Field>, obj: Attrs, order: seq<string>, target: Attrs, pathKey: Option<string>)
    requires forall k :: 0 <= k < |order| ==> order[k] in obj && order[k] in target
    requires forall k :: 0 <= k < |order| ==> Survives(fields, order[k], obj[order[k]], pathKey)
    ensures var r := LoadFromDict(fields, target, AsDict(obj, order), pathKey);
      r.error == None
      && r.obj.Keys == target.Keys
      && (forall k :: 0 <= k < |order| ==> r.obj[order[k]] == obj[order[k]])
      && (forall key :: key in target && key !in order ==> r.obj[key] == target[key])
    decreases |order|
  {
    if |order| > 0 {
      var key := order[0];
      DecodeText(fields, target, key, obj[key], pathKey);
      var target' := target[key := obj[key]];
      assert AsDict(obj, order)[1..] == AsDict(obj, order[1..]);
      AsDictRoundTrip(fields, obj, order[1..], target', pathKey);
      var r := LoadFromDict(fields, target', AsDict(obj, order[1..]), pathKey);
      forall k | 0 <= k < |order| ensures r.obj[order[k]] == obj[order[k]] {
        if k > 0 {
          assert order[k] == order[1..][k - 1];
        } else if key !in order[1..] {
          assert r.obj[key] == target'[key];
        } else {
          var j :| 0 <= j < |order[1..]| && order[1..][j] == key;
        }
      }
    }
  }

  /** A string that reads as a literal does not come back as a string. */
  lemma StringTrueComesBackAsBool(fields: seq<Field>, obj: Attrs, key: string)
    requires key != PathKey
    ensures DictText(Text("True")) == "True"
    ensures DecodeEntry(fields, obj, key, DictText(Text("True")), None) == Ok(obj[key := Flag(true)])
  {
  }

  /** The empty list comes back as `[""]`. */
  lemma EmptyListComesBackBlank()
    ensures DictText(Items([])) == "[]"
    ensures ParseList("[]") == [""]
  {
    assert Split("", ",") == [""] by {
      SplitWithoutSep("", ",");
    }
    assert Replace("", "'", "") == "" by {
      SplitWithoutSep("", "'");
    }
    assert Strip("") == "";
    assert "[]"[1..1] == "";
  }

  /** In `main.py`, `blender_exe` becomes a `Path` even from `"None"`. */
  lemma BlenderExeAlwaysPath(fields: seq<Field>, obj: Attrs)
    ensures DecodeEntry(fields, obj, PathKey, "None", Some(PathKey)) == Ok(obj[PathKey := PathOf("None")])
    ensures DecodeEntry(fields, obj, PathKey, "None", None) == Ok(obj[PathKey := Nothing])
  {
  }

  // ------------------------------------------------- list parsing, in pieces

  function Spaced(xs: seq<string>): (r: seq<string>)
    ensures |r| == |xs|
    ensures forall k :: 0 <= k < |xs| ==> r[k] == " " + xs[k]
  {
    seq(|xs|, k requires 0 <= k < |xs| => " " + xs[k])
  }

  predicate NoChar(s: string, c: char) {
    forall i :: 0 <= i < |s| ==> s[i] != c
  }

  lemma NoCharNotContains(s: string, c: char)
    requires NoChar(s, c)
    ensures !Contains(s, [c])
  {
    ContainsIffOccurs(s, [c]);
    forall i ensures !OccursAt(s, [c], i) {
      NoOccurrence(s, c, i);
    }
  }

  lemma NoOccurrence(s: string, c: char, i: int)
    requires NoChar(s, c)
    ensures !OccursAt(s, [c], i)
  {
    if 0 <= i && i + 1 <= |s| {
      assert s[i..i + 1][0] == s[i];
    }
  }

  /** `", ".join` of a non-empty list is `",".join` of the list with a
      space put before every item but the first. */
  lemma {:induction false} JoinSpaced(xs: seq<string>)
    requires |xs| >= 1
    ensures " " + Join(xs, ", ") == Join(Spaced(xs), ",")
    decreases |xs|
  {
    if |xs| > 1 {
      JoinSpaced(xs[1..]);
      assert Spaced(xs)[1..] == Spaced(xs[1..]);
      assert " " + Join(xs, ", ") == (" " + xs[0]) + "," + (" " + Join(xs[1..], ", "));
    }
  }

  /** Splitting a join at a separator that no part contains gives the parts. */
  lemma {:induction false} SplitJoinNoSep(parts: seq<string>, c: char)
    requires |parts| >= 1
    requires forall k :: 0 <= k < |parts| ==> NoChar(parts[k], c)
    ensures Split(Join(parts, [c]), [c]) == parts
    decreases |parts|
  {
    if |parts| == 1 {
      NoCharNotContains(parts[0], c);
      SplitWithoutSep(parts[0], [c]);
    } else {
      SplitJoinNoSep(parts[1..], c);
      forall j | 0 <= j < |parts[0]| ensures !OccursAt(parts[0] + [c], [c], j) {
        assert (parts[0] + [c])[j..j + 1][0] == parts[0][j];
      }
      SplitAtFirst(parts[0], [c], Join(parts[1..], [c]));
    }
  }

  /** A quote-free prefix ends at the first quote. */
  lemma SplitAtQuote(a: string, b: string)
    requires NoChar(a, '\'')
    ensures Split(a + "'" + b, "'") == [a] + Split(b, "'")
  {
    forall j | 0 <= j < |a| ensures !OccursAt(a + "'", "'", j) {
      assert (a + "'")[j..j + 1][0] == a[j];
    }
    SplitAtFirst(a, "'", b);
  }

  /** The pieces of `pre + "'" + x + "'"` between quotes. */
  lemma SplitQuoted(pre: string, x: string)
    requires NoChar(pre, '\'') && NoChar(x, '\'')
    ensures Split(pre + Quoted(x), "'") == [pre, x, ""]
  {
    assert pre + Quoted(x) == pre + "'" + (x + "'");
    SplitAtQuote(pre, x + "'");
    assert x + "'" == x + "'" + "";
    SplitAtQuote(x, "");
    SplitWithoutSep("", "'");
  }

  /** Removing the quotes of `pre + "'" + x + "'"` leaves `pre + x`. */
  lemma Unquote(pre: string, x: string)
    requires NoChar(pre, '\'') && NoChar(x, '\'')
    ensures Replace(pre + Quoted(x), "'", "") == pre + x
  {
    SplitQuoted(pre, x);
    assert Join([""], "") == "";
    assert Join([x, ""], "") == x + "" + "";
    assert Join([pre, x, ""], "") == pre + "" + x;
  }

  /** A clean item loses a leading space and nothing else to `strip`. */
  lemma StripClean(x: string)
    requires CleanItem(x)
    ensures Strip(" " + x) == x && Strip(x) == x
  {
    assert RStrip(" " + x) == " " + x;
    assert RStrip(x) == x;
    assert LStrip(" " + x) == LStrip((" " + x)[1..]);
    assert (" " + x)[1..] == x;
  }

  /** The pieces the list parsing splits `str(xs)` into. */
  function Pieces(xs: seq<string>): (r: seq<string>)
    requires |xs| > 0
    ensures |r| == |xs|
    ensures r[0] == Quoted(xs[0])
    ensures forall k :: 1 <= k < |xs| ==> r[k] == " " + Quoted(xs[k])
  {
    [Quoted(xs[0])] + Spaced(QuotedAll(xs[1..]))
  }

  lemma InnerIsJoinOfPieces(xs: seq<string>)
    requires |xs| > 0
    ensures ReprList(xs)[1..|ReprList(xs)| - 1] == Join(Pieces(xs), ",")
  {
    var inner := Join(QuotedAll(xs), ", ");
    assert ReprList(xs)[1..|ReprList(xs)| - 1] == inner;
    if |xs| > 1 {
      JoinSpaced(QuotedAll(xs[1..]));
      assert QuotedAll(xs)[1..] == QuotedAll(xs[1..]);
      assert Pieces(xs)[1..] == Spaced(QuotedAll(xs[1..]));
    }
  }

  lemma QuotedNoComma(pre: string, x: string)
    requires NoChar(pre, ',') && CleanItem(x)
    ensures NoChar(pre + Quoted(x), ',')
  {
    var q := pre + Quoted(x);
    forall i | 0 <= i < |q| ensures q[i] != ',' {
      if i < |pre| {
        assert q[i] == pre[i];
      } else if i == |pre| || i == |q| - 1 {
        assert q[i] == '\'';
      } else {
        assert q[i] == x[i - |pre| - 1];
      }
    }
  }

  lemma UnquoteStrip(pre: string, x: string)
    requires pre == "" || pre == " "
    requires CleanItem(x)
    ensures NoChar(pre + Quoted(x), ',')
    ensures Strip(Replace(pre + Quoted(x), "'", "")) == x
  {
    QuotedNoComma(pre, x);
    Unquote(pre, x);
    StripClean(x);
    if pre == "" {
      assert pre + x == x;
    }
  }

  lemma PieceParses(xs: seq<string>, k: nat)
    requires k < |xs| && forall j :: 0 <= j < |xs| ==> CleanItem(xs[j])
    ensures NoChar(Pieces(xs)[k], ',')
    ensures Strip(Replace(Pieces(xs)[k], "'", "")) == xs[k]
  {
    if k == 0 {
      assert Pieces(xs)[k] == "" + Quoted(xs[k]);
      UnquoteStrip("", xs[k]);
    } else {
      UnquoteStrip(" ", xs[k]);
    }
  }

  /** Parsing `str(xs)` gives back `xs` for clean items. */
  lemma ParseReprList(xs: seq<string>)
    requires |xs| > 0 && forall k :: 0 <= k < |xs| ==> CleanItem(xs[k])
    ensures ParseList(ReprList(xs)) == xs
  {
    InnerIsJoinOfPieces(xs);
    forall k | 0 <= k < |xs| ensures NoChar(Pieces(xs)[k], ',') {
      PieceParses(xs, k);
    }
    SplitJoinNoSep(Pieces(xs), ',');
    forall k | 0 <= k < |xs| ensures ParseList(ReprList(xs))[k] == xs[k] {
      PieceParses(xs, k);
    }
  }

  // ------------------------------------------------------- main.py's entry

  /** The command line of `main.py` after `argparse`: the positional
      collector string has the default `"."`, so it is always present. */
  datatype CliArgs = CliArgs(
    collectorString: Option<string>,
    blenderExe: Option<string>,
    norecursedirs: Option<seq<string>>,
    nocapture: bool,
    keyword: Option<string>)

  /** `argparse`'s treatment of the optional positional argument. */
  function PositionalCollectorString(given: Option<string>): (r: Option<string>)
    ensures r.Some?
  {
    if given.Some? then given else Some(".")
  }

  /** The merge in `main`: `nocapture` always takes the flag; keyword,
      collector string and ignored directories take the command line's
      value when it has one.  `--blender-exe` is parsed but never used. */
  function MergeCli(cfg: Attrs, args: CliArgs): (r: Attrs)
    ensures r.Keys == cfg.Keys + {"nocapture"}
      + (if args.keyword.Some? then {"keyword"} else {})
      + (if args.collectorString.Some? then {"collector_string"} else {})
      + (if args.norecursedirs.Some? then {"norecursedirs"} else {})
    ensures r["nocapture"] == Flag(args.nocapture)
    ensures "keyword" in r && args.keyword.None? ==> r["keyword"] == cfg["keyword"]
    ensures args.keyword.Some? ==> r["keyword"] == Text(args.keyword.value)
    ensures args.collectorString.Some? ==> r["collector_string"] == Text(args.collectorString.value)
    ensures args.norecursedirs.Some? ==> r["norecursedirs"] == Items(args.norecursedirs.value)
    ensures forall k :: k in cfg && k !in {"nocapture", "keyword", "collector_string", "norecursedirs"} ==> r[k] == cfg[k]
  {
    var c1 := cfg["nocapture" := Flag(args.nocapture)];
    var c2 := if args.keyword.Some? then c1["keyword" := Text(args.keyword.value)] else c1;
    var c3 := if args.collectorString.Some? then c2["collector_string" := Text(args.collectorString.value)] else c2;
    if args.norecursedirs.Some? then c3["norecursedirs" := Items(args.norecursedirs.value)] else c3
  }

  /** Because the positional argument always has a value, the collector
      string of the configuration file never survives the merge, and
      neither does a configured `blender_exe` get replaced by the flag. */
  lemma ConfigCollectorStringNeverSurvives(cfg: Attrs, given: Option<string>, args: CliArgs)
    requires args.collectorString == PositionalCollectorString(given)
    requires "blender_exe" in cfg
    ensures MergeCli(cfg, args)["collector_string"] == Text(if given.Some? then given.value else ".")
    ensures MergeCli(cfg, args)["blender_exe"] == cfg["blender_exe"]
  {
  }

  /** The end of `main`: without a `blender_exe`, or with one that does not
      exist, exit with 1 before any subprocess starts; otherwise exit with
      the subprocess's code. */
  function Launch(blenderExe: CfgValue, pathExists: string -> bool, returncode: int): (r: (int, bool))
    requires blenderExe.PathOf? || blenderExe.Nothing?
    ensures r.1 <==> blenderExe.PathOf? && pathExists(blenderExe.posix)
    ensures !r.1 ==> r.0 == 1
    ensures r.1 ==> r.0 == returncode
  {
    if blenderExe.Nothing? then (1, false)
    else if !pathExists(blenderExe.posix) then (1, false)
    else (returncode, true)
  }
}
