/** The values a configuration object holds and the text forms Python
    gives them: the shared vocabulary of the configuration classes in
    `core/entity.py`, `src/bpytest/main.py` and
    `src/bpytest/common/bpytest_config.py`. */
module ConfigValues {
  import opened Strings

  /** An attribute value: a `str`, a `bool`, `None`, an `int`, a list of
      strings, a `Path` (by its POSIX form) or a `RunnerType` member (by its
      `.value`). */
  datatype CfgValue =
    | Text(s: string)
    | Flag(b: bool)
    | Nothing
    | Number(i: int)
    | Items(items: seq<string>)
    | PathOf(posix: string)
    | Mode(value: string)

  /** The annotation of a dataclass field. */
  datatype FieldType = PathField | BoolField | StrField | ListField | ModeField | OptionalPathField

  /** A dataclass field: name, annotation and its `help` metadata. */
  datatype Field = Field(name: string, ftype: FieldType, help: Option<string>)

  /** The instance `__dict__`. */
  type Attrs = map<string, CfgValue>

  /** The exceptions the loaders raise; the key is the one being loaded. */
  datatype ConfigError =
    | KeyError(key: string)
    | TypeError(key: string)
    | ValueError(message: string)

  /** The object after a loader ran: assignments made before an exception
      stay applied. */
  datatype Loaded = Loaded(obj: Attrs, error: Option<ConfigError>)

  /** `__dataclass_fields__[key].type`, `None` for a key that is not a field. */
  function FieldTypeOf(fields: seq<Field>, key: string): (r: Option<FieldType>)
    ensures r.Some? <==> exists k :: 0 <= k < |fields| && fields[k].name == key
    ensures r.Some? ==> exists k :: 0 <= k < |fields| && fields[k].name == key && fields[k].ftype == r.value
    decreases |fields|
  {
    if |fields| == 0 then None
    else if fields[0].name == key then Some(fields[0].ftype)
    else
      var r := FieldTypeOf(fields[1..], key);
      assert forall k :: 1 <= k < |fields| ==> fields[k] == fields[1..][k - 1];
      assert r.Some? ==> exists k :: 1 <= k < |fields| && fields[k].name == key && fields[k].ftype == r.value by {
        if r.Some? {
          var k :| 0 <= k < |fields[1..]| && fields[1..][k].name == key && fields[1..][k].ftype == r.value;
          assert fields[k + 1] == fields[1..][k];
        }
      }
      r
  }

  function FieldNames(fields: seq<Field>): (names: seq<string>)
    ensures |names| == |fields|
    ensures forall k :: 0 <= k < |fields| ==> names[k] == fields[k].name
  {
    seq(|fields|, k requires 0 <= k < |fields| => fields[k].name)
  }

  /** The values of `RunnerType` (`core/entity.py`). */
  predicate IsRunnerType(s: string) {
    s == "background" || s == "runtime"
  }

  /** Python's `str(i)` for an integer. */
  function IntToString(i: int): (r: string)
    ensures |r| >= 1
  {
    if i < 0 then "-" + NatToString(-i) else NatToString(i)
  }

  /** `repr` of a string, for strings that need no escaping. */
  function Quoted(s: string): string {
    "'" + s + "'"
  }

  function QuotedAll(xs: seq<string>): (r: seq<string>)
    ensures |r| == |xs|
    ensures forall k :: 0 <= k < |xs| ==> r[k] == Quoted(xs[k])
  {
    seq(|xs|, k requires 0 <= k < |xs| => Quoted(xs[k]))
  }

  /** `str(list_of_strings)`. */
  function ReprList(xs: seq<string>): (r: string)
    ensures StartsWith(r, "[") && EndsWith(r, "]") && |r| >= 2
  {
    "[" + Join(QuotedAll(xs), ", ") + "]"
  }

  /** `str(value)` for an attribute value. */
  function Str(v: CfgValue): string {
    match v
    case Text(s) => s
    case Flag(b) => if b then "True" else "False"
    case Nothing => "None"
    case Number(i) => IntToString(i)
    case Items(xs) => ReprList(xs)
    case PathOf(p) => p
    case Mode(m) => "RunnerType." + Upper(m)
  }

  /** Python's truth value. */
  predicate Truthy(v: CfgValue) {
    match v
    case Text(s) => s != ""
    case Flag(b) => b
    case Nothing => false
    case Number(i) => i != 0
    case Items(xs) => |xs| > 0
    case PathOf(_) => true
    case Mode(_) => true
  }

  /** `list(s)` of a string: its characters. */
  function Chars(s: string): (r: seq<string>)
    ensures |r| == |s|
    ensures forall k :: 0 <= k < |s| ==> r[k] == [s[k]]
  {
    seq(|s|, k requires 0 <= k < |s| => [s[k]])
  }
}
