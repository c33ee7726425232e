/** JSON-like documents as the backend holds them after `json.loads`, the
    Python conversions it applies to them (`int()`, `float()`, `bool()`,
    `str()`), and `dict.setdefault`. */
module Json {
  import opened Builtins

  /** A decoded JSON value. Object keys are strings, as JSON makes them. */
  datatype Value =
    | Null
    | Bool(b: bool)
    | Int(i: int)
    | Real(r: real)
    | Str(s: string)
    | Arr(items: seq<Value>)
    | Obj(fields: map<string, Value>)

  /** What reading and decoding a file gave: no file, bytes that are not JSON, or a value. */
  datatype FileRead = Absent | Unparsable | Parsed(doc: Value)

  /** A Python dict object that callers share and mutate in place. */
  class Dict {
    var m: map<string, Value>

    constructor (m0: map<string, Value>)
      ensures m == m0
    {
      m := m0;
    }
  }

  // ---------------------------------------------------------------------
  // dict.get and dict.setdefault
  // ---------------------------------------------------------------------

  /** `d.get(k)`: the stored value, or None when the key is missing. */
  function Get(d: map<string, Value>, k: string): (v: Value)
    ensures k !in d ==> v == Null
    ensures k in d ==> v == d[k]
  {
    if k in d then d[k] else Null
  }

  /** `d.get(k, default)`. */
  function GetOr(d: map<string, Value>, k: string, default: Value): (v: Value)
    ensures k !in d ==> v == default
    ensures k in d ==> v == d[k]
  {
    if k in d then d[k] else default
  }

  /** `d.setdefault(k, v)` viewed on the dict's contents. */
  function SetDefault(d: map<string, Value>, k: string, v: Value): (r: map<string, Value>)
    ensures r.Keys == d.Keys + {k}
    ensures k in d ==> r == d
    ensures k !in d ==> r[k] == v
    ensures forall j :: j in d ==> r[j] == d[j]
  {
    if k in d then d else d[k := v]
  }

  /** A block of `d.setdefault(k, v)` lines with distinct keys, the pairs given
      as the map `defs`: only missing keys are added, with their defaults, every
      present value is kept, and when every key is present nothing changes. */
  function FillDefaults(d: map<string, Value>, defs: map<string, Value>): (r: map<string, Value>)
    ensures r.Keys == d.Keys + defs.Keys
    ensures forall k :: k in d ==> r[k] == d[k]
    ensures forall k :: k in defs && k !in d ==> r[k] == defs[k]
    ensures defs.Keys <= d.Keys ==> r == d
  {
    defs + d
  }

  /** After the setdefault block a defaulted key holds the dict's own value,
      or the default when the dict had none. */
  lemma FillDefaultsAt(d: map<string, Value>, defs: map<string, Value>, k: string, v: Value)
    requires k in defs && defs[k] == v
    ensures k in FillDefaults(d, defs) && FillDefaults(d, defs)[k] == GetOr(d, k, v)
  {
  }

  /** The setdefault block run line by line against a shared dict. The keys are
      distinct, so the order of the lines does not matter. */
  method SetDefaults(d: Dict, defs: map<string, Value>)
    modifies d
    ensures d.m == FillDefaults(old(d.m), defs)
  {
    var todo := defs.Keys;
    while todo != {}
      invariant todo <= defs.Keys
      invariant d.m == FillDefaults(old(d.m), defs - todo)
      decreases todo
    {
      var k :| k in todo;
      assert FillDefaults(old(d.m), defs - (todo - {k})) == SetDefault(d.m, k, defs[k]);
      d.m := SetDefault(d.m, k, defs[k]);
      todo := todo - {k};
    }
    assert defs - todo == defs;
  }

  /** Running a setdefault block twice is the same as running it once. */
  lemma FillDefaultsIdempotent(d: map<string, Value>, defs: map<string, Value>)
    ensures FillDefaults(FillDefaults(d, defs), defs) == FillDefaults(d, defs)
  {
  }

  /** The entries of `m` whose key is listed in `ks`. */
  function Project(m: map<string, Value>, ks: seq<string>): (r: map<string, Value>)
    ensures r.Keys == set k | k in m && k in ks
    ensures forall k :: k in r ==> r[k] == m[k]
  {
    map k | k in m && k in ks :: m[k]
  }

  lemma ProjectStep(m: map<string, Value>, ks: seq<string>, i: int)
    requires 0 <= i < |ks|
    ensures Project(m, ks[..i + 1]) == if ks[i] in m then Project(m, ks[..i])[ks[i] := m[ks[i]]] else Project(m, ks[..i])
  {
    assert ks[..i + 1] == ks[..i] + [ks[i]];
  }

  /** `for k in ks: if k in src: out[k] = src[k]` into a fresh dict. */
  method CopyKeys(src: map<string, Value>, ks: seq<string>) returns (out: map<string, Value>)
    ensures out == Project(src, ks)
  {
    out := map[];
    var i := 0;
    while i < |ks|
      invariant 0 <= i <= |ks|
      invariant out == Project(src, ks[..i])
    {
      ProjectStep(src, ks, i);
      if ks[i] in src {
        out := out[ks[i] := src[ks[i]]];
      }
      i := i + 1;
    }
    assert ks[..i] == ks;
  }

  /** `for k in ks: if k in src: dst[k] = src[k]` on a shared dict. */
  method MergeKeys(dst: Dict, src: map<string, Value>, ks: seq<string>)
    modifies dst
    ensures dst.m == old(dst.m) + Project(src, ks)
  {
    var i := 0;
    while i < |ks|
      invariant 0 <= i <= |ks|
      invariant dst.m == old(dst.m) + Project(src, ks[..i])
    {
      ProjectStep(src, ks, i);
      if ks[i] in src {
        dst.m := dst.m[ks[i] := src[ks[i]]];
      }
      i := i + 1;
    }
    assert ks[..i] == ks;
  }

  /** `b` holds every entry of `a`, unchanged. */
  predicate ExtendsFields(a: map<string, Value>, b: map<string, Value>) {
    forall k :: k in a ==> k in b && b[k] == a[k]
  }

  // ---------------------------------------------------------------------
  // Python's view of a value: `k in v`, bool(v), int(v), float(v), str(v)
  // ---------------------------------------------------------------------

  /** `k in v` for a string `k`: a key of a dict, an element of a list, a piece of a
      string. Any other value raises TypeError (None). */
  function HasKey(v: Value, k: string): (r: Option<bool>)
    ensures v.Obj? ==> r == Some(k in v.fields)
  {
    match v
    case Obj(f) => Some(k in f)
    case Arr(xs) => Some(Str(k) in xs)
    case Str(s) => Some(Contains(s, k))
    case _ => None
  }

  /** `bool(v)`: None, False, zero and empty containers are false. */
  predicate Truthy(v: Value) {
    match v
    case Null => false
    case Bool(b) => b
    case Int(i) => i != 0
    case Real(r) => r != 0.0
    case Str(s) => s != ""
    case Arr(xs) => xs != []
    case Obj(f) => f != map[]
  }

  /** `int(v)`; None where Python raises (None, lists, dicts, non-numeric strings). */
  function PyInt(v: Value): (r: Option<int>)
    ensures v.Int? ==> r == Some(v.i)
    ensures v.Null? || v.Arr? || v.Obj? ==> r == None
  {
    match v
    case Int(i) => Some(i)
    case Bool(b) => Some(if b then 1 else 0)
    case Real(x) => Some(Trunc(x))
    case Str(s) => ParseInt(s)
    case _ => None
  }

  /** `float(v)`; strings are read as integers only. */
  function PyFloat(v: Value): (r: Option<real>)
    ensures v.Real? ==> r == Some(v.r)
    ensures v.Int? ==> r == Some(v.i as real)
  {
    match v
    case Int(i) => Some(i as real)
    case Bool(b) => Some(if b then 1.0 else 0.0)
    case Real(x) => Some(x)
    case Str(s) => (match ParseInt(s) case Some(n) => Some(n as real) case None => None)
    case _ => None
  }

  /** `str(v)` as an f-string renders it. Floats print exactly when they are whole
      numbers; other floats and containers render as a fixed placeholder. */
  function PyStr(v: Value): (r: string)
    ensures v.Int? ==> r == IntToString(v.i)
    ensures v.Str? ==> r == v.s
  {
    match v
    case Null => "None"
    case Bool(b) => if b then "True" else "False"
    case Int(i) => IntToString(i)
    case Real(x) => if x == x.Floor as real then IntToString(x.Floor) + ".0" else "<float>"
    case Str(s) => s
    case Arr(_) => "<list>"
    case Obj(_) => "<dict>"
  }

  /** Values Python can use as a dict key. */
  predicate Hashable(v: Value) { !v.Arr? && !v.Obj? }

  /** A value `str()` renders from an integer reads back as that integer. */
  lemma PyIntOfPyStr(n: int)
    ensures PyInt(Str(PyStr(Int(n)))) == Some(n)
  {
    ParseIntOfIntToString(n);
  }
}
