/** Named profiles: the persistent configuration subset of the Brain state
    (target, modes, offsets, auto-delay, units, GPIO mapping), the safe file
    name a profile is stored under, the defaults a loaded profile gets, and
    the merge of a profile into the live state. */
module Profiles {
  import opened Builtins
  import opened Json
  import StateStore

  /** `PROFILE_KEYS`, in order. */
  const ProfileKeys: seq<string> := ["targetMl", "deliveryMode", "momentary", "autoDelay", "units", "gpio"]

  /** The volatile per-unit readings a profile never carries. */
  const VolatileUnitFields: set<string> := {"lastDeliveredMl", "deviation", "status"}

  // ---------------------------------------------------------------------
  // _strip_runtime
  // ---------------------------------------------------------------------

  /** One unit dict with the three volatile fields popped. */
  function StripUnit(u: Value): (r: Value)
    requires u.Obj?
    ensures r.Obj? && r.fields.Keys == u.fields.Keys - VolatileUnitFields
    ensures forall k :: k in r.fields ==> r.fields[k] == u.fields[k]
  {
    Obj(u.fields - VolatileUnitFields)
  }

  /** The units list after the pop loop: every unit before the first non-dict
      (whose `pop` raises) is stripped, the rest are untouched. */
  function StrippedUnitList(xs: seq<Value>): (r: seq<Value>)
    ensures |r| == |xs|
  {
    seq(|xs|, i requires 0 <= i < |xs| => if i < StateStore.FirstNonObj(xs) then StripUnit(xs[i]) else xs[i])
  }

  /** `for u in units: u.pop(...)` on whatever `units` holds, as for the
      migration loop: a list is walked until an element that is not a dict, a
      dict or string can only be empty, anything else is not iterable. */
  function StripUnitsValue(units: Value): (Value, bool) {
    match units
    case Arr(xs) => (Arr(StrippedUnitList(xs)), StateStore.FirstNonObj(xs) == |xs|)
    case Obj(f) => (units, f == map[])
    case Str(s) => (units, s == "")
    case _ => (units, false)
  }

  /** The profile `_strip_runtime(state)` returns, and whether it returned. */
  function StrippedProfile(m: map<string, Value>): (map<string, Value>, bool) {
    var out := Project(m, ProfileKeys);
    if "units" in out then
      var (units, ok) := StripUnitsValue(out["units"]);
      (out["units" := units], ok)
    else (out, true)
  }

  /** The caller's state after `_strip_runtime`: the unit dicts are shared with
      the profile, so they lose their volatile fields too. */
  function StateAfterStrip(m: map<string, Value>): map<string, Value> {
    if "units" in m then m["units" := StripUnitsValue(m["units"]).0] else m
  }

  /** `_strip_runtime` on the shared state dict: the copy loop over the profile
      keys, then the pop loop over the (shared) units. */
  method StripRuntime(state: Dict) returns (out: map<string, Value>, ok: bool)
    modifies state
    ensures (out, ok) == StrippedProfile(old(state.m))
    ensures state.m == StateAfterStrip(old(state.m))
  {
    out := CopyKeys(state.m, ProfileKeys);
    if "units" !in out {
      return out, true;
    }
    var units := out["units"];
    if units.Arr? {
      var xs := units.items;
      var us := xs;
      var i := 0;
      while i < |xs| && xs[i].Obj?
        invariant 0 <= i <= |xs| && |us| == |xs|
        invariant forall j :: 0 <= j < i ==> xs[j].Obj?
        invariant forall j :: 0 <= j < |xs| ==> us[j] == if j < i then StripUnit(xs[j]) else xs[j]
      {
        us := us[i := Obj(xs[i].fields - VolatileUnitFields)];
        i := i + 1;
      }
      assert i == StateStore.FirstNonObj(xs);
      assert us == StrippedUnitList(xs);
      out := out["units" := Arr(us)];
      state.m := state.m["units" := Arr(us)];
      ok := i == |xs|;
    } else {
      assert state.m == state.m["units" := units];
      assert out == out["units" := units];
      ok := (units.Obj? && units.fields == map[]) || units == Str("");
    }
  }

  /** The profile holds exactly the profile keys the state has, with the state's
      values, except that units have been stripped. */
  lemma StrippedProfileKeys(m: map<string, Value>)
    ensures StrippedProfile(m).0.Keys == set k | k in m && k in ProfileKeys
    ensures forall k :: k in StrippedProfile(m).0 && k != "units" ==> StrippedProfile(m).0[k] == m[k]
    ensures "units" in m ==> StrippedProfile(m).0["units"] == StripUnitsValue(m["units"]).0
  {
  }

  lemma StripUnitClean(u: Value)
    requires u.Obj?
    ensures StripUnit(u).fields.Keys !! VolatileUnitFields
  {
  }

  lemma StrippedUnitListClean(xs: seq<Value>)
    requires StateStore.FirstNonObj(xs) == |xs|
    ensures forall i :: 0 <= i < |xs| ==> StrippedUnitList(xs)[i].Obj? && StrippedUnitList(xs)[i].fields.Keys !! VolatileUnitFields
  {
    forall i | 0 <= i < |xs|
      ensures StrippedUnitList(xs)[i].Obj? && StrippedUnitList(xs)[i].fields.Keys !! VolatileUnitFields
    {
      StripUnitClean(xs[i]);
    }
  }

  /** When `_strip_runtime` returns, no unit of the profile has a volatile field,
      and the caller's state holds the same stripped units. */
  lemma StrippedUnitsClean(m: map<string, Value>)
    requires StrippedProfile(m).1
    requires "units" in m && m["units"].Arr?
    ensures var u := StrippedProfile(m).0["units"];
      && u.Arr?
      && (forall i :: 0 <= i < |u.items| ==> u.items[i].Obj? && u.items[i].fields.Keys !! VolatileUnitFields)
      && StateAfterStrip(m)["units"] == u
  {
    StrippedUnitListClean(m["units"].items);
  }

  /** Only the units of the caller's state change. */
  lemma StateAfterStripOnlyUnits(m: map<string, Value>)
    ensures StateAfterStrip(m).Keys == m.Keys
    ensures forall k :: k in m && k != "units" ==> StateAfterStrip(m)[k] == m[k]
  {
  }

  // ---------------------------------------------------------------------
  // _sanitize_name and profile_path
  // ---------------------------------------------------------------------

  /** Characters a profile name keeps: letters, digits, '-', '_', ' ' and '.'. */
  predicate Allowed(c: char) {
    IsAlnum(c) || c == '-' || c == '_' || c == ' ' || c == '.'
  }

  predicate AllAllowed(s: string) {
    forall i :: 0 <= i < |s| ==> Allowed(s[i])
  }

  /** The characters of `s` that are allowed, in order. */
  function KeepAllowed(s: string): (r: string)
    ensures AllAllowed(r)
    ensures |r| <= |s|
    ensures forall c :: c in r ==> c in s
    ensures AllAllowed(s) ==> r == s
  {
    if s == [] then []
    else (if Allowed(s[0]) then [s[0]] else []) + KeepAllowed(s[1..])
  }

  /** Every allowed character of `s` is kept as often as it occurs, and every
      other character is dropped. */
  lemma {:induction false} KeepAllowedCounts(s: string)
    ensures forall c :: multiset(KeepAllowed(s))[c] == if Allowed(c) then multiset(s)[c] else 0
  {
    if s != [] {
      KeepAllowedCounts(s[1..]);
      assert s == [s[0]] + s[1..];
      assert KeepAllowed(s) == (if Allowed(s[0]) then [s[0]] else []) + KeepAllowed(s[1..]);
    }
  }

  /** A slice of an all-allowed string is all allowed. */
  lemma SliceAllowed(s: string, a: int, b: int)
    requires AllAllowed(s) && 0 <= a <= b <= |s|
    ensures AllAllowed(s[a..b])
  {
    assert forall i :: 0 <= i < b - a ==> s[a..b][i] == s[a + i];
  }

  /** Stripping an all-allowed string keeps it all allowed. */
  lemma StripAllowed(s: string)
    requires AllAllowed(s)
    ensures AllAllowed(Strip(s))
  {
    var a, b :| 0 <= a <= b <= |s| && Strip(s) == s[a..b];
    SliceAllowed(s, a, b);
  }

  /** `_sanitize_name`: the allowed characters, stripped; "profile" when nothing
      is left. */
  function SanitizeName(name: string): (r: string)
    ensures r != []
    ensures AllAllowed(r)
    ensures r[0] != ' ' && r[|r| - 1] != ' '
    ensures r == "profile" || r == Strip(KeepAllowed(name))
    ensures Strip(KeepAllowed(name)) != [] ==> r == Strip(KeepAllowed(name))
  {
    var safe := Strip(KeepAllowed(name));
    StripAllowed(KeepAllowed(name));
    if safe == [] then "profile" else safe
  }

  /** A name that is already safe, non-empty and without surrounding spaces is
      kept as it is. */
  lemma SanitizeNameKeepsSafe(name: string)
    requires name != [] && AllAllowed(name) && name[0] != ' ' && name[|name| - 1] != ' '
    ensures SanitizeName(name) == name
  {
    assert !IsSpace(name[0]) && !IsSpace(name[|name| - 1]);
  }

  /** Sanitizing twice is sanitizing once. */
  lemma SanitizeNameIdempotent(name: string)
    ensures SanitizeName(SanitizeName(name)) == SanitizeName(name)
  {
    SanitizeNameKeepsSafe(SanitizeName(name));
  }

  /** The file name part of `profile_path(name)`. */
  function ProfileFileName(name: string): string {
    SanitizeName(name) + ".json"
  }

  /** An all-allowed string has no path separator. */
  lemma AllowedHasNoSeparator(s: string)
    requires AllAllowed(s)
    ensures '/' !in s && '\\' !in s
  {
    assert forall i :: 0 <= i < |s| ==> s[i] != '/' && s[i] != '\\';
  }

  lemma ConcatAllowed(s: string, t: string)
    requires AllAllowed(s) && AllAllowed(t)
    ensures AllAllowed(s + t)
  {
  }

  lemma SuffixAllowed()
    ensures AllAllowed(".json")
  {
    assert ".json"[0] == '.';
  }

  /** The file name has no path separator, so the profile stays inside the
      profiles directory. */
  lemma ProfileFileNameSafe(name: string)
    ensures '/' !in ProfileFileName(name) && '\\' !in ProfileFileName(name)
  {
    SuffixAllowed();
    ConcatAllowed(SanitizeName(name), ".json");
    AllowedHasNoSeparator(SanitizeName(name) + ".json");
  }

  /** The file name is the sanitized name followed by the `.json` suffix. */
  lemma ProfileFileNameSuffix(name: string)
    ensures ProfileFileName(name)[..|ProfileFileName(name)| - 5] == SanitizeName(name)
    ensures ProfileFileName(name)[|ProfileFileName(name)| - 5..] == ".json"
  {
  }

  // ---------------------------------------------------------------------
  // load_profile
  // ---------------------------------------------------------------------

  /** The "basic shape guards" of `load_profile`. */
  const ProfileDefaults: map<string, Value> := map[
    "targetMl" := Int(100),
    "deliveryMode" := Str("flow"),
    "momentary" := StateStore.DefaultMomentary,
    "autoDelay" := StateStore.DefaultAutoDelay,
    "units" := Arr([]),
    "gpio" := Obj(map[])]

  /** What `load_profile` gives: a profile, or the exception it raises. */
  datatype ProfileLoad =
    | Loaded(profile: map<string, Value>)
    | NotFound     // FileNotFoundError
    | BadJson      // json.JSONDecodeError
    | NotADict     // AttributeError: the document has no setdefault

  function LoadedProfile(f: FileRead): ProfileLoad {
    match f
    case Absent => NotFound
    case Unparsable => BadJson
    case Parsed(v) => if v.Obj? then Loaded(FillDefaults(v.fields, ProfileDefaults)) else NotADict
  }

  /** `load_profile` on the decoded document: the setdefault block on a fresh dict. */
  method LoadProfile(f: FileRead) returns (r: ProfileLoad)
    ensures r == LoadedProfile(f)
  {
    if f.Absent? {
      return NotFound;
    }
    if f.Unparsable? {
      return BadJson;
    }
    if !f.doc.Obj? {
      return NotADict;
    }
    var data := new Dict(f.doc.fields);
    SetDefaults(data, ProfileDefaults);
    r := Loaded(data.m);
  }

  /** A loaded profile has all six profile keys, keeps every value the file had,
      takes the default for every profile key the file lacks, and adds nothing
      else; only a document that is not an object fails once
      the file is read. */
  lemma LoadedProfileShape(f: FileRead)
    ensures LoadedProfile(f).Loaded? <==> f.Parsed? && f.doc.Obj?
    ensures LoadedProfile(f).Loaded? ==>
      && (forall k :: k in ProfileKeys ==> k in LoadedProfile(f).profile)
      && LoadedProfile(f).profile.Keys == f.doc.fields.Keys + ProfileDefaults.Keys
      && ExtendsFields(f.doc.fields, LoadedProfile(f).profile)
      && (forall k :: k in ProfileDefaults && k !in f.doc.fields ==> LoadedProfile(f).profile[k] == ProfileDefaults[k])
  {
  }

  // ---------------------------------------------------------------------
  // apply_profile
  // ---------------------------------------------------------------------

  /** The state after the copy loop of `apply_profile`. */
  function Merged(state: map<string, Value>, prof: map<string, Value>): map<string, Value> {
    state + Project(prof, ProfileKeys)
  }

  /** `apply_profile(state, prof)`: the new state and whether it returned. The
      `currentMs` rule runs on the merged auto-delay value (an empty dict when
      there is none). */
  function Applied(state: map<string, Value>, prof: map<string, Value>): (map<string, Value>, bool) {
    var merged := Merged(state, prof);
    match StateStore.FillCurrentMs(GetOr(merged, "autoDelay", Obj(map[])))
    case None => (merged, false)
    case Some(ad) => (merged["autoDelay" := ad], true)
  }

  /** `apply_profile` on two shared dicts. When the profile supplied the
      auto-delay dict, the state now shares it, so the profile sees the added
      `currentMs` too. */
  method ApplyProfile(state: Dict, prof: Dict) returns (ok: bool)
    modifies state, prof
    ensures (state.m, ok) == Applied(old(state.m), old(prof.m))
    ensures state != prof && ok && "autoDelay" in old(prof.m) ==>
      prof.m == old(prof.m)["autoDelay" := state.m["autoDelay"]]
    ensures state != prof && !(ok && "autoDelay" in old(prof.m)) ==> prof.m == old(prof.m)
  {
    MergeKeys(state, prof.m, ProfileKeys);
    var ad := StateStore.FillCurrentMs(GetOr(state.m, "autoDelay", Obj(map[])));
    if ad.None? {
      return false;
    }
    state.m := state.m["autoDelay" := ad.value];
    if state != prof && "autoDelay" in prof.m {
      prof.m := prof.m["autoDelay" := ad.value];
    }
    ok := true;
  }

  /** Only profile keys present in the profile are overwritten; every other key
      of the state (eventLog, tramline, running, ...) keeps its value. */
  lemma AppliedOnlyProfileKeys(state: map<string, Value>, prof: map<string, Value>)
    ensures var r := Applied(state, prof).0;
      && r.Keys == state.Keys + Project(prof, ProfileKeys).Keys + (if Applied(state, prof).1 then {"autoDelay"} else {})
      && (forall k :: k in state && k !in ProfileKeys ==> r[k] == state[k])
      && (forall k :: k in ProfileKeys && k !in prof && k in state && k != "autoDelay" ==> r[k] == state[k])
      && (forall k :: k in ProfileKeys && k in prof && k != "autoDelay" ==> r[k] == prof[k])
  {
  }

  /** After `apply_profile` returns with a dict auto-delay value, `currentMs`
      exists: kept when present, otherwise `int(manualMs)` or 500. */
  lemma AppliedCurrentMs(state: map<string, Value>, prof: map<string, Value>)
    requires Applied(state, prof).1
    requires GetOr(Merged(state, prof), "autoDelay", Obj(map[])).Obj?
    ensures var ad0 := GetOr(Merged(state, prof), "autoDelay", Obj(map[])).fields;
      var ad := Applied(state, prof).0["autoDelay"];
      && ad.Obj?
      && "currentMs" in ad.fields
      && ("currentMs" in ad0 ==> ad.fields == ad0)
      && ("currentMs" !in ad0 ==>
            PyInt(GetOr(ad0, "manualMs", Int(500))).Some?
            && ad.fields == ad0["currentMs" := Int(PyInt(GetOr(ad0, "manualMs", Int(500))).value)])
  {
  }

  /** Neither state nor profile having an auto-delay value gives `{"currentMs": 500}`. */
  lemma AppliedWithoutAutoDelay(state: map<string, Value>, prof: map<string, Value>)
    requires "autoDelay" !in state && "autoDelay" !in prof
    ensures Applied(state, prof).1
    ensures Applied(state, prof).0["autoDelay"] == Obj(map["currentMs" := Int(500)])
  {
    assert "autoDelay" !in Merged(state, prof);
  }
}
