/** The single-file server's own state helpers: its `default_state()` (which
    also carries `pulsesPerLiter` per unit and no `gpio` key), and its
    `load_state()` migration, where any exception discards the file and falls
    back to the defaults. */
module ServerState {
  import opened Builtins
  import opened Json
  import StateStore

  // ---------------------------------------------------------------------
  // default_state
  // ---------------------------------------------------------------------

  /** The server's unit at zero-based index `i`: the store's default unit plus
      the K-factor `pulsesPerLiter`. */
  function ServerUnit(i: nat): Value {
    Obj(StateStore.DefaultUnit(i).fields["pulsesPerLiter" := Int(450)])
  }

  function ServerUnits(): seq<Value> {
    seq(11, (i: nat) => ServerUnit(i))
  }

  /** The server's `default_state()`. */
  function ServerDefaultState(): map<string, Value> {
    map[
      "targetMl" := Int(100),
      "running" := Bool(false),
      "deliveryMode" := Str("flow"),
      "momentary" := StateStore.DefaultMomentary,
      "tramline" := Obj(map[]),
      "tramPresets" := StateStore.DefaultTramPresets,
      "buzzer" := StateStore.DefaultBuzzer,
      "autoDelay" := StateStore.DefaultAutoDelay,
      "units" := Arr(ServerUnits()),
      "eventLog" := Arr([]),
      "pressHistory" := Arr([]),
      "simulation" := StateStore.DefaultSimulation]
  }

  /** The loop of `default_state()` that appends the eleven units. */
  method BuildServerUnits() returns (out: seq<Value>)
    ensures out == ServerUnits()
  {
    out := [];
    var i := 0;
    while i < 11
      invariant 0 <= i <= 11
      invariant out == ServerUnits()[..i]
    {
      out := out + [ServerUnit(i)];
      i := i + 1;
    }
  }

  /** Each server unit is the store's unit with exactly one extra field. */
  lemma ServerUnitsExtendStore()
    ensures |ServerUnits()| == |StateStore.DefaultUnits()| == 11
    ensures forall i :: 0 <= i < 11 ==>
      && ServerUnits()[i].Obj? && StateStore.DefaultUnits()[i].Obj?
      && ServerUnits()[i].fields.Keys == StateStore.DefaultUnits()[i].fields.Keys + {"pulsesPerLiter"}
      && ServerUnits()[i].fields["pulsesPerLiter"] == Int(450)
      && ExtendsFields(StateStore.DefaultUnits()[i].fields, ServerUnits()[i].fields)
  {
    forall i | 0 <= i < 11
      ensures ServerUnits()[i] == ServerUnit(i) && StateStore.DefaultUnits()[i] == StateStore.DefaultUnit(i)
    {
    }
  }

  // ---------------------------------------------------------------------
  // load_state
  // ---------------------------------------------------------------------

  /** One pass of `for u in units: if key not in u: u[key] = dflt` over one
      element `u`; None where Python raises (`in` on a number or None, item
      assignment on a list or string). */
  function FillKey(u: Value, key: string, dflt: Value): (r: Option<Value>)
    ensures u.Obj? ==> r == Some(Obj(SetDefault(u.fields, key, dflt)))
    ensures !u.Obj? && r.Some? ==> r.value == u
  {
    match u
    case Obj(f) => Some(Obj(SetDefault(f, key, dflt)))
    case Arr(xs) => if Str(key) in xs then Some(u) else None
    case Str(s) => if Contains(s, key) then Some(u) else None
    case _ => None
  }

  predicate FillsEach(xs: seq<Value>, key: string, dflt: Value) {
    forall i :: 0 <= i < |xs| ==> FillKey(xs[i], key, dflt).Some?
  }

  function FilledEach(xs: seq<Value>, key: string, dflt: Value): (r: seq<Value>)
    requires FillsEach(xs, key, dflt)
    ensures |r| == |xs|
  {
    seq(|xs|, i requires 0 <= i < |xs| => FillKey(xs[i], key, dflt).value)
  }

  /** The whole loop over `st.get("units", [])`: a list is walked element by
      element; iterating a dict gives its keys and a string its characters,
      each a string tested with the substring `in`; anything else is not
      iterable. None when any step raises. */
  function FillKeyAll(units: Value, key: string, dflt: Value): (r: Option<Value>)
    ensures r.Some? && !units.Arr? ==> r.value == units
    ensures r.Some? ==> IterCount(r.value) == IterCount(units)
  {
    match units
    case Arr(xs) => if FillsEach(xs, key, dflt) then Some(Arr(FilledEach(xs, key, dflt))) else None
    case Obj(f) => if forall k :: k in f ==> Contains(k, key) then Some(units) else None
    case Str(s) => if forall i :: 0 <= i < |s| ==> Contains([s[i]], key) then Some(units) else None
    case _ => None
  }

  /** How many times a `for` loop over the value runs its body. */
  function IterCount(v: Value): nat {
    match v
    case Arr(xs) => |xs|
    case Obj(f) => |f.Keys|
    case Str(s) => |s|
    case _ => 0
  }

  /** The three `if k not in st: st[k] = ...` lines after the first loop. */
  const AddedDefaults: map<string, Value> := map[
    "tramPresets" := StateStore.DefaultTramPresets,
    "buzzer" := StateStore.DefaultBuzzer,
    "pressHistory" := Arr([])]

  /** The `autoDelay` lines: `setdefault("currentMs", manualMs or 500)` on a
      present dict (the raw value, not `int()` of it), the full default when absent. */
  function MigrateAutoDelay(st: map<string, Value>): (r: Option<map<string, Value>>)
    ensures r.Some? ==> r.value.Keys == st.Keys + {"autoDelay"}
    ensures r.Some? ==> forall k :: k in st && k != "autoDelay" ==> r.value[k] == st[k]
    ensures r.None? <==> "autoDelay" in st && !st["autoDelay"].Obj?
    ensures "autoDelay" !in st ==> r.Some? && r.value["autoDelay"] == StateStore.DefaultAutoDelay
    ensures "autoDelay" in st && st["autoDelay"].Obj? ==>
      var ad := st["autoDelay"].fields;
      && r.Some? && r.value["autoDelay"].Obj?
      && r.value["autoDelay"].fields.Keys == ad.Keys + {"currentMs"}
      && (forall k :: k in ad ==> r.value["autoDelay"].fields[k] == ad[k])
      && ("currentMs" !in ad && "manualMs" in ad ==> r.value["autoDelay"].fields["currentMs"] == ad["manualMs"])
      && ("currentMs" !in ad && "manualMs" !in ad ==> r.value["autoDelay"].fields["currentMs"] == Int(500))
  {
    if "autoDelay" in st then
      match st["autoDelay"]
      case Obj(ad) => Some(st["autoDelay" := Obj(SetDefault(ad, "currentMs", GetOr(ad, "manualMs", Int(500))))])
      case _ => None
    else Some(st["autoDelay" := StateStore.DefaultAutoDelay])
  }

  /** The state after both units loops and the three added defaults, given
      the units value each loop left: only `units` and the added keys change. */
  function Filled(st: map<string, Value>, u1: Value, u2: Value): (r: map<string, Value>)
    ensures r.Keys == st.Keys + AddedDefaults.Keys
    ensures forall k :: k in st && k != "units" ==> r[k] == st[k]
    ensures forall k :: k in AddedDefaults && k !in st ==> r[k] == AddedDefaults[k]
    ensures "units" in st ==> r["units"] == u2
  {
    var st2 := FillDefaults(if "units" in st then st["units" := u1] else st, AddedDefaults);
    if "units" in st then st2["units" := u2] else st2
  }

  /** The units values the two loops leave, or None when either raises. */
  function UnitsPass(st: map<string, Value>): (r: Option<(Value, Value)>)
    ensures var a := FillKeyAll(GetOr(st, "units", Arr([])), "perDelayMs", Int(0));
      r.None? <==> a.None? || FillKeyAll(a.value, "pulsesPerLiter", Int(450)).None?
    ensures r.Some? ==> r.value.0 == FillKeyAll(GetOr(st, "units", Arr([])), "perDelayMs", Int(0)).value
    ensures r.Some? ==> r.value.1 == FillKeyAll(r.value.0, "pulsesPerLiter", Int(450)).value
  {
    match FillKeyAll(GetOr(st, "units", Arr([])), "perDelayMs", Int(0))
    case None => None
    case Some(u1) =>
      match FillKeyAll(u1, "pulsesPerLiter", Int(450))
      case None => None
      case Some(u2) => Some((u1, u2))
  }

  /** `st["simulation"] = {...}` run once per iteration of the second loop:
      after `n` iterations it is set exactly when `n > 0`. */
  function ResetSimulation(st: map<string, Value>, n: nat): (r: map<string, Value>)
    ensures n > 0 ==> r == st["simulation" := StateStore.DefaultSimulation]
    ensures n == 0 ==> r == st
  {
    if n > 0 then st["simulation" := StateStore.DefaultSimulation] else st
  }

  /** The `try` block of `load_state` on a decoded dict, as written: the
      `simulation` reset sits inside the second units loop. None when any line
      raises. */
  function Migrated(st: map<string, Value>): (r: Option<map<string, Value>>) {
    match UnitsPass(st)
    case None => None
    case Some(us) => MigrateAutoDelay(ResetSimulation(Filled(st, us.0, us.1), IterCount(us.0)))
  }

  /** `load_state()`: the migrated file, or the defaults when there is no file
      or anything in the `try` block raises (JSON errors, a document that is
      not a dict, units that cannot be iterated or filled, an `autoDelay` that
      is not a dict). */
  function LoadedState(f: FileRead): map<string, Value> {
    if f.Parsed? && f.doc.Obj? then
      match Migrated(f.doc.fields)
      case Some(r) => r
      case None => ServerDefaultState()
    else ServerDefaultState()
  }

  /** The units loop of `load_state` run against the decoded value. */
  method FillUnits(units: Value, key: string, dflt: Value) returns (r: Option<Value>)
    ensures r == FillKeyAll(units, key, dflt)
  {
    if !units.Arr? {
      return FillKeyAll(units, key, dflt);
    }
    var xs := units.items;
    var ys := xs;
    var i := 0;
    while i < |xs|
      invariant 0 <= i <= |xs| && |ys| == |xs|
      invariant forall j :: 0 <= j < i ==> FillKey(xs[j], key, dflt).Some?
      invariant forall j :: 0 <= j < |xs| ==> ys[j] == if j < i then FillKey(xs[j], key, dflt).value else xs[j]
    {
      var u := FillKey(xs[i], key, dflt);
      if u.None? {
        return None;
      }
      ys := ys[i := u.value];
      i := i + 1;
    }
    assert ys == FilledEach(xs, key, dflt);
    r := Some(Arr(ys));
  }

  /** The `try` block of `load_state()` run against a shared dict. */
  method MigrateState(m: map<string, Value>) returns (r: Option<map<string, Value>>)
    ensures r == Migrated(m)
  {
    var d := new Dict(m);
    var u1 := FillUnits(GetOr(d.m, "units", Arr([])), "perDelayMs", Int(0));
    if u1.None? {
      return None;
    }
    if "units" in d.m {
      d.m := d.m["units" := u1.value];
    }
    SetDefaults(d, AddedDefaults);
    var u2 := FillUnits(u1.value, "pulsesPerLiter", Int(450));
    if u2.None? {
      return None;
    }
    if "units" in d.m {
      d.m := d.m["units" := u2.value];
    }
    assert d.m == Filled(m, u1.value, u2.value);
    d.m := ResetSimulation(d.m, IterCount(u1.value));
    r := MigrateAutoDelay(d.m);
  }

  /** `load_state()` on what reading and decoding the state file gave. */
  method LoadState(f: FileRead) returns (st: map<string, Value>)
    ensures st == LoadedState(f)
  {
    if !(f.Parsed? && f.doc.Obj?) {
      return ServerDefaultState();
    }
    var r := MigrateState(f.doc.fields);
    if r.None? {
      return ServerDefaultState();
    }
    st := r.value;
  }

  /** A missing, unreadable or non-object state file gives the defaults. */
  lemma LoadedStateFallback(f: FileRead)
    requires !(f.Parsed? && f.doc.Obj?)
    ensures LoadedState(f) == ServerDefaultState()
  {
  }

  /** A filled element that was a dict gains `key`, keeps its fields, and has
      `dflt` there when it lacked the key. */
  lemma FilledEachObj(xs: seq<Value>, key: string, dflt: Value, i: int)
    requires FillsEach(xs, key, dflt) && 0 <= i < |xs| && xs[i].Obj?
    ensures FilledEach(xs, key, dflt)[i].Obj?
    ensures FilledEach(xs, key, dflt)[i].fields.Keys == xs[i].fields.Keys + {key}
    ensures ExtendsFields(xs[i].fields, FilledEach(xs, key, dflt)[i].fields)
    ensures key !in xs[i].fields ==> FilledEach(xs, key, dflt)[i].fields[key] == dflt
  {
    assert FilledEach(xs, key, dflt)[i] == Obj(SetDefault(xs[i].fields, key, dflt));
  }

  /** The migrated units list: every unit dict has `perDelayMs` and
      `pulsesPerLiter`, with the values it had kept and 0 / 450 otherwise. */
  lemma MigratedUnitsFilled(st: map<string, Value>, i: int)
    requires Migrated(st).Some?
    requires "units" in st && st["units"].Arr?
    requires 0 <= i < |st["units"].items| && st["units"].items[i].Obj?
    ensures var r := Migrated(st).value;
      && "units" in r && r["units"].Arr? && |r["units"].items| == |st["units"].items|
      && r["units"].items[i].Obj?
      && r["units"].items[i].fields.Keys == st["units"].items[i].fields.Keys + {"perDelayMs", "pulsesPerLiter"}
      && ExtendsFields(st["units"].items[i].fields, r["units"].items[i].fields)
      && ("perDelayMs" !in st["units"].items[i].fields ==> r["units"].items[i].fields["perDelayMs"] == Int(0))
      && ("pulsesPerLiter" !in st["units"].items[i].fields ==> r["units"].items[i].fields["pulsesPerLiter"] == Int(450))
  {
    MigratedAsWritten(st);
    var xs := st["units"].items;
    var us := UnitsPass(st).value;
    var ys := FilledEach(xs, "perDelayMs", Int(0));
    assert us.0 == Arr(ys);
    FilledEachObj(xs, "perDelayMs", Int(0), i);
    var zs := FilledEach(ys, "pulsesPerLiter", Int(450));
    assert us.1 == Arr(zs);
    FilledEachObj(ys, "pulsesPerLiter", Int(450), i);
    UnitsAfterReset(Filled(st, us.0, us.1), IterCount(GetOr(st, "units", Arr([]))), Migrated(st).value);
  }

  /** The `simulation` reset and the `autoDelay` step leave `units` alone. */
  lemma UnitsAfterReset(g: map<string, Value>, n: nat, r: map<string, Value>)
    requires MigrateAutoDelay(ResetSimulation(g, n)) == Some(r)
    ensures "units" in g ==> "units" in r && r["units"] == g["units"]
  {
  }

  /** The migration adds `tramPresets`, `buzzer`, `pressHistory` and `autoDelay`
      and keeps every other key; only `units`, `simulation` and `autoDelay`
      can change value. */
  lemma MigratedKeys(st: map<string, Value>)
    requires Migrated(st).Some?
    ensures var r := Migrated(st).value;
      && (forall k :: k in AddedDefaults ==> k in r)
      && "autoDelay" in r
      && st.Keys <= r.Keys
      && (forall k :: k in st && k !in {"units", "simulation", "autoDelay"} ==> r[k] == st[k])
  {
  }

  /** The `try` block as written, opened one step: the loops succeed and the
      `simulation` reset runs once per unit of the original value. */
  lemma MigratedAsWritten(st: map<string, Value>)
    requires Migrated(st).Some?
    ensures UnitsPass(st).Some?
    ensures var us := UnitsPass(st).value;
      Migrated(st) == MigrateAutoDelay(ResetSimulation(Filled(st, us.0, us.1), IterCount(GetOr(st, "units", Arr([])))))
  {
    var us := UnitsPass(st).value;
    assert IterCount(us.0) == IterCount(GetOr(st, "units", Arr([])));
  }

  /** As written, a loaded file with at least one unit always has its
      `simulation` flags reset; with no units nothing is reset. */
  lemma MigratedSimulation(st: map<string, Value>)
    requires Migrated(st).Some?
    ensures IterCount(GetOr(st, "units", Arr([]))) > 0 ==> Migrated(st).value["simulation"] == StateStore.DefaultSimulation
    ensures IterCount(GetOr(st, "units", Arr([]))) == 0 ==>
      ("simulation" in Migrated(st).value <==> "simulation" in st)
      && ("simulation" in st ==> Migrated(st).value["simulation"] == st["simulation"])
  {
    MigratedAsWritten(st);
    var us := UnitsPass(st).value;
    FilledSimulation(st, us.0, us.1);
    SimulationAfterReset(Filled(st, us.0, us.1), IterCount(GetOr(st, "units", Arr([]))), Migrated(st).value);
  }

  /** The units loops and the added defaults leave `simulation` as it was. */
  lemma FilledSimulation(st: map<string, Value>, u1: Value, u2: Value)
    ensures "simulation" in Filled(st, u1, u2) <==> "simulation" in st
    ensures "simulation" in st ==> Filled(st, u1, u2)["simulation"] == st["simulation"]
  {
  }

  /** What the `simulation` reset and the `autoDelay` step leave in `simulation`. */
  lemma SimulationAfterReset(g: map<string, Value>, n: nat, r: map<string, Value>)
    requires MigrateAutoDelay(ResetSimulation(g, n)) == Some(r)
    ensures n > 0 ==> "simulation" in r && r["simulation"] == StateStore.DefaultSimulation
    ensures n == 0 ==> ("simulation" in r <==> "simulation" in g) && ("simulation" in g ==> r["simulation"] == g["simulation"])
  {
  }

  /** Units that are all dicts already holding `key` are left as they are. */
  lemma FillKeyAllComplete(xs: seq<Value>, key: string, dflt: Value)
    requires forall i :: 0 <= i < |xs| ==> xs[i].Obj? && key in xs[i].fields
    ensures FillKeyAll(Arr(xs), key, dflt) == Some(Arr(xs))
  {
    assert FillsEach(xs, key, dflt);
    assert FilledEach(xs, key, dflt) == xs;
  }

  /** Units that already carry both keys pass both loops unchanged. */
  lemma UnitsPassComplete(m: map<string, Value>)
    requires "units" in m && m["units"].Arr?
    requires forall i :: 0 <= i < |m["units"].items| ==>
      m["units"].items[i].Obj? && "perDelayMs" in m["units"].items[i].fields && "pulsesPerLiter" in m["units"].items[i].fields
    ensures UnitsPass(m) == Some((m["units"], m["units"]))
  {
    var xs := m["units"].items;
    FillKeyAllComplete(xs, "perDelayMs", Int(0));
    FillKeyAllComplete(xs, "pulsesPerLiter", Int(450));
  }

  /** An `autoDelay` dict that has `currentMs` is left alone. */
  lemma MigrateAutoDelayComplete(m: map<string, Value>)
    requires "autoDelay" in m && m["autoDelay"].Obj? && "currentMs" in m["autoDelay"].fields
    ensures MigrateAutoDelay(m) == Some(m)
  {
    var ad := m["autoDelay"].fields;
    assert SetDefault(ad, "currentMs", GetOr(ad, "manualMs", Int(500))) == ad;
    assert m["autoDelay" := Obj(ad)] == m;
  }

  /** A state that already has everything the migration adds is a fixed point. */
  lemma MigratedFixedPoint(m: map<string, Value>)
    requires "units" in m && m["units"].Arr?
    requires forall i :: 0 <= i < |m["units"].items| ==>
      m["units"].items[i].Obj? && "perDelayMs" in m["units"].items[i].fields && "pulsesPerLiter" in m["units"].items[i].fields
    requires AddedDefaults.Keys <= m.Keys
    requires |m["units"].items| > 0 ==> "simulation" in m && m["simulation"] == StateStore.DefaultSimulation
    requires "autoDelay" in m && m["autoDelay"].Obj? && "currentMs" in m["autoDelay"].fields
    ensures Migrated(m) == Some(m)
  {
    UnitsPassComplete(m);
    var f := Filled(m, m["units"], m["units"]);
    assert f == m;
    assert ResetSimulation(f, IterCount(m["units"])) == m;
    MigrateAutoDelayComplete(m);
  }

  lemma ServerUnitsComplete()
    ensures forall i :: 0 <= i < |ServerUnits()| ==>
      ServerUnits()[i].Obj? && "perDelayMs" in ServerUnits()[i].fields && "pulsesPerLiter" in ServerUnits()[i].fields
  {
    forall i | 0 <= i < |ServerUnits()|
      ensures ServerUnits()[i] == ServerUnit(i)
    {
    }
  }

  /** Saving the defaults and loading them back gives the defaults. */
  lemma DefaultStateRoundTrip()
    ensures LoadedState(Parsed(Obj(ServerDefaultState()))) == ServerDefaultState()
  {
    ServerUnitsComplete();
    MigratedFixedPoint(ServerDefaultState());
  }

  /** A saved "full simulation on" flag does not survive a reload. */
  lemma SimulationFlagsLost()
    ensures var st := map["units" := Arr([Obj(map[])]), "simulation" := Obj(map["telemetry" := Bool(true), "full" := Bool(true)])];
      && Migrated(st).Some?
      && Migrated(st).value["simulation"] == StateStore.DefaultSimulation
  {
    var st := map["units" := Arr([Obj(map[])]), "simulation" := Obj(map["telemetry" := Bool(true), "full" := Bool(true)])];
    OneUnitPasses(st);
    var us := UnitsPass(st).value;
    assert "autoDelay" !in Filled(st, us.0, us.1);
    MigratedSimulation(st);
  }

  /** A single empty unit dict passes both loops. */
  lemma OneUnitPasses(st: map<string, Value>)
    requires "units" in st && st["units"] == Arr([Obj(map[])])
    ensures UnitsPass(st) == Some((Arr([Obj(map["perDelayMs" := Int(0)])]), Arr([Obj(map["perDelayMs" := Int(0), "pulsesPerLiter" := Int(450)])])))
  {
    var u1 := Obj(map["perDelayMs" := Int(0)]);
    var u2 := Obj(map["perDelayMs" := Int(0), "pulsesPerLiter" := Int(450)]);
    assert FilledEach([Obj(map[])], "perDelayMs", Int(0)) == [u1];
    assert FilledEach([u1], "pulsesPerLiter", Int(450)) == [u2];
  }

  /** ... and a file with no units and no `simulation` key loads without one. */
  lemma SimulationMissing()
    ensures Migrated(map[]).Some? && "simulation" !in Migrated(map[]).value
  {
    assert FillKeyAll(Arr([]), "perDelayMs", Int(0)) == Some(Arr([]));
    assert FillKeyAll(Arr([]), "pulsesPerLiter", Int(450)) == Some(Arr([]));
    var f := Filled(map[], Arr([]), Arr([]));
    assert "simulation" !in f && "autoDelay" !in f;
  }

  /** The evidently intended migration: `simulation` is added when it is
      missing (the `if "simulation" not in st` line), and kept otherwise. */
  function MigratedIntended(st: map<string, Value>): (r: Option<map<string, Value>>) {
    match UnitsPass(st)
    case None => None
    case Some(us) => MigrateAutoDelay(SetDefault(Filled(st, us.0, us.1), "simulation", StateStore.DefaultSimulation))
  }

  /** Whether the `autoDelay` step succeeds does not depend on `simulation`,
      and neither does what it leaves in any other key. */
  lemma MigrateAutoDelayIgnoresSimulation(a: map<string, Value>, b: map<string, Value>)
    requires forall k :: k != "simulation" ==> (k in a <==> k in b)
    requires forall k :: k != "simulation" && k in a ==> a[k] == b[k]
    ensures MigrateAutoDelay(a).Some? <==> MigrateAutoDelay(b).Some?
    ensures MigrateAutoDelay(a).Some? ==> forall k :: k != "simulation" ==> (k in MigrateAutoDelay(a).value <==> k in MigrateAutoDelay(b).value)
    ensures MigrateAutoDelay(a).Some? ==> forall k :: k != "simulation" && k in MigrateAutoDelay(a).value ==> MigrateAutoDelay(a).value[k] == MigrateAutoDelay(b).value[k]
    ensures MigrateAutoDelay(a).Some? && "simulation" in a ==> MigrateAutoDelay(a).value["simulation"] == a["simulation"]
  {
  }

  /** The intended migration always has `simulation`, keeps a saved value, and
      adds the default when it is missing. */
  lemma MigratedIntendedKeepsSimulation(st: map<string, Value>)
    requires MigratedIntended(st).Some?
    ensures "simulation" in MigratedIntended(st).value
    ensures "simulation" in st ==> MigratedIntended(st).value["simulation"] == st["simulation"]
    ensures "simulation" !in st ==> MigratedIntended(st).value["simulation"] == StateStore.DefaultSimulation
  {
    var us := UnitsPass(st).value;
    var a := SetDefault(Filled(st, us.0, us.1), "simulation", StateStore.DefaultSimulation);
    MigrateAutoDelayIgnoresSimulation(a, a);
  }

  /** Apart from `simulation`, the intended migration agrees with the code as
      written, and it fails on exactly the same files. */
  lemma MigratedIntendedAgrees(st: map<string, Value>)
    ensures MigratedIntended(st).Some? <==> Migrated(st).Some?
    ensures MigratedIntended(st).Some? ==>
      && (forall k :: k != "simulation" ==> (k in MigratedIntended(st).value <==> k in Migrated(st).value))
      && (forall k :: k != "simulation" && k in Migrated(st).value ==> MigratedIntended(st).value[k] == Migrated(st).value[k])
  {
    if UnitsPass(st).Some? {
      var us := UnitsPass(st).value;
      var f := Filled(st, us.0, us.1);
      MigrateAutoDelayIgnoresSimulation(SetDefault(f, "simulation", StateStore.DefaultSimulation), ResetSimulation(f, IterCount(us.0)));
    }
  }

  /** The other reading of the intended migration: reset `simulation` once,
      after the loop, whatever the number of units. No simulation task runs
      right after a load, so stale flags would misreport. */
  function MigratedAlwaysReset(st: map<string, Value>): (r: Option<map<string, Value>>) {
    match UnitsPass(st)
    case None => None
    case Some(us) => MigrateAutoDelay(Filled(st, us.0, us.1)["simulation" := StateStore.DefaultSimulation])
  }

  /** Under that reading every loaded state has both flags off. */
  lemma MigratedAlwaysResetClearsSimulation(st: map<string, Value>)
    requires MigratedAlwaysReset(st).Some?
    ensures "simulation" in MigratedAlwaysReset(st).value
    ensures MigratedAlwaysReset(st).value["simulation"] == StateStore.DefaultSimulation
  {
    var us := UnitsPass(st).value;
    var a := Filled(st, us.0, us.1)["simulation" := StateStore.DefaultSimulation];
    MigrateAutoDelayIgnoresSimulation(a, a);
  }

  /** Apart from `simulation` it also agrees with the code as written, and it
      fails on exactly the same files. */
  lemma MigratedAlwaysResetAgrees(st: map<string, Value>)
    ensures MigratedAlwaysReset(st).Some? <==> Migrated(st).Some?
    ensures MigratedAlwaysReset(st).Some? ==>
      && (forall k :: k != "simulation" ==> (k in MigratedAlwaysReset(st).value <==> k in Migrated(st).value))
      && (forall k :: k != "simulation" && k in Migrated(st).value ==> MigratedAlwaysReset(st).value[k] == Migrated(st).value[k])
  {
    if UnitsPass(st).Some? {
      var us := UnitsPass(st).value;
      var f := Filled(st, us.0, us.1);
      MigrateAutoDelayIgnoresSimulation(f["simulation" := StateStore.DefaultSimulation], ResetSimulation(f, IterCount(us.0)));
    }
  }
}
