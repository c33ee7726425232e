/** The shared Brain state store: the default state, the additive,
    setdefault-only migration applied to every loaded file, the bounded event
    log, and the choice between the state file, its backup and the defaults. */
module StateStore {
  import opened Builtins
  import opened Json

  // ---------------------------------------------------------------------
  // Defaults
  // ---------------------------------------------------------------------

  /** The unit at zero-based index `i` of the default list. */
  function DefaultUnit(i: nat): Value {
    Obj(map[
      "id" := Int(i + 1),
      "enabled" := Bool(i < 4),
      "group" := Str(if i % 2 == 0 then "A" else "B"),
      "momentary" := Str("M1"),
      "offset" := Int(0),
      "perDelayMs" := Int(0),
      "lastDeliveredMl" := Null,
      "deviation" := Null,
      "status" := Str("OK"),
      "pulsesPerCycle" := Int(100),
      "msPerMl" := Real(5.0),
      "mode" := Str("inherit")])
  }

  function DefaultUnits(): seq<Value> {
    seq(11, (i: nat) => DefaultUnit(i))
  }

  /** `_default_units` builds the list one unit at a time. */
  method BuildDefaultUnits() returns (out: seq<Value>)
    ensures out == DefaultUnits()
  {
    out := [];
    var i := 0;
    while i < 11
      invariant 0 <= i <= 11
      invariant out == DefaultUnits()[..i]
    {
      out := out + [DefaultUnit(i)];
      i := i + 1;
    }
  }

  /** Eleven units with ids 1..11; exactly units 1-4 are enabled; odd ids are in
      group A and even ids in group B. */
  lemma DefaultUnitsLayout()
    ensures |DefaultUnits()| == 11
    ensures forall i :: 0 <= i < 11 ==>
      && DefaultUnits()[i].Obj?
      && DefaultUnits()[i].fields["id"] == Int(i + 1)
      && (DefaultUnits()[i].fields["enabled"] == Bool(true) <==> i + 1 <= 4)
      && DefaultUnits()[i].fields["enabled"].Bool?
      && (DefaultUnits()[i].fields["group"] == Str("A") <==> (i + 1) % 2 == 1)
      && (DefaultUnits()[i].fields["group"] == Str("B") <==> (i + 1) % 2 == 0)
  {
    forall i | 0 <= i < 11
      ensures DefaultUnits()[i] == DefaultUnit(i)
    {
    }
  }

  const DefaultMomentary: Value := Obj(map[
    "M1" := Obj(map["enabled" := Bool(true), "offset" := Int(0)]),
    "M2" := Obj(map["enabled" := Bool(false), "offset" := Int(0)]),
    "M3" := Obj(map["enabled" := Bool(false), "offset" := Int(0)])])

  const DefaultTramPresets: Value := Obj(map["left" := Arr([]), "right" := Arr([]), "active" := Null])

  const DefaultBuzzer: Value := Obj(map["muted" := Bool(false), "hardMute" := Bool(false)])

  const DefaultAutoDelay: Value :=
    Obj(map["enabled" := Bool(true), "manualMs" := Int(500), "geomLeadMs" := Int(0), "currentMs" := Int(500)])

  const DefaultSimulation: Value := Obj(map["telemetry" := Bool(false), "full" := Bool(false)])

  /** `default_state()`. */
  function DefaultState(): map<string, Value> {
    map[
      "targetMl" := Int(100),
      "running" := Bool(false),
      "deliveryMode" := Str("flow"),
      "momentary" := DefaultMomentary,
      "tramline" := Obj(map[]),
      "tramPresets" := DefaultTramPresets,
      "buzzer" := DefaultBuzzer,
      "autoDelay" := DefaultAutoDelay,
      "units" := Arr(DefaultUnits()),
      "eventLog" := Arr([]),
      "pressHistory" := Arr([]),
      "simulation" := DefaultSimulation,
      "gpio" := Obj(map[])]
  }

  // ---------------------------------------------------------------------
  // Migration
  // ---------------------------------------------------------------------

  /** The top-level setdefault block of `_migrate`. */
  const TopDefaults: map<string, Value> := map[
    "targetMl" := Int(100),
    "running" := Bool(false),
    "deliveryMode" := Str("flow"),
    "momentary" := DefaultMomentary,
    "tramline" := Obj(map[]),
    "tramPresets" := DefaultTramPresets,
    "buzzer" := DefaultBuzzer,
    "autoDelay" := DefaultAutoDelay,
    "units" := Arr(DefaultUnits()),
    "eventLog" := Arr([]),
    "pressHistory" := Arr([]),
    "simulation" := DefaultSimulation,
    "gpio" := Obj(map[])]

  /** The per-unit setdefault block of `_migrate`: the eleven per-unit fields. */
  const UnitDefaults: map<string, Value> := map[
    "enabled" := Bool(true),
    "group" := Str("A"),
    "momentary" := Str("M1"),
    "offset" := Int(0),
    "perDelayMs" := Int(0),
    "lastDeliveredMl" := Null,
    "deviation" := Null,
    "status" := Str("OK"),
    "pulsesPerCycle" := Int(100),
    "msPerMl" := Real(5.0),
    "mode" := Str("inherit")]

  /** The setdefault block of `_migrate` and `default_state()` list the same
      keys with the same values. */
  lemma TopDefaultsAreDefaultState()
    ensures TopDefaults == DefaultState()
  {
  }

  /** Index of the first element of the units list that is not a dict: the one
      whose `u.setdefault` raises. `|xs|` when there is none. */
  function FirstNonObj(xs: seq<Value>): (r: nat)
    ensures r <= |xs|
    ensures forall j :: 0 <= j < r ==> xs[j].Obj?
    ensures r < |xs| ==> !xs[r].Obj?
  {
    if xs == [] || !xs[0].Obj? then 0 else 1 + FirstNonObj(xs[1..])
  }

  /** The per-unit setdefault block applied to one unit dict. */
  function FillUnit(u: Value): (r: Value)
    requires u.Obj?
    ensures r.Obj? && r.fields.Keys == u.fields.Keys + UnitDefaults.Keys
    ensures ExtendsFields(u.fields, r.fields)
    ensures UnitDefaults.Keys <= u.fields.Keys ==> r == u
  {
    Obj(FillDefaults(u.fields, UnitDefaults))
  }

  /** The units list after the per-unit loop: every unit before the first
      non-dict is filled, the rest are untouched. */
  function MigratedUnitList(xs: seq<Value>): (r: seq<Value>)
    ensures |r| == |xs|
  {
    seq(|xs|, i requires 0 <= i < |xs| => if i < FirstNonObj(xs) then FillUnit(xs[i]) else xs[i])
  }

  /** `for u in units: u.setdefault(...)` on whatever `units` holds: a list is
      walked until an element that is not a dict; a dict iterates over its keys
      and a string over its characters, so each succeeds only when empty; any
      other value is not iterable. The flag says whether the loop completed. */
  function MigrateUnitsValue(units: Value): (Value, bool) {
    match units
    case Arr(xs) => (Arr(MigratedUnitList(xs)), FirstNonObj(xs) == |xs|)
    case Obj(f) => (units, f == map[])
    case Str(s) => (units, s == "")
    case _ => (units, false)
  }

  /** The `currentMs` rule on the auto-delay value: kept when present, otherwise
      set to `int(manualMs)` (500 when absent). None where Python raises: a value
      that does not support `in`, a list or string without the key (no `get`),
      or a `manualMs` that `int()` rejects. */
  function FillCurrentMs(ad: Value): (r: Option<Value>)
    ensures ad.Obj? && "currentMs" in ad.fields ==> r == Some(ad)
    ensures ad.Obj? && "currentMs" !in ad.fields ==>
      r == (match PyInt(GetOr(ad.fields, "manualMs", Int(500)))
            case Some(n) => Some(Obj(ad.fields["currentMs" := Int(n)]))
            case None => None)
    ensures !ad.Obj? && !ad.Arr? && !ad.Str? ==> r == None
  {
    match HasKey(ad, "currentMs")
    case None => None
    case Some(present) =>
      if present then Some(ad)
      else if ad.Obj? then
        match PyInt(GetOr(ad.fields, "manualMs", Int(500)))
        case Some(n) => Some(Obj(ad.fields["currentMs" := Int(n)]))
        case None => None
      else None
  }

  /** Once `currentMs` is in place the rule changes nothing. */
  lemma FillCurrentMsIdempotent(ad: Value)
    requires FillCurrentMs(ad).Some?
    ensures FillCurrentMs(FillCurrentMs(ad).value) == FillCurrentMs(ad)
  {
  }

  /** What `_migrate` does after its top-level setdefault block: the loop over
      the units, then the `currentMs` rule. The flag is false when it raises; the
      changes made so far stay. */
  function MigrateRest(top: map<string, Value>): (r: (map<string, Value>, bool))
    requires "units" in top && "autoDelay" in top
    ensures r.0.Keys == top.Keys
  {
    var (units, unitsOk) := MigrateUnitsValue(top["units"]);
    var st := top["units" := units];
    if !unitsOk then (st, false)
    else match FillCurrentMs(st["autoDelay"])
      case None => (st, false)
      case Some(ad) => (st["autoDelay" := ad], true)
  }

  /** `_migrate(st)`: the state after the call and whether it returned. */
  function Migrated(m: map<string, Value>): (map<string, Value>, bool) {
    MigrateRest(FillDefaults(m, TopDefaults))
  }

  /** `_migrate` on a shared dict. */
  method Migrate(st: Dict) returns (ok: bool)
    modifies st
    ensures (st.m, ok) == Migrated(old(st.m))
  {
    SetDefaults(st, TopDefaults);
    ok := MigrateUnitsAndDelay(st);
  }

  /** The per-unit loop and the `currentMs` rule on a shared dict. */
  method MigrateUnitsAndDelay(st: Dict) returns (ok: bool)
    requires "units" in st.m && "autoDelay" in st.m
    modifies st
    ensures (st.m, ok) == MigrateRest(old(st.m))
  {
    var units := st.m["units"];
    if units.Arr? {
      var xs := units.items;
      var us := xs;
      var i := 0;
      while i < |xs| && xs[i].Obj?
        invariant 0 <= i <= |xs| && |us| == |xs|
        invariant forall j :: 0 <= j < i ==> xs[j].Obj?
        invariant forall j :: 0 <= j < |xs| ==> us[j] == if j < i then FillUnit(xs[j]) else xs[j]
      {
        us := us[i := Obj(FillDefaults(xs[i].fields, UnitDefaults))];
        i := i + 1;
      }
      assert i == FirstNonObj(xs);
      assert us == MigratedUnitList(xs);
      st.m := st.m["units" := Arr(us)];
      if i < |xs| {
        return false;
      }
    } else if !((units.Obj? && units.fields == map[]) || units == Str("")) {
      assert st.m == old(st.m)["units" := units];
      return false;
    } else {
      assert st.m == old(st.m)["units" := units];
    }
    var ad := FillCurrentMs(st.m["autoDelay"]);
    if ad.None? {
      return false;
    }
    st.m := st.m["autoDelay" := ad.value];
    ok := true;
  }

  /** `b` keeps everything `a` had: the same value, a dict with `a`'s entries and
      perhaps more, or a list of the same length whose dicts grew that way. */
  predicate Extends(a: Value, b: Value) {
    || a == b
    || (a.Obj? && b.Obj? && ExtendsFields(a.fields, b.fields))
    || (a.Arr? && b.Arr? && |a.items| == |b.items|
        && forall i :: 0 <= i < |a.items| ==>
             a.items[i] == b.items[i]
             || (a.items[i].Obj? && b.items[i].Obj? && ExtendsFields(a.items[i].fields, b.items[i].fields)))
  }

  /** After `_migrate`, raising or not, every default top-level key is present
      and no other key has been added. */
  lemma MigratedHasTopKeys(m: map<string, Value>)
    ensures Migrated(m).0.Keys == m.Keys + DefaultState().Keys
  {
    TopDefaultsAreDefaultState();
  }

  lemma MigrateRestExtends(top: map<string, Value>)
    requires "units" in top && "autoDelay" in top
    ensures forall k :: k in top ==> Extends(top[k], MigrateRest(top).0[k])
    ensures forall k :: k in top && k != "units" && k != "autoDelay" ==> MigrateRest(top).0[k] == top[k]
  {
    var u := top["units"];
    if u.Arr? {
      var xs := u.items;
      var ys := MigratedUnitList(xs);
      forall i | 0 <= i < |xs|
        ensures xs[i] == ys[i] || (xs[i].Obj? && ys[i].Obj? && ExtendsFields(xs[i].fields, ys[i].fields))
      {
      }
      assert Extends(u, Arr(ys));
    }
  }

  /** `_migrate` is additive: it never overwrites a present value. Keys other than
      `units` and `autoDelay` keep their values exactly; those two only grow. */
  lemma MigratedExtends(m: map<string, Value>)
    ensures forall k :: k in m ==> k in Migrated(m).0 && Extends(m[k], Migrated(m).0[k])
    ensures forall k :: k in m && k != "units" && k != "autoDelay" ==> Migrated(m).0[k] == m[k]
  {
    MigrateRestExtends(FillDefaults(m, TopDefaults));
  }

  /** When `_migrate` returns, every unit in the units list carries all eleven
      per-unit fields; a units value that is not a list can only be empty. */
  lemma MigratedUnitsComplete(m: map<string, Value>)
    requires Migrated(m).1
    ensures var u := Migrated(m).0["units"];
      && (u.Arr? || u == Obj(map[]) || u == Str(""))
      && (u.Arr? ==> forall v :: v in u.items ==> v.Obj? && UnitDefaults.Keys <= v.fields.Keys)
  {
    var top := FillDefaults(m, TopDefaults);
    var u := top["units"];
    if u.Arr? {
      var ys := MigratedUnitList(u.items);
      assert FirstNonObj(u.items) == |u.items|;
      forall v | v in ys
        ensures v.Obj? && UnitDefaults.Keys <= v.fields.Keys
      {
        var i :| 0 <= i < |ys| && ys[i] == v;
        assert v == FillUnit(u.items[i]);
      }
    }
  }

  lemma TopDefaultsAutoDelay()
    ensures "autoDelay" in TopDefaults && TopDefaults["autoDelay"] == DefaultAutoDelay
  {
  }

  /** When `_migrate` returns and the auto-delay value is a dict, `currentMs` is
      there: kept if it was, otherwise `int(manualMs)` or 500. */
  lemma MigratedCurrentMs(m: map<string, Value>)
    requires Migrated(m).1
    requires GetOr(m, "autoDelay", DefaultAutoDelay).Obj?
    ensures var ad0 := GetOr(m, "autoDelay", DefaultAutoDelay).fields;
      var ad := Migrated(m).0["autoDelay"];
      && ad.Obj?
      && "currentMs" in ad.fields
      && ("currentMs" in ad0 ==> ad.fields == ad0)
      && ("currentMs" !in ad0 ==>
            PyInt(GetOr(ad0, "manualMs", Int(500))).Some?
            && ad.fields == ad0["currentMs" := Int(PyInt(GetOr(ad0, "manualMs", Int(500))).value)])
  {
    var top := FillDefaults(m, TopDefaults);
    TopDefaultsAutoDelay();
    FillDefaultsAt(m, TopDefaults, "autoDelay", DefaultAutoDelay);
    MigrateRestCurrentMs(top);
  }

  lemma MigrateRestCurrentMs(top: map<string, Value>)
    requires "units" in top && "autoDelay" in top
    requires MigrateRest(top).1 && top["autoDelay"].Obj?
    ensures var ad0 := top["autoDelay"].fields;
      var ad := MigrateRest(top).0["autoDelay"];
      && ad.Obj?
      && "currentMs" in ad.fields
      && ("currentMs" in ad0 ==> ad.fields == ad0)
      && ("currentMs" !in ad0 ==>
            PyInt(GetOr(ad0, "manualMs", Int(500))).Some?
            && ad.fields == ad0["currentMs" := Int(PyInt(GetOr(ad0, "manualMs", Int(500))).value)])
  {
  }

  lemma MigratedUnitListIdempotent(xs: seq<Value>)
    ensures FirstNonObj(MigratedUnitList(xs)) == FirstNonObj(xs)
    ensures MigratedUnitList(MigratedUnitList(xs)) == MigratedUnitList(xs)
  {
    var ys := MigratedUnitList(xs);
    var n := FirstNonObj(xs);
    assert forall j :: 0 <= j < n ==> ys[j].Obj?;
    if n < |xs| {
      assert ys[n] == xs[n];
    }
    forall i | 0 <= i < n
      ensures FillUnit(ys[i]) == ys[i]
    {
    }
  }

  lemma MigrateRestIdempotent(top: map<string, Value>)
    requires "units" in top && "autoDelay" in top
    ensures MigrateRest(MigrateRest(top).0) == MigrateRest(top)
  {
    var (units, unitsOk) := MigrateUnitsValue(top["units"]);
    assert MigrateUnitsValue(units) == (units, unitsOk) by {
      if top["units"].Arr? {
        MigratedUnitListIdempotent(top["units"].items);
      }
    }
    var st := top["units" := units];
    assert st["units" := units] == st;
    if unitsOk && FillCurrentMs(st["autoDelay"]).Some? {
      var ad := FillCurrentMs(st["autoDelay"]).value;
      FillCurrentMsIdempotent(st["autoDelay"]);
      assert st["autoDelay" := ad]["units" := units] == st["autoDelay" := ad];
      assert st["autoDelay" := ad]["autoDelay" := ad] == st["autoDelay" := ad];
    }
  }

  /** `_migrate(_migrate(x)) == _migrate(x)`, both for the state it leaves and for
      whether it raises. */
  lemma MigratedIdempotent(m: map<string, Value>)
    ensures Migrated(Migrated(m).0) == Migrated(m)
  {
    var top := FillDefaults(m, TopDefaults);
    assert FillDefaults(MigrateRest(top).0, TopDefaults) == MigrateRest(top).0;
    MigrateRestIdempotent(top);
  }

  /** Every default unit already carries the eleven fields. */
  lemma DefaultUnitsFilled()
    ensures FirstNonObj(DefaultUnits()) == 11
    ensures MigratedUnitList(DefaultUnits()) == DefaultUnits()
  {
    var us := DefaultUnits();
    assert forall i :: 0 <= i < 11 ==> us[i] == DefaultUnit(i);
    forall i | 0 <= i < 11
      ensures FillUnit(us[i]) == us[i]
    {
      assert UnitDefaults.Keys <= us[i].fields.Keys;
    }
  }

  /** Migrating an empty document gives exactly `default_state()`. */
  lemma MigratedEmpty()
    ensures Migrated(map[]) == (DefaultState(), true)
  {
    TopDefaultsAreDefaultState();
    assert FillDefaults(map[], TopDefaults) == DefaultState();
    MigrateRestDefault();
  }

  lemma MigrateRestDefault()
    ensures MigrateRest(DefaultState()) == (DefaultState(), true)
  {
    var st := DefaultState();
    assert st["units"] == Arr(DefaultUnits()) && st["autoDelay"] == DefaultAutoDelay;
    DefaultUnitsMigrate();
    DefaultAutoDelayHasCurrent();
    MigrateRestFixedPoint(st);
  }

  /** A state whose units and auto-delay value the loop and the rule leave alone
      is left alone by the rest of `_migrate`. */
  lemma MigrateRestFixedPoint(top: map<string, Value>)
    requires "units" in top && "autoDelay" in top
    requires MigrateUnitsValue(top["units"]) == (top["units"], true)
    requires FillCurrentMs(top["autoDelay"]) == Some(top["autoDelay"])
    ensures MigrateRest(top) == (top, true)
  {
    assert top["units" := top["units"]] == top;
    assert top["autoDelay" := top["autoDelay"]] == top;
  }

  lemma DefaultUnitsMigrate()
    ensures MigrateUnitsValue(Arr(DefaultUnits())) == (Arr(DefaultUnits()), true)
  {
    DefaultUnitsFilled();
  }

  lemma DefaultAutoDelayHasCurrent()
    ensures FillCurrentMs(DefaultAutoDelay) == Some(DefaultAutoDelay)
  {
  }

  /** The default state is a fixed point of `_migrate`. */
  lemma MigratedDefault()
    ensures Migrated(DefaultState()) == (DefaultState(), true)
  {
    MigratedEmpty();
    MigratedIdempotent(map[]);
  }

  // ---------------------------------------------------------------------
  // The event log
  // ---------------------------------------------------------------------

  /** One log entry `{"t": <ms>, "msg": msg}`. */
  function LogEntry(t: int, msg: string): Value {
    Obj(map["t" := Int(t), "msg" := Str(msg)])
  }

  /** `log_event(st, msg, max_keep)` at time `nowMs`: the new state and whether it
      returned. It raises when `eventLog` holds something other than a list. */
  function Logged(m: map<string, Value>, msg: string, maxKeep: int, nowMs: int): (map<string, Value>, bool) {
    var m1 := SetDefault(m, "eventLog", Arr([]));
    match m1["eventLog"]
    case Arr(xs) =>
      (m1["eventLog" := Arr(AppendBounded(xs, LogEntry(nowMs, msg), maxKeep))], true)
    case _ => (m1, false)
  }

  method LogEvent(st: Dict, msg: string, maxKeep: int, nowMs: int) returns (ok: bool)
    modifies st
    ensures (st.m, ok) == Logged(old(st.m), msg, maxKeep, nowMs)
  {
    st.m := SetDefault(st.m, "eventLog", Arr([]));
    var log := st.m["eventLog"];
    if !log.Arr? {
      return false;
    }
    var ys := log.items + [LogEntry(nowMs, msg)];
    if |ys| > maxKeep {
      ys := SliceFrom(ys, -maxKeep);
    }
    assert ys == AppendBounded(log.items, LogEntry(nowMs, msg), maxKeep);
    st.m := st.m["eventLog" := Arr(ys)];
    ok := true;
  }

  /** The log `log_event` appends to: the stored list, or an empty one. */
  function LogOf(m: map<string, Value>): Value {
    GetOr(m, "eventLog", Arr([]))
  }

  /** When the log is a list, `log_event` returns and changes only `eventLog`. */
  lemma LoggedOnlyTouchesLog(m: map<string, Value>, msg: string, maxKeep: int, nowMs: int)
    requires LogOf(m).Arr?
    ensures Logged(m, msg, maxKeep, nowMs).1
    ensures Logged(m, msg, maxKeep, nowMs).0.Keys == m.Keys + {"eventLog"}
    ensures forall k :: k in m && k != "eventLog" ==> Logged(m, msg, maxKeep, nowMs).0[k] == m[k]
  {
  }

  /** The log after `log_event`: the bounded append of the new entry. With the
      bounded-append lemmas this gives: a positive bound keeps the most recent
      `maxKeep` entries in order with the new one last, and 0 keeps everything. */
  lemma LoggedLog(m: map<string, Value>, msg: string, maxKeep: int, nowMs: int)
    requires LogOf(m).Arr?
    ensures Logged(m, msg, maxKeep, nowMs).0["eventLog"] == Arr(AppendBounded(LogOf(m).items, LogEntry(nowMs, msg), maxKeep))
  {
  }

  /** With a positive bound the log keeps its most recent min(maxKeep, n + 1)
      entries, in order, the new one last. */
  lemma LoggedNewestLast(m: map<string, Value>, msg: string, maxKeep: int, nowMs: int)
    requires maxKeep >= 1
    requires LogOf(m).Arr?
    ensures var log := Logged(m, msg, maxKeep, nowMs).0["eventLog"];
      var before := LogOf(m).items;
      && log.Arr? && 1 <= |log.items| <= maxKeep
      && |log.items| == (if |before| + 1 < maxKeep then |before| + 1 else maxKeep)
      && log.items == (before + [LogEntry(nowMs, msg)])[|before| + 1 - |log.items|..]
      && log.items[|log.items| - 1] == LogEntry(nowMs, msg)
  {
    LoggedLog(m, msg, maxKeep, nowMs);
    AppendBoundedKeepsRecent(LogOf(m).items, LogEntry(nowMs, msg), maxKeep);
  }

  /** A log that is not a list makes `log_event` raise after the setdefault. */
  lemma LoggedRejectsNonList(m: map<string, Value>, msg: string, maxKeep: int, nowMs: int)
    requires "eventLog" in m && !m["eventLog"].Arr?
    ensures Logged(m, msg, maxKeep, nowMs) == (m, false)
  {
  }

  // ---------------------------------------------------------------------
  // Choosing what to load
  // ---------------------------------------------------------------------

  /** Parse-and-migrate of one file: a JSON object that `_migrate` accepts. */
  function TryLoad(f: FileRead): (r: Option<map<string, Value>>)
    ensures r.Some? <==> f.Parsed? && f.doc.Obj? && Migrated(f.doc.fields).1
    ensures r.Some? ==> r.value == Migrated(f.doc.fields).0
  {
    match f
    case Parsed(Obj(m)) => if Migrated(m).1 then Some(Migrated(m).0) else None
    case _ => None
  }

  /** `load_state` as a decision: no state file gives the defaults without looking
      at the backup; otherwise the migrated state file, else the migrated backup,
      else the defaults. */
  function LoadState(primary: FileRead, backup: FileRead): map<string, Value> {
    if primary.Absent? then DefaultState()
    else match TryLoad(primary)
      case Some(st) => st
      case None =>
        match TryLoad(backup)
        case Some(st) => st
        case None => DefaultState()
  }

  /** The three-way choice of `load_state`. */
  lemma LoadStateChoice(primary: FileRead, backup: FileRead)
    ensures primary.Absent? ==> LoadState(primary, backup) == DefaultState()
    ensures !primary.Absent? && TryLoad(primary).Some? ==> LoadState(primary, backup) == TryLoad(primary).value
    ensures !primary.Absent? && TryLoad(primary).None? && TryLoad(backup).Some? ==> LoadState(primary, backup) == TryLoad(backup).value
    ensures !primary.Absent? && TryLoad(primary).None? && TryLoad(backup).None? ==> LoadState(primary, backup) == DefaultState()
  {
  }

  /** Whatever is loaded is already normalised: it has every default key and
      migrating it again changes nothing and does not raise. */
  lemma LoadStateNormalised(primary: FileRead, backup: FileRead)
    ensures DefaultState().Keys <= LoadState(primary, backup).Keys
    ensures Migrated(LoadState(primary, backup)) == (LoadState(primary, backup), true)
  {
    MigratedDefault();
    var st := LoadState(primary, backup);
    if st != DefaultState() {
      var f := if TryLoad(primary).Some? then primary else backup;
      assert TryLoad(f).Some? && st == Migrated(f.doc.fields).0;
      MigratedIdempotent(f.doc.fields);
      MigratedHasTopKeys(f.doc.fields);
    }
  }
}
