/** The single-file server's WebSocket hub seen as a state machine: the
    `handle_msg` updates of the shared state (setters that clamp or normalise
    their input and touch only the unit they name, tramline set and clean,
    simulation switches, calibration log lines), one iteration of the
    simulated cycle loop with its status bands, and one tick of the
    auto-diamond delay loop. The state is a typed record of the shape
    `default_state()` gives. */
module Server {
  import opened Builtins
  import opened Json

  // ---------------------------------------------------------------------
  // State
  // ---------------------------------------------------------------------

  /** One unit dict of `state["units"]`. */
  datatype Unit = Unit(
    id: int,
    enabled: bool,
    group: string,
    momentary: Value,
    offset: int,
    perDelayMs: int,
    lastDeliveredMl: Option<int>,
    deviation: Option<real>,
    status: string,
    pulsesPerCycle: int,
    pulsesPerLiter: int,
    msPerMl: real,
    mode: string)

  datatype AutoDelayCfg = AutoDelayCfg(enabled: bool, manualMs: int, geomLeadMs: int, currentMs: int)

  datatype Buzzer = Buzzer(muted: bool, hardMute: bool)

  datatype Simulation = Simulation(telemetry: bool, full: bool)

  /** An `eventLog` entry: a time in milliseconds and a message. */
  datatype Event = Event(t: int, msg: string)

  /** `Hub.state`. Press times are in milliseconds. */
  datatype HubState = HubState(
    targetMl: int,
    running: bool,
    deliveryMode: string,
    momentary: Value,
    tramline: map<Value, bool>,
    tramPresets: Value,
    buzzer: Buzzer,
    autoDelay: AutoDelayCfg,
    units: seq<Unit>,
    eventLog: seq<Event>,
    pressHistory: seq<int>,
    simulation: Simulation,
    gpio: map<Value, Value>)

  /** `log_event` keeps the 100 most recent entries. */
  const LogKeep := 100

  /** The cycle simulator keeps the 20 most recent presses. */
  const PressKeep := 20

  /** Presses count towards the auto delay for 15 seconds. */
  const PressWindowMs := 15000

  // ---------------------------------------------------------------------
  // log_event
  // ---------------------------------------------------------------------

  /** `log_event(state, msg)` at time `nowMs`. */
  function Logged(s: HubState, msg: string, nowMs: int): HubState {
    s.(eventLog := AppendBounded(s.eventLog, Event(nowMs, msg), LogKeep))
  }

  /** The log gains the new entry last, keeps at most 100 entries, which are
      the most recent ones in order, and nothing else in the state changes. */
  lemma LoggedKeepsRecent(s: HubState, msg: string, nowMs: int)
    ensures var l := Logged(s, msg, nowMs).eventLog;
      && |l| == (if |s.eventLog| + 1 < LogKeep then |s.eventLog| + 1 else LogKeep)
      && l == (s.eventLog + [Event(nowMs, msg)])[|s.eventLog| + 1 - |l|..]
      && l[|l| - 1] == Event(nowMs, msg)
      && Logged(s, msg, nowMs) == s.(eventLog := l)
  {
    AppendBoundedKeepsRecent(s.eventLog, Event(nowMs, msg), LogKeep);
  }

  // ---------------------------------------------------------------------
  // Per-unit setters
  // ---------------------------------------------------------------------

  /** The field a per-unit setter writes, with the value it writes. */
  datatype UnitEdit =
    | SetEnabled(enabled: bool)
    | SetMomentary(momentary: Value)
    | SetGroup(group: string)
    | SetOffset(offset: int)
    | SetDelay(delayMs: int)
    | SetMode(mode: string)
    | SetPulses(pulses: int)
    | SetKFactor(kFactor: int)
    | SetMsPerMl(msPerMl: real)

  function ApplyEdit(u: Unit, e: UnitEdit): Unit {
    match e
    case SetEnabled(b) => u.(enabled := b)
    case SetMomentary(v) => u.(momentary := v)
    case SetGroup(g) => u.(group := g)
    case SetOffset(n) => u.(offset := n)
    case SetDelay(n) => u.(perDelayMs := n)
    case SetMode(md) => u.(mode := md)
    case SetPulses(n) => u.(pulsesPerCycle := n)
    case SetKFactor(n) => u.(pulsesPerLiter := n)
    case SetMsPerMl(x) => u.(msPerMl := x)
  }

  /** `for u in units: if u["id"] == uid: <write the field>`. */
  function EditedUnits(us: seq<Unit>, uid: int, e: UnitEdit): (r: seq<Unit>)
    ensures |r| == |us|
  {
    seq(|us|, i requires 0 <= i < |us| => if us[i].id == uid then ApplyEdit(us[i], e) else us[i])
  }

  const UnitKeys: set<string> := {
    "unit-enabled", "unit-momentary", "unit-group", "unit-offset", "unit-delay-ms",
    "unit-delivery-mode", "unit-ppc", "unit-kfactor", "unit-msperml"}

  const UnitModes: set<string> := {"inherit", "flow", "timed"}

  /** The value a per-unit setter stores, after its conversion and clamping;
      None where the conversion raises. */
  function ParseUnitEdit(key: string, m: map<string, Value>): Option<UnitEdit> {
    if key == "unit-enabled" then Some(SetEnabled(Truthy(Get(m, "value"))))
    else if key == "unit-momentary" then Some(SetMomentary(GetOr(m, "value", Str("M1"))))
    else if key == "unit-group" then Some(SetGroup(if GetOr(m, "value", Str("A")) == Str("A") then "A" else "B"))
    else if key == "unit-offset" then
      (match PyInt(GetOr(m, "value", Int(0))) case None => None case Some(v) => Some(SetOffset(Clamp(v, 0, 100))))
    else if key == "unit-delay-ms" then
      (match PyInt(GetOr(m, "value", Int(0))) case None => None case Some(v) => Some(SetDelay(v)))
    else if key == "unit-delivery-mode" then
      var v := GetOr(m, "value", Str("inherit"));
      Some(SetMode(if v.Str? && v.s in UnitModes then v.s else "inherit"))
    else if key == "unit-ppc" then
      (match PyInt(GetOr(m, "value", Int(100))) case None => None case Some(v) => Some(SetPulses(Max(1, v))))
    else if key == "unit-kfactor" then
      (match PyInt(GetOr(m, "value", Int(450))) case None => None case Some(v) => Some(SetKFactor(Max(1, v))))
    else if key == "unit-msperml" then
      (match PyFloat(GetOr(m, "value", Real(5.0))) case None => None case Some(x) => Some(SetMsPerMl(MaxReal(1.0, x))))
    else None
  }

  // ---------------------------------------------------------------------
  // handle_msg
  // ---------------------------------------------------------------------

  /** The `"auto-delay"` setter: `enabled` is written first, so a later
      `int()` that raises leaves it changed. */
  function SetAutoDelay(s: HubState, cfg: Value): (HubState, bool) {
    match cfg
    case Obj(c) =>
      var ad1 := s.autoDelay.(enabled := Truthy(GetOr(c, "enabled", Bool(s.autoDelay.enabled))));
      if "manualMs" in c && PyInt(c["manualMs"]).None? then (s.(autoDelay := ad1), false)
      else
        var ad2 := if "manualMs" in c then ad1.(manualMs := PyInt(c["manualMs"]).value) else ad1;
        if "geomLeadMs" in c && PyInt(c["geomLeadMs"]).None? then (s.(autoDelay := ad2), false)
        else
          var ad3 := if "geomLeadMs" in c then ad2.(geomLeadMs := PyInt(c["geomLeadMs"]).value) else ad2;
          (s.(autoDelay := ad3), true)
    case _ => (s, false)
  }

  /** The `"set"` branch of `handle_msg`; the flag is false where it raises. */
  function HandleSet(s: HubState, m: map<string, Value>, nowMs: int): (HubState, bool) {
    var key := Get(m, "key");
    if key == Str("target") then
      match PyInt(GetOr(m, "value", Int(100)))
      case None => (s, false)
      case Some(v) => (Logged(s.(targetMl := v), "Target set to " + IntToString(v) + " ml/plant", nowMs), true)
    else if key == Str("running") then
      var b := Truthy(Get(m, "value"));
      (Logged(s.(running := b), if b then "RUN" else "STOP", nowMs), true)
    else if key.Str? && key.s in UnitKeys then
      match PyInt(Get(m, "id"))
      case None => (s, false)
      case Some(uid) =>
        match ParseUnitEdit(key.s, m)
        case None => (s, false)
        case Some(e) => (s.(units := EditedUnits(s.units, uid, e)), true)
    else if key == Str("delivery-mode") then
      (s.(deliveryMode := if Get(m, "value") == Str("timed") then "timed" else "flow"), true)
    else if key == Str("auto-delay") then SetAutoDelay(s, GetOr(m, "value", Obj(map[])))
    else if key == Str("gpio") then
      var name := Get(m, "name");
      if Hashable(name) then (s.(gpio := s.gpio[name := Get(m, "pin")]), true) else (s, false)
    else if key == Str("buzzer-muted") then (s.(buzzer := s.buzzer.(muted := Truthy(Get(m, "value")))), true)
    else if key == Str("buzzer-hardmute") then (s.(buzzer := s.buzzer.(hardMute := Truthy(Get(m, "value")))), true)
    else (s, true)
  }

  /** The entries of a tramline map whose value is true. */
  function TrueOnly(t: map<Value, bool>): (r: map<Value, bool>)
    ensures forall k :: k in r <==> k in t && t[k]
    ensures forall k :: k in r ==> r[k]
  {
    map k | k in t && t[k] :: true
  }

  /** The key a `"tram"` message writes: `str(m.get("id"))`. */
  function TramKey(m: map<string, Value>): Value {
    Str(PyStr(Get(m, "id")))
  }

  /** The `"tram"` branch: write the flag, then pop every false entry. */
  function Tram(s: HubState, m: map<string, Value>): HubState {
    s.(tramline := TrueOnly(s.tramline[TramKey(m) := Truthy(Get(m, "off"))]))
  }

  /** The `"simulate"` branch; `"full"` on also switches telemetry on. */
  function Simulate(s: HubState, m: map<string, Value>): HubState {
    var on := Truthy(Get(m, "on"));
    if GetOr(m, "mode", Str("telemetry")) == Str("full") then
      s.(simulation := Simulation(s.simulation.telemetry || on, on))
    else s.(simulation := s.simulation.(telemetry := on))
  }

  /** The `"cal"` branch: log lines only. */
  function Cal(s: HubState, m: map<string, Value>, nowMs: int): (HubState, bool) {
    var mode := Get(m, "mode");
    var cmd := Get(m, "cmd");
    var uid := PyStr(Get(m, "id"));
    if mode == Str("timed") && cmd == Str("start") then
      match PyInt(GetOr(m, "ms", Int(5000)))
      case None => (s, false)
      case Some(ms) => (Logged(s, "Timed calibration start: unit " + uid + ", " + IntToString(ms) + " ms", nowMs), true)
    else if mode == Str("timed") && cmd == Str("stop") then
      (Logged(s, "Timed calibration stop: unit " + uid, nowMs), true)
    else if mode == Str("flow") && cmd == Str("start") then
      match PyInt(GetOr(m, "targetMl", Int(1000)))
      case None => (s, false)
      case Some(tgt) => (Logged(s, "Flow calibration run: unit " + uid + ", target " + IntToString(tgt) + " ml", nowMs), true)
    else (s, true)
  }

  /** `handle_msg(m)` at time `nowMs`: the new state, and false where the
      handler raises (the state keeps whatever was written before). */
  function Handle(s: HubState, m: map<string, Value>, nowMs: int): (HubState, bool) {
    var t := Get(m, "type");
    if t == Str("set") then HandleSet(s, m, nowMs)
    else if t == Str("tram") then (Tram(s, m), true)
    else if t == Str("tram-clear") then (s.(tramline := map[]), true)
    else if t == Str("simulate") then (Simulate(s, m), true)
    else if t == Str("cal") then Cal(s, m, nowMs)
    else (s, true)
  }

  // ---------------------------------------------------------------------
  // cycle_loop: one iteration
  // ---------------------------------------------------------------------

  /** The status band of an absolute deviation. */
  function Status(absd: real): string {
    if absd <= 0.05 then "OK"
    else if absd <= 0.10 then "WARN"
    else if absd <= 0.15 then "INSPECT"
    else "BLOCKED"
  }

  /** How bad a status is, OK lowest. */
  function Severity(status: string): nat {
    if status == "OK" then 0 else if status == "WARN" then 1 else if status == "INSPECT" then 2 else 3
  }

  /** A unit is skipped when tramlined under its id as a string or as an int. */
  predicate Tramlined(t: map<Value, bool>, id: int) {
    (Str(IntToString(id)) in t && t[Str(IntToString(id))]) || (Int(id) in t && t[Int(id)])
  }

  predicate Eligible(s: HubState, u: Unit) {
    u.enabled && !Tramlined(s.tramline, u.id)
  }

  /** `max(0, round(target * (1 + dev)))`; the product is a float. */
  function Delivered(target: real, dev: real): int {
    Max(0, RoundHalfEven(target * (1.0 + dev)))
  }

  /** `(delivered - target) / max(1, target)`. */
  function DeviationOf(delivered: int, target: int): real {
    (delivered - target) as real / Max(1, target) as real
  }

  /** The simulated delivery written into one unit. */
  function Cycled(u: Unit, target: int, dev: real): Unit {
    var d := Delivered(target as real, dev);
    var x := DeviationOf(d, target);
    u.(lastDeliveredMl := Some(d), deviation := Some(x), status := Status(AbsReal(x)))
  }

  /** The units after the delivery loop; `noise(i)` is the random deviation
      drawn for the unit at index `i`. */
  function CycledUnits(s: HubState, target: int, noise: int -> real): (r: seq<Unit>)
    ensures |r| == |s.units|
    ensures forall i :: 0 <= i < |s.units| ==>
      r[i] == if Eligible(s, s.units[i]) then Cycled(s.units[i], target, noise(i)) else s.units[i]
  {
    seq(|s.units|, i requires 0 <= i < |s.units| =>
      if Eligible(s, s.units[i]) then Cycled(s.units[i], target, noise(i)) else s.units[i])
  }

  /** The target the cycle simulator delivers: `max(5, targetMl)`. */
  function CycleTarget(s: HubState): int {
    Max(5, s.targetMl)
  }

  /** The per-unit loop of `cycle_loop`: every enabled unit outside the
      tramline gets a simulated delivery, in place. */
  method CycleUnits(s: HubState, target: int, noise: int -> real) returns (us: seq<Unit>)
    ensures us == CycledUnits(s, target, noise)
  {
    us := s.units;
    var i := 0;
    while i < |us|
      invariant 0 <= i <= |us| == |s.units|
      invariant forall j :: 0 <= j < |us| ==>
        us[j] == if j < i && Eligible(s, s.units[j]) then Cycled(s.units[j], target, noise(j)) else s.units[j]
    {
      var u := us[i];
      if u.enabled && !Tramlined(s.tramline, u.id) {
        us := us[i := Cycled(u, target, noise(i))];
      }
      i := i + 1;
    }
  }

  /** One iteration of `cycle_loop` at time `nowMs`. */
  function CycleStep(s: HubState, nowMs: int, noise: int -> real): HubState {
    s.(pressHistory := SliceFrom(s.pressHistory + [nowMs], -PressKeep),
       units := CycledUnits(s, CycleTarget(s), noise))
  }

  // ---------------------------------------------------------------------
  // _auto_delay_loop: one tick
  // ---------------------------------------------------------------------

  /** `[p for p in pressHistory if now - p < 15]`, in milliseconds. */
  function Recent(ph: seq<int>, nowMs: int): (r: seq<int>)
    ensures |r| <= |ph|
  {
    if ph == [] then []
    else (if nowMs - ph[0] < PressWindowMs then [ph[0]] else []) + Recent(ph[1..], nowMs)
  }

  /** `[ph[i] - ph[i-1] for i in range(1, len(ph))]`. */
  function Intervals(ph: seq<int>): (r: seq<int>)
    ensures |ph| >= 1 ==> |r| == |ph| - 1
  {
    if |ph| <= 1 then [] else seq(|ph| - 1, i requires 0 <= i < |ph| - 1 => ph[i + 1] - ph[i])
  }

  function Sum(xs: seq<int>): int {
    if xs == [] then 0 else Sum(xs[..|xs| - 1]) + xs[|xs| - 1]
  }

  /** `max(0, int(avg / 2))` for the average interval `avg` between presses. */
  function CadenceMs(ph: seq<int>): int
    requires |ph| >= 2
  {
    Max(0, Trunc(Sum(Intervals(ph)) as real / (|ph| - 1) as real / 2.0))
  }

  /** The delay `_auto_delay_loop` publishes for the configuration `ad` and the
      press history `ph` at time `nowMs`. */
  function AutoDelayMs(ad: AutoDelayCfg, ph: seq<int>, nowMs: int): (r: int)
    ensures r >= 0
  {
    if !ad.enabled then Max(0, ad.manualMs + ad.geomLeadMs)
    else
      var recent := Recent(ph, nowMs);
      var b := if |recent| >= 3 then CadenceMs(recent) else ad.manualMs;
      Max(0, b + ad.geomLeadMs)
  }

  function AutoDelayStep(s: HubState, nowMs: int): HubState {
    s.(autoDelay := s.autoDelay.(currentMs := AutoDelayMs(s.autoDelay, s.pressHistory, nowMs)))
  }

  // ---------------------------------------------------------------------
  // The hub
  // ---------------------------------------------------------------------

  class Hub {
    var state: HubState

    /** The hub starts from the state `load_state()` gave. */
    constructor (s0: HubState)
      ensures state == s0
    {
      state := s0;
    }

    method LogEvent(msg: string, nowMs: int)
      modifies this
      ensures state == Logged(old(state), msg, nowMs)
    {
      var log := state.eventLog + [Event(nowMs, msg)];
      if |log| > LogKeep {
        log := SliceFrom(log, -LogKeep);
      }
      state := state.(eventLog := log);
    }

    /** The loop of a per-unit setter. */
    method EditUnits(uid: int, e: UnitEdit)
      modifies this
      ensures state == old(state).(units := EditedUnits(old(state).units, uid, e))
    {
      var i := 0;
      while i < |state.units|
        invariant 0 <= i <= |state.units| == |old(state).units|
        invariant state == old(state).(units := state.units)
        invariant forall j :: 0 <= j < |state.units| ==>
          state.units[j] == if j < i && old(state).units[j].id == uid then ApplyEdit(old(state).units[j], e) else old(state).units[j]
      {
        if state.units[i].id == uid {
          state := state.(units := state.units[i := ApplyEdit(state.units[i], e)]);
        }
        i := i + 1;
      }
    }

    /** `for k in list(tramline.keys()): if not tramline[k]: tramline.pop(k)`. */
    method CleanTramline()
      modifies this
      ensures state == old(state).(tramline := TrueOnly(old(state).tramline))
    {
      ghost var t0 := state.tramline;
      var ks := state.tramline.Keys;
      while ks != {}
        invariant ks <= t0.Keys
        invariant state == old(state).(tramline := state.tramline)
        invariant forall k :: k in state.tramline <==> k in t0 && (k in ks || t0[k])
        invariant forall k :: k in state.tramline ==> state.tramline[k] == t0[k]
        decreases ks
      {
        var k :| k in ks;
        if !state.tramline[k] {
          state := state.(tramline := state.tramline - {k});
        }
        ks := ks - {k};
      }
      assert state.tramline == TrueOnly(t0);
    }

    method HandleSetMsg(m: map<string, Value>, nowMs: int) returns (ok: bool)
      modifies this
      ensures (state, ok) == HandleSet(old(state), m, nowMs)
    {
      var key := Get(m, "key");
      if key == Str("target") {
        var v := PyInt(GetOr(m, "value", Int(100)));
        if v.None? {
          return false;
        }
        state := state.(targetMl := v.value);
        LogEvent("Target set to " + IntToString(v.value) + " ml/plant", nowMs);
      } else if key == Str("running") {
        var b := Truthy(Get(m, "value"));
        state := state.(running := b);
        LogEvent(if b then "RUN" else "STOP", nowMs);
      } else if key.Str? && key.s in UnitKeys {
        var uid := PyInt(Get(m, "id"));
        if uid.None? {
          return false;
        }
        var e := ParseUnitEdit(key.s, m);
        if e.None? {
          return false;
        }
        EditUnits(uid.value, e.value);
      } else if key == Str("delivery-mode") {
        state := state.(deliveryMode := if Get(m, "value") == Str("timed") then "timed" else "flow");
      } else if key == Str("auto-delay") {
        var r := SetAutoDelay(state, GetOr(m, "value", Obj(map[])));
        state := r.0;
        return r.1;
      } else if key == Str("gpio") {
        var name := Get(m, "name");
        if !Hashable(name) {
          return false;
        }
        state := state.(gpio := state.gpio[name := Get(m, "pin")]);
      } else if key == Str("buzzer-muted") {
        state := state.(buzzer := state.buzzer.(muted := Truthy(Get(m, "value"))));
      } else if key == Str("buzzer-hardmute") {
        state := state.(buzzer := state.buzzer.(hardMute := Truthy(Get(m, "value"))));
      }
      ok := true;
    }

    method CalMsg(m: map<string, Value>, nowMs: int) returns (ok: bool)
      modifies this
      ensures (state, ok) == Cal(old(state), m, nowMs)
    {
      var mode := Get(m, "mode");
      var cmd := Get(m, "cmd");
      var uid := PyStr(Get(m, "id"));
      if mode == Str("timed") && cmd == Str("start") {
        var ms := PyInt(GetOr(m, "ms", Int(5000)));
        if ms.None? {
          return false;
        }
        LogEvent("Timed calibration start: unit " + uid + ", " + IntToString(ms.value) + " ms", nowMs);
      } else if mode == Str("timed") && cmd == Str("stop") {
        LogEvent("Timed calibration stop: unit " + uid, nowMs);
      } else if mode == Str("flow") && cmd == Str("start") {
        var tgt := PyInt(GetOr(m, "targetMl", Int(1000)));
        if tgt.None? {
          return false;
        }
        LogEvent("Flow calibration run: unit " + uid + ", target " + IntToString(tgt.value) + " ml", nowMs);
      }
      ok := true;
    }

    /** `handle_msg(m)`, without the sends and saves. */
    method HandleMsg(m: map<string, Value>, nowMs: int) returns (ok: bool)
      modifies this
      ensures (state, ok) == Handle(old(state), m, nowMs)
    {
      var t := Get(m, "type");
      if t == Str("set") {
        ok := HandleSetMsg(m, nowMs);
      } else if t == Str("tram") {
        state := state.(tramline := state.tramline[TramKey(m) := Truthy(Get(m, "off"))]);
        CleanTramline();
        ok := true;
      } else if t == Str("tram-clear") {
        state := state.(tramline := map[]);
        ok := true;
      } else if t == Str("simulate") {
        var on := Truthy(Get(m, "on"));
        if GetOr(m, "mode", Str("telemetry")) == Str("full") {
          state := state.(simulation := state.simulation.(full := on));
          if on {
            state := state.(simulation := state.simulation.(telemetry := true));
          }
        } else {
          state := state.(simulation := state.simulation.(telemetry := on));
        }
        ok := true;
      } else if t == Str("cal") {
        ok := CalMsg(m, nowMs);
      } else {
        ok := true;
      }
    }

    /** One pass of the body of `cycle_loop` at time `nowMs`. */
    method CycleTick(nowMs: int, noise: int -> real)
      modifies this
      ensures state == CycleStep(old(state), nowMs, noise)
    {
      var s0 := state;
      var us := CycleUnits(s0, Max(5, s0.targetMl), noise);
      state := s0.(pressHistory := SliceFrom(s0.pressHistory + [nowMs], -PressKeep), units := us);
    }

    /** One tick of `_auto_delay_loop` at time `nowMs`. */
    method AutoDelayTick(nowMs: int)
      modifies this
      ensures state == AutoDelayStep(old(state), nowMs)
      ensures state.autoDelay.currentMs >= 0
    {
      var cur := AutoDelayMs(state.autoDelay, state.pressHistory, nowMs);
      if cur != state.autoDelay.currentMs {
        state := state.(autoDelay := state.autoDelay.(currentMs := cur));
      }
    }
  }

  // ---------------------------------------------------------------------
  // Properties of handle_msg
  // ---------------------------------------------------------------------

  predicate IsSet(m: map<string, Value>, key: string) {
    Get(m, "type") == Str("set") && Get(m, "key") == Str(key)
  }

  /** A per-unit setter whose id and value convert writes its field into every
      unit with that id, leaves every other unit and every other part of the
      state alone, and keeps the list's length and ids. */
  lemma UnitSetterTouchesOnlyTarget(s: HubState, m: map<string, Value>, nowMs: int, key: string, uid: int, e: UnitEdit)
    requires IsSet(m, key) && key in UnitKeys
    requires PyInt(Get(m, "id")) == Some(uid) && ParseUnitEdit(key, m) == Some(e)
    ensures var (r, ok) := Handle(s, m, nowMs);
      && ok
      && r == s.(units := r.units)
      && |r.units| == |s.units|
      && (forall i :: 0 <= i < |s.units| && s.units[i].id != uid ==> r.units[i] == s.units[i])
      && (forall i :: 0 <= i < |s.units| && s.units[i].id == uid ==> r.units[i] == ApplyEdit(s.units[i], e))
      && (forall i :: 0 <= i < |s.units| ==> r.units[i].id == s.units[i].id)
  {
    HandleUnitSetter(s, m, nowMs, key, uid, e);
    EditedUnitsOnlyMatching(s.units, uid, e);
  }

  /** A per-unit setter whose id and value convert is handled by writing the
      edit into the unit list. */
  lemma HandleUnitSetter(s: HubState, m: map<string, Value>, nowMs: int, key: string, uid: int, e: UnitEdit)
    requires IsSet(m, key) && key in UnitKeys
    requires PyInt(Get(m, "id")) == Some(uid) && ParseUnitEdit(key, m) == Some(e)
    ensures Handle(s, m, nowMs) == (s.(units := EditedUnits(s.units, uid, e)), true)
  {
    assert key != "target" && key != "running";
  }

  /** The setter loop edits exactly the units whose id matches and keeps ids. */
  lemma EditedUnitsOnlyMatching(us: seq<Unit>, uid: int, e: UnitEdit)
    ensures var r := EditedUnits(us, uid, e);
      && (forall i :: 0 <= i < |us| && us[i].id != uid ==> r[i] == us[i])
      && (forall i :: 0 <= i < |us| && us[i].id == uid ==> r[i] == ApplyEdit(us[i], e))
      && (forall i :: 0 <= i < |us| ==> r[i].id == us[i].id)
  {
  }

  /** A per-unit setter whose id or value does not convert raises before
      changing anything. */
  lemma UnitSetterRejects(s: HubState, m: map<string, Value>, nowMs: int, key: string)
    requires IsSet(m, key) && key in UnitKeys
    requires PyInt(Get(m, "id")).None? || ParseUnitEdit(key, m).None?
    ensures Handle(s, m, nowMs) == (s, false)
  {
    assert key != "target" && key != "running";
  }

  /** `unit-offset` stores the value clamped to 0..100. */
  lemma UnitOffsetClamped(m: map<string, Value>, v: int)
    requires PyInt(GetOr(m, "value", Int(0))) == Some(v)
    ensures var e := ParseUnitEdit("unit-offset", m).value;
      && e.SetOffset? && 0 <= e.offset <= 100
      && (0 <= v <= 100 ==> e.offset == v)
      && (v < 0 ==> e.offset == 0)
      && (v > 100 ==> e.offset == 100)
  {
  }

  /** `unit-delay-ms` stores the value as given, negative values included. */
  lemma UnitDelayUnclamped(m: map<string, Value>, v: int)
    requires PyInt(GetOr(m, "value", Int(0))) == Some(v)
    ensures ParseUnitEdit("unit-delay-ms", m) == Some(SetDelay(v))
  {
  }

  /** `unit-ppc` and `unit-kfactor` store `max(1, int(value))`: at least 1,
      and the value itself when it is at least 1; a value `int()` rejects
      raises. */
  lemma UnitPulsesAtLeastOne(m: map<string, Value>)
    ensures var e := ParseUnitEdit("unit-ppc", m);
      var v := PyInt(GetOr(m, "value", Int(100)));
      && (e.Some? <==> v.Some?)
      && (e.Some? ==> e.value.SetPulses? && e.value.pulses >= 1 && e.value.pulses == Max(1, v.value))
    ensures var e := ParseUnitEdit("unit-kfactor", m);
      var v := PyInt(GetOr(m, "value", Int(450)));
      && (e.Some? <==> v.Some?)
      && (e.Some? ==> e.value.SetKFactor? && e.value.kFactor >= 1 && e.value.kFactor == Max(1, v.value))
  {
  }

  /** `unit-msperml` stores `max(1.0, float(value))`, 5.0 when the value is
      missing; a value `float()` rejects raises. */
  lemma UnitMsPerMlAtLeastOne(m: map<string, Value>)
    ensures var e := ParseUnitEdit("unit-msperml", m);
      var v := PyFloat(GetOr(m, "value", Real(5.0)));
      && (e.Some? <==> v.Some?)
      && (e.Some? ==> e.value.SetMsPerMl? && e.value.msPerMl >= 1.0 && e.value.msPerMl == MaxReal(1.0, v.value))
      && ("value" !in m ==> e == Some(SetMsPerMl(5.0)))
  {
  }

  /** `unit-group` stores "A" for "A" (and for a missing value) and "B" for
      anything else. */
  lemma UnitGroupNormalised(m: map<string, Value>)
    ensures var e := ParseUnitEdit("unit-group", m).value;
      && e.SetGroup? && (e.group == "A" || e.group == "B")
      && (e.group == "A" <==> GetOr(m, "value", Str("A")) == Str("A"))
  {
  }

  /** `unit-delivery-mode` keeps inherit, flow or timed and maps anything else
      to inherit. */
  lemma UnitModeNormalised(m: map<string, Value>)
    ensures var e := ParseUnitEdit("unit-delivery-mode", m).value;
      var v := GetOr(m, "value", Str("inherit"));
      && e.SetMode? && e.mode in UnitModes
      && (v.Str? && v.s in UnitModes ==> e.mode == v.s)
      && (!(v.Str? && v.s in UnitModes) ==> e.mode == "inherit")
  {
  }

  /** `delivery-mode` stores "timed" for "timed" and "flow" for anything else,
      and changes nothing more. */
  lemma DeliveryModeNormalised(s: HubState, m: map<string, Value>, nowMs: int)
    requires IsSet(m, "delivery-mode")
    ensures var (r, ok) := Handle(s, m, nowMs);
      && ok
      && r == s.(deliveryMode := r.deliveryMode)
      && (r.deliveryMode == "timed" || r.deliveryMode == "flow")
      && (r.deliveryMode == "timed" <==> Get(m, "value") == Str("timed"))
  {
  }

  /** `target` stores `int(value)` and logs it; nothing else changes. */
  lemma TargetSetAndLogged(s: HubState, m: map<string, Value>, nowMs: int, v: int)
    requires IsSet(m, "target") && PyInt(GetOr(m, "value", Int(100))) == Some(v)
    ensures var (r, ok) := Handle(s, m, nowMs);
      && ok
      && r.targetMl == v
      && r == s.(targetMl := v, eventLog := r.eventLog)
      && r.eventLog[|r.eventLog| - 1] == Event(nowMs, "Target set to " + IntToString(v) + " ml/plant")
      && |r.eventLog| <= LogKeep
  {
    LoggedKeepsRecent(s.(targetMl := v), "Target set to " + IntToString(v) + " ml/plant", nowMs);
  }

  /** After a `tram` message the tramline holds no false entry, the unit's key
      is present exactly when `off` is true, every other true entry stays, and
      nothing else in the state changes. */
  lemma TramHasNoFalseEntries(s: HubState, m: map<string, Value>, nowMs: int)
    requires Get(m, "type") == Str("tram")
    ensures var (r, ok) := Handle(s, m, nowMs);
      && ok
      && r == s.(tramline := r.tramline)
      && (forall k :: k in r.tramline ==> r.tramline[k])
      && (TramKey(m) in r.tramline <==> Truthy(Get(m, "off")))
      && (forall k :: k != TramKey(m) ==> (k in r.tramline <==> k in s.tramline && s.tramline[k]))
  {
  }

  /** `tram-clear` empties the tramline and touches nothing else, tram presets
      included. */
  lemma TramClearOnlyTramline(s: HubState, m: map<string, Value>, nowMs: int)
    requires Get(m, "type") == Str("tram-clear")
    ensures Handle(s, m, nowMs) == (s.(tramline := map[]), true)
    ensures Handle(s, m, nowMs).0.tramPresets == s.tramPresets
  {
  }

  /** Switching full simulation on also switches telemetry on; switching it
      off leaves telemetry as it was. */
  lemma SimulateFullImpliesTelemetry(s: HubState, m: map<string, Value>, nowMs: int)
    requires Get(m, "type") == Str("simulate") && GetOr(m, "mode", Str("telemetry")) == Str("full")
    ensures var r := Handle(s, m, nowMs).0;
      && r == s.(simulation := r.simulation)
      && r.simulation.full == Truthy(Get(m, "on"))
      && (r.simulation.full ==> r.simulation.telemetry)
      && (!r.simulation.full ==> r.simulation.telemetry == s.simulation.telemetry)
  {
  }

  /** `simulate` in any other mode sets telemetry to `on` and leaves full
      simulation, and everything else, as it was. */
  lemma SimulateTelemetryOnly(s: HubState, m: map<string, Value>, nowMs: int)
    requires Get(m, "type") == Str("simulate") && GetOr(m, "mode", Str("telemetry")) != Str("full")
    ensures var (r, ok) := Handle(s, m, nowMs);
      && ok
      && r == s.(simulation := r.simulation)
      && r.simulation.telemetry == Truthy(Get(m, "on"))
      && r.simulation.full == s.simulation.full
  {
  }

  /** `running` stores the truth of the value and logs RUN or STOP to match;
      nothing else changes. */
  lemma RunningSetAndLogged(s: HubState, m: map<string, Value>, nowMs: int)
    requires IsSet(m, "running")
    ensures var (r, ok) := Handle(s, m, nowMs);
      && ok
      && r.running == Truthy(Get(m, "value"))
      && r == s.(running := r.running, eventLog := r.eventLog)
      && |r.eventLog| == (if |s.eventLog| + 1 < LogKeep then |s.eventLog| + 1 else LogKeep)
      && r.eventLog[|r.eventLog| - 1] == Event(nowMs, if r.running then "RUN" else "STOP")
  {
    var b := Truthy(Get(m, "value"));
    LoggedKeepsRecent(s.(running := b), if b then "RUN" else "STOP", nowMs);
  }

  /** `buzzer-muted` and `buzzer-hardmute` each store the truth of the value in
      their own flag; the other flag and the rest of the state stay. */
  lemma BuzzerFlagsIndependent(s: HubState, m: map<string, Value>, nowMs: int)
    requires IsSet(m, "buzzer-muted") || IsSet(m, "buzzer-hardmute")
    ensures var (r, ok) := Handle(s, m, nowMs);
      && ok
      && r == s.(buzzer := r.buzzer)
      && (IsSet(m, "buzzer-muted") ==>
            r.buzzer.muted == Truthy(Get(m, "value")) && r.buzzer.hardMute == s.buzzer.hardMute)
      && (IsSet(m, "buzzer-hardmute") ==>
            r.buzzer.hardMute == Truthy(Get(m, "value")) && r.buzzer.muted == s.buzzer.muted)
  {
  }

  /** A `cal` message is handled by the `cal` branch. */
  lemma HandleCal(s: HubState, m: map<string, Value>, nowMs: int)
    requires Get(m, "type") == Str("cal")
    ensures Handle(s, m, nowMs) == Cal(s, m, nowMs)
  {
  }

  /** `cal` only writes the log, and raises (changing nothing) only when a
      timed start's `ms` or a flow start's `targetMl` is not an integer. */
  lemma CalOnlyLogs(s: HubState, m: map<string, Value>, nowMs: int)
    ensures var (r, ok) := Cal(s, m, nowMs);
      var mode, cmd := Get(m, "mode"), Get(m, "cmd");
      var badMs := mode == Str("timed") && cmd == Str("start") && PyInt(GetOr(m, "ms", Int(5000))).None?;
      var badTarget := mode == Str("flow") && cmd == Str("start") && PyInt(GetOr(m, "targetMl", Int(1000))).None?;
      && r == s.(eventLog := r.eventLog)
      && (ok <==> !badMs && !badTarget)
      && (!ok ==> r == s)
  {
  }

  /** One logged entry grows the log up to the bound of 100, stamped now. */
  lemma LoggedOneEntry(s: HubState, msg: string, nowMs: int, r: HubState)
    requires r == Logged(s, msg, nowMs)
    ensures |r.eventLog| == (if |s.eventLog| + 1 < LogKeep then |s.eventLog| + 1 else LogKeep)
    ensures r.eventLog[|r.eventLog| - 1].t == nowMs
  {
    LoggedKeepsRecent(s, msg, nowMs);
  }

  /** A timed start, a timed stop or a flow start that does not raise appends
      one entry stamped now; any other `cal` command logs nothing. */
  lemma CalLogsOneEntry(s: HubState, m: map<string, Value>, nowMs: int)
    ensures var (r, ok) := Cal(s, m, nowMs);
      var mode, cmd := Get(m, "mode"), Get(m, "cmd");
      var known := (mode == Str("timed") && (cmd == Str("start") || cmd == Str("stop")))
        || (mode == Str("flow") && cmd == Str("start"));
      && (!known ==> r == s && ok)
      && (known && ok ==>
            && |r.eventLog| == (if |s.eventLog| + 1 < LogKeep then |s.eventLog| + 1 else LogKeep)
            && r.eventLog[|r.eventLog| - 1].t == nowMs)
  {
    var (r, ok) := Cal(s, m, nowMs);
    var mode, cmd := Get(m, "mode"), Get(m, "cmd");
    var uid := PyStr(Get(m, "id"));
    if mode == Str("timed") && cmd == Str("start") {
      if ok {
        var ms := PyInt(GetOr(m, "ms", Int(5000))).value;
        LoggedOneEntry(s, "Timed calibration start: unit " + uid + ", " + IntToString(ms) + " ms", nowMs, r);
      }
    } else if mode == Str("timed") && cmd == Str("stop") {
      LoggedOneEntry(s, "Timed calibration stop: unit " + uid, nowMs, r);
    } else if mode == Str("flow") && cmd == Str("start") {
      if ok {
        var tgt := PyInt(GetOr(m, "targetMl", Int(1000))).value;
        LoggedOneEntry(s, "Flow calibration run: unit " + uid + ", target " + IntToString(tgt) + " ml", nowMs, r);
      }
    }
  }

  /** `gpio` stores the pin under the name when the name can be a dict key. */
  lemma GpioStored(s: HubState, m: map<string, Value>, nowMs: int)
    requires IsSet(m, "gpio")
    ensures Hashable(Get(m, "name")) ==> Handle(s, m, nowMs) == (s.(gpio := s.gpio[Get(m, "name") := Get(m, "pin")]), true)
    ensures !Hashable(Get(m, "name")) ==> Handle(s, m, nowMs) == (s, false)
  {
  }

  /** `auto-delay` writes `enabled`, `manualMs` and `geomLeadMs` as given (each
      kept when absent), never `currentMs`, and nothing outside `autoDelay`. */
  lemma AutoDelaySetter(s: HubState, m: map<string, Value>, nowMs: int)
    requires IsSet(m, "auto-delay")
    ensures var (r, ok) := Handle(s, m, nowMs);
      && r == s.(autoDelay := r.autoDelay)
      && r.autoDelay.currentMs == s.autoDelay.currentMs
      && (!GetOr(m, "value", Obj(map[])).Obj? ==> r == s && !ok)
      && (GetOr(m, "value", Obj(map[])).Obj? ==>
            var c := GetOr(m, "value", Obj(map[])).fields;
            && r.autoDelay.enabled == Truthy(GetOr(c, "enabled", Bool(s.autoDelay.enabled)))
            && (ok <==> ("manualMs" in c ==> PyInt(c["manualMs"]).Some?) && ("geomLeadMs" in c ==> PyInt(c["geomLeadMs"]).Some?))
            && (ok ==> r.autoDelay.manualMs == (if "manualMs" in c then PyInt(c["manualMs"]).value else s.autoDelay.manualMs))
            && (ok ==> r.autoDelay.geomLeadMs == (if "geomLeadMs" in c then PyInt(c["geomLeadMs"]).value else s.autoDelay.geomLeadMs)))
  {
  }

  /** A message of an unknown type changes nothing. */
  lemma UnknownTypeIgnored(s: HubState, m: map<string, Value>, nowMs: int)
    requires Get(m, "type") !in {Str("set"), Str("tram"), Str("tram-clear"), Str("simulate"), Str("cal")}
    ensures Handle(s, m, nowMs) == (s, true)
  {
  }

  /** Every message either leaves the event log alone or appends one entry
      with the bound of 100, so a bounded log stays bounded. */
  lemma HandleKeepsLogBounded(s: HubState, m: map<string, Value>, nowMs: int)
    requires |s.eventLog| <= LogKeep
    ensures |Handle(s, m, nowMs).0.eventLog| <= LogKeep
  {
    var t := Get(m, "type");
    if t == Str("set") {
      HandleSetKeepsLogBounded(s, m, nowMs);
    } else if t == Str("cal") {
      CalKeepsLogBounded(s, m, nowMs);
    } else {
      assert Handle(s, m, nowMs).0.eventLog == s.eventLog;
    }
  }

  lemma HandleSetKeepsLogBounded(s: HubState, m: map<string, Value>, nowMs: int)
    requires |s.eventLog| <= LogKeep
    ensures |HandleSet(s, m, nowMs).0.eventLog| <= LogKeep
  {
  }

  lemma CalKeepsLogBounded(s: HubState, m: map<string, Value>, nowMs: int)
    requires |s.eventLog| <= LogKeep
    ensures |Cal(s, m, nowMs).0.eventLog| <= LogKeep
  {
  }

  // ---------------------------------------------------------------------
  // Properties of the cycle simulator
  // ---------------------------------------------------------------------

  /** Exactly one of the four bands applies, and a larger deviation never gets
      a milder status. */
  lemma StatusMonotone(a: real, b: real)
    requires 0.0 <= a <= b
    ensures Severity(Status(a)) <= Severity(Status(b))
    ensures Status(a) in {"OK", "WARN", "INSPECT", "BLOCKED"}
  {
  }

  /** Disabled and tramlined units are not touched; every other unit gets a
      non-negative delivered amount, the relative deviation from the target,
      and the status of that deviation's band, with its configuration kept. */
  lemma CycleUpdatesEligibleOnly(s: HubState, nowMs: int, noise: int -> real, i: int)
    requires 0 <= i < |s.units|
    ensures var u := s.units[i];
      var r := CycleStep(s, nowMs, noise).units[i];
      var target := CycleTarget(s);
      && (!Eligible(s, u) ==> r == u)
      && (Eligible(s, u) ==>
            && r.lastDeliveredMl.Some? && r.lastDeliveredMl.value >= 0
            && r.deviation == Some((r.lastDeliveredMl.value - target) as real / target as real)
            && r.status == Status(AbsReal(r.deviation.value))
            && r == u.(lastDeliveredMl := r.lastDeliveredMl, deviation := r.deviation, status := r.status))
  {
    assert CycleStep(s, nowMs, noise).units[i] == CycledUnits(s, CycleTarget(s), noise)[i];
    assert Max(1, CycleTarget(s)) == CycleTarget(s);
  }

  /** A cycle keeps every unit's id and the rest of the state, and the press
      history keeps the 20 most recent presses, this one last. */
  lemma CycleKeepsShape(s: HubState, nowMs: int, noise: int -> real)
    ensures var r := CycleStep(s, nowMs, noise);
      && r == s.(units := r.units, pressHistory := r.pressHistory)
      && |r.units| == |s.units|
      && (forall i :: 0 <= i < |s.units| ==> r.units[i].id == s.units[i].id)
      && |r.pressHistory| <= PressKeep
      && r.pressHistory[|r.pressHistory| - 1] == nowMs
      && r.pressHistory == (s.pressHistory + [nowMs])[|s.pressHistory| + 1 - |r.pressHistory|..]
  {
    KeepLast(s.pressHistory + [nowMs], PressKeep);
    var r := CycleStep(s, nowMs, noise);
    forall i | 0 <= i < |s.units|
      ensures r.units[i].id == s.units[i].id
    {
      assert r.units[i] == CycledUnits(s, CycleTarget(s), noise)[i];
    }
  }

  lemma ScaledNoise(t: real, dev: real)
    requires t > 0.0 && -0.05 <= dev <= 0.05
    ensures 0.95 * t <= t * (1.0 + dev) <= 1.05 * t
  {
    assert t * (1.0 + dev) == t + t * dev;
  }

  lemma RelativeBound(diff: real, t: real)
    requires t > 0.0 && -0.1 * t <= diff <= 0.1 * t
    ensures -0.1 <= diff / t <= 0.1
  {
    assert (diff / t) * t == diff;
  }

  /** The rounding step of the noise bound: an amount within 5% of a target
      of at least 10 ml rounds to one within 10%. */
  lemma RoundedNearTarget(t: real, x: real)
    requires t >= 10.0 && 0.95 * t <= x <= 1.05 * t
    ensures -0.1 * t <= Max(0, RoundHalfEven(x)) as real - t <= 0.1 * t
  {
  }

  lemma MildStatus(y: real)
    requires -0.1 <= y <= 0.1
    ensures Severity(Status(AbsReal(y))) <= 1
  {
  }

  /** A delivery within 10% of a target of at least 10 ml is OK or WARN. */
  lemma MildDeviation(d: int, target: int)
    requires target >= 10
    requires -0.1 * target as real <= d as real - target as real <= 0.1 * target as real
    ensures Severity(Status(AbsReal(DeviationOf(d, target)))) <= 1
  {
    var t := target as real;
    RelativeBound(d as real - t, t);
    assert DeviationOf(d, target) == (d as real - t) / t;
    MildStatus((d as real - t) / t);
  }

  /** Noise of at most 5% on a target of at least 10 ml delivers within 10%. */
  lemma DeliveredNear(t: real, dev: real)
    requires t >= 10.0 && -0.05 <= dev <= 0.05
    ensures -0.1 * t <= Delivered(t, dev) as real - t <= 0.1 * t
  {
    ScaledNoise(t, dev);
    RoundedNearTarget(t, t * (1.0 + dev));
  }

  lemma SmallNoisyAmount(t: real, dev: real)
    requires 0.0 <= t <= 9.0 && -0.05 <= dev <= 0.05
    ensures t - 0.45 <= t * (1.0 + dev) <= t + 0.45
  {
    assert t * (1.0 + dev) == t + t * dev;
    if dev >= 0.0 {
      assert t * dev <= 9.0 * dev;
    } else {
      assert t * (-dev) <= 9.0 * (-dev);
    }
  }

  /** Below 10 ml the noise moves the amount by less than half a millilitre,
      so the rounded delivery is the target itself. */
  lemma SmallTargetDeliveredExactly(target: int, dev: real)
    requires 1 <= target < 10 && -0.05 <= dev <= 0.05
    ensures Delivered(target as real, dev) == target
  {
    var t := target as real;
    var x := t * (1.0 + dev);
    assert Delivered(t, dev) == Max(0, RoundHalfEven(x));
    SmallNoisyAmount(t, dev);
    RoundsToNearbyInt(target, x);
  }

  /** A value within 0.45 of an integer rounds to that integer. */
  lemma RoundsToNearbyInt(n: int, x: real)
    requires n as real - 0.45 <= x <= n as real + 0.45
    ensures RoundHalfEven(x) == n
  {
    var r := RoundHalfEven(x);
    assert n as real - 1.0 < r as real < n as real + 1.0;
  }

  /** With the simulator's noise of at most 5% and any target the cycle uses
      (at least 5 ml), no unit is ever reported INSPECT or BLOCKED: below
      10 ml the delivery is exact, and from 10 ml on rounding moves the
      deviation by at most another 5%. */
  lemma CycleNoiseStaysMild(target: int, dev: real)
    requires target >= 5 && -0.05 <= dev <= 0.05
    ensures Severity(Status(AbsReal(DeviationOf(Delivered(target as real, dev), target)))) <= 1
  {
    if target < 10 {
      SmallTargetDeliveredExactly(target, dev);
      assert DeviationOf(target, target) == 0.0;
    } else {
      DeliveredNear(target as real, dev);
      MildDeviation(Delivered(target as real, dev), target);
    }
  }

  /** A whole cycle with noise of at most 5% per unit leaves every unit it
      updates at OK or WARN. */
  lemma CycleStepStaysMild(s: HubState, nowMs: int, noise: int -> real)
    requires forall i :: 0 <= i < |s.units| ==> -0.05 <= noise(i) <= 0.05
    ensures forall i :: 0 <= i < |s.units| && Eligible(s, s.units[i]) ==>
      Severity(CycleStep(s, nowMs, noise).units[i].status) <= 1
  {
    forall i | 0 <= i < |s.units| && Eligible(s, s.units[i])
      ensures Severity(CycleStep(s, nowMs, noise).units[i].status) <= 1
    {
      CycleNoiseStaysMild(CycleTarget(s), noise(i));
    }
  }

  /** ... but it can report WARN although the noise is within 5%: 32 ml with
      +4.6875% is 33.5, which rounds to 34, a deviation of 6.25%. */
  lemma CycleNoiseCanWarn()
    ensures Delivered(32.0, 0.046875) == 34
    ensures DeviationOf(34, 32) == 0.0625
    ensures Status(0.0625) == "WARN"
  {
    assert 32.0 * (1.0 + 0.046875) == 33.5;
    assert (33.5).Floor == 33;
  }

  // ---------------------------------------------------------------------
  // Properties of the auto-delay loop
  // ---------------------------------------------------------------------

  /** The recent presses are exactly the presses of the last 15 seconds. */
  lemma {:induction false} RecentWindow(ph: seq<int>, nowMs: int)
    ensures forall p :: p in Recent(ph, nowMs) <==> p in ph && nowMs - p < PressWindowMs
  {
    if ph != [] {
      RecentWindow(ph[1..], nowMs);
      assert ph == [ph[0]] + ph[1..];
    }
  }

  /** The intervals between consecutive presses add up to the time from the
      first press to the last. */
  lemma {:induction false} SumIntervals(ph: seq<int>)
    requires |ph| >= 1
    ensures Sum(Intervals(ph)) == ph[|ph| - 1] - ph[0]
  {
    if |ph| > 1 {
      var q := ph[..|ph| - 1];
      SumIntervals(q);
      var iv := Intervals(ph);
      assert iv[..|iv| - 1] == Intervals(q);
    }
  }

  lemma HalfOfAverage(a: real, k: int)
    requires k >= 1
    ensures a / k as real / 2.0 == a / (2 * k) as real
  {
  }

  /** Half the time from the first press to the last, divided over the n - 1
      intervals between n presses, in whole milliseconds and never negative:
      (last - first) / (2 (n - 1)). */
  function HalfSpanMs(ph: seq<int>): int
    requires |ph| >= 2
  {
    Max(0, (ph[|ph| - 1] - ph[0]) / (2 * (|ph| - 1)))
  }

  /** Half the average interval is half the span over the intervals. */
  lemma CadenceTelescopes(ph: seq<int>)
    requires |ph| >= 2
    ensures CadenceMs(ph) == HalfSpanMs(ph)
  {
    SumIntervals(ph);
    HalfOfAverage((ph[|ph| - 1] - ph[0]) as real, |ph| - 1);
    MaxTruncQuotient(ph[|ph| - 1] - ph[0], 2 * (|ph| - 1));
  }

  lemma AutoDelayIsCadence(ad: AutoDelayCfg, ph: seq<int>, nowMs: int)
    requires ad.enabled && |Recent(ph, nowMs)| >= 3
    ensures AutoDelayMs(ad, ph, nowMs) == Max(0, CadenceMs(Recent(ph, nowMs)) + ad.geomLeadMs)
  {
  }

  /** Enabled with at least three recent presses, the delay is half the average
      interval between them, that is (last - first) / (2 (n - 1)), made
      non-negative, plus the geometric lead, made non-negative again. */
  lemma AutoDelayFromCadence(ad: AutoDelayCfg, ph: seq<int>, nowMs: int)
    requires ad.enabled && |Recent(ph, nowMs)| >= 3
    ensures AutoDelayMs(ad, ph, nowMs) == Max(0, HalfSpanMs(Recent(ph, nowMs)) + ad.geomLeadMs)
  {
    AutoDelayIsCadence(ad, ph, nowMs);
    CadenceTelescopes(Recent(ph, nowMs));
  }

  /** Disabled, or with fewer than three recent presses, the delay is the
      manual delay plus the geometric lead, made non-negative. */
  lemma AutoDelayManual(ad: AutoDelayCfg, ph: seq<int>, nowMs: int)
    requires !ad.enabled || |Recent(ph, nowMs)| < 3
    ensures AutoDelayMs(ad, ph, nowMs) == Max(0, ad.manualMs + ad.geomLeadMs)
  {
  }

  /** A tick changes only the published delay. */
  lemma AutoDelayStepOnlyCurrent(s: HubState, nowMs: int)
    ensures var r := AutoDelayStep(s, nowMs);
      && r == s.(autoDelay := r.autoDelay)
      && r.autoDelay == s.autoDelay.(currentMs := r.autoDelay.currentMs)
      && r.autoDelay.currentMs >= 0
  {
  }
}
