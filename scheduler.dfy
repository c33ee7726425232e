/** The cycle timing planner: when each unit fires relative to a momentary
    switch press,

      fire time = press time + pattern base + momentary offset + per-unit delay,

    and the list of (unit, start, duration, mode) entries for one cycle, ordered
    by start time then unit id. */
module Scheduler {
  import opened Builtins

  datatype Pattern = Diamond | Diagonal | Line

  /** One unit as the planner sees it. `group` is "A" or "B"; `momentary` names a
      switch ("M1", "M2", "M3") or is "None"; `mode` is "inherit", "flow" or "timed". */
  datatype UnitState = UnitState(
    id: int,
    enabled: bool,
    group: string,
    momentary: string,
    offset: int,
    perDelayMs: int,
    mode: string,
    pulsesPerCycle: int,
    msPerMl: real)

  datatype MomentaryCfg = MomentaryCfg(enabled: bool, offset: int)

  datatype AutoDelay = AutoDelay(enabled: bool, manualMs: int, geomLeadMs: int, currentMs: int)

  datatype BrainStateView = BrainStateView(
    targetMl: int,
    deliveryMode: string,
    autoDelay: AutoDelay,
    momentary: map<string, MomentaryCfg>,
    units: seq<UnitState>)

  /** How a unit meters its delivery in one cycle. */
  datatype ModeInfo =
    | TimedInfo(msPerMl: real, targetMl: int)
    | FlowInfo(pulses: int, targetMl: int)

  /** One schedule entry: (unit_id, start_ms, duration_ms, mode_dict). */
  datatype Entry = Entry(unitId: int, startMs: int, durationMs: Option<int>, info: ModeInfo)

  /** Step between consecutive unit ids under the diagonal pattern. */
  const DiagonalStepMs: int := 80

  // ---------------------------------------------------------------------
  // Helpers
  // ---------------------------------------------------------------------

  /** Momentary offset in ms: 0..100 % maps to 0..1000 ms; an unknown switch name
      (including "None") contributes nothing. */
  function MomentaryMs(m: map<string, MomentaryCfg>, name: string): (r: int)
    ensures 0 <= r <= 1000 && r % 10 == 0
    ensures name !in m ==> r == 0
    ensures name in m && 0 <= m[name].offset <= 100 ==> r == 10 * m[name].offset
    ensures name in m && m[name].offset >= 100 ==> r == 1000
    ensures name in m && m[name].offset <= 0 ==> r == 0
  {
    if name in m then 10 * Clamp(m[name].offset, 0, 100) else 0
  }

  /** The switch's `enabled` flag plays no part: a disabled momentary still
      contributes its offset. */
  lemma MomentaryMsIgnoresEnabled(m: map<string, MomentaryCfg>, name: string, on: bool)
    requires name in m
    ensures MomentaryMs(m[name := MomentaryCfg(on, m[name].offset)], name) == MomentaryMs(m, name)
  {
  }

  /** Base delay the pattern gives before momentary and per-unit offsets. */
  function PatternBaseMs(pattern: Pattern, unit: UnitState, auto: AutoDelay, stepMs: int): (r: int)
    ensures r >= 0
    ensures pattern == Line ==> r == 0
    ensures pattern == Diamond && unit.group == "A" ==> r == 0
    ensures pattern == Diamond && unit.group != "A" ==> r == Max(0, auto.currentMs)
    ensures pattern == Diagonal && stepMs >= 0 && unit.id >= 1 ==> r == (unit.id - 1) * stepMs
    ensures pattern == Diagonal && stepMs >= 0 && unit.id <= 1 ==> r == 0
  {
    match pattern
    case Diamond => if unit.group == "A" then 0 else Max(0, auto.currentMs)
    case Diagonal => Max(0, (unit.id - 1) * stepMs)
    case Line => 0
  }

  /** Under the diagonal pattern units fire in id order, one step apart. */
  lemma DiagonalOrdersById(u: UnitState, v: UnitState, auto: AutoDelay)
    requires 1 <= u.id <= v.id
    ensures PatternBaseMs(Diagonal, v, auto, DiagonalStepMs) - PatternBaseMs(Diagonal, u, auto, DiagonalStepMs)
            == (v.id - u.id) * DiagonalStepMs
  {
  }

  /** The unit's own mode when it overrides ("flow" or "timed"), else the global one. */
  function InheritMode(globalMode: string, unitMode: string): (r: string)
    ensures r == unitMode || r == globalMode
    ensures (r == unitMode && (unitMode == "flow" || unitMode == "timed")) || (r == globalMode && unitMode != "flow" && unitMode != "timed")
  {
    if unitMode == "flow" || unitMode == "timed" then unitMode else globalMode
  }

  /** With a global mode of "flow" or "timed", every unit resolves to one of the two. */
  lemma InheritModeResolves(globalMode: string, unitMode: string)
    requires globalMode == "flow" || globalMode == "timed"
    ensures InheritMode(globalMode, unitMode) in {"flow", "timed"}
  {
  }

  /** The per-unit delay after the diamond safety clamp: group A never fires before
      the press, group B never earlier than A (no more than the B delay early).
      Other patterns take the delay as stored. */
  function ClampedPerDelay(pattern: Pattern, group: string, per: int, currentMs: int): (r: int)
    ensures r >= per
    ensures pattern != Diamond || (group != "A" && group != "B") ==> r == per
    ensures pattern == Diamond && group == "A" ==> r >= 0 && (per >= 0 ==> r == per) && (per < 0 ==> r == 0)
    ensures pattern == Diamond && group == "B" ==> r >= -Max(0, currentMs)
    ensures pattern == Diamond && group == "B" && per >= -Max(0, currentMs) ==> r == per
    ensures pattern == Diamond && group == "B" && per < -Max(0, currentMs) ==> r == -Max(0, currentMs)
  {
    var p := if pattern == Diamond && group == "B" && per < -Max(0, currentMs) then -Max(0, currentMs) else per;
    if pattern == Diamond && group == "A" && p < 0 then 0 else p
  }

  /** Python's `x or default` for an int: zero falls back to the default. */
  function OrInt(x: int, default: int): int { if x != 0 then x else default }

  function OrReal(x: real, default: real): real { if x != 0.0 then x else default }

  /** Duration and metering info for one unit. Timed units get a duration of
      round(target * msPerMl) with msPerMl at least 0.1 (an unset 0 reads as 5.0);
      flow units get no duration and at least one pulse (an unset 0 reads as 100). */
  function DurationAndMode(unit: UnitState, st: BrainStateView): (r: (Option<int>, ModeInfo))
    ensures r.1.targetMl == Max(1, st.targetMl) && r.1.targetMl >= 1
    ensures r.0.Some? <==> r.1.TimedInfo?
    ensures r.1.TimedInfo? <==> InheritMode(st.deliveryMode, unit.mode) == "timed"
    ensures r.1.TimedInfo? ==> (r.1.msPerMl >= 0.1 && r.0.value >= 0
      && -0.5 <= r.0.value as real - r.1.targetMl as real * r.1.msPerMl <= 0.5)
    ensures r.1.TimedInfo? && r.0.value as real - r.1.targetMl as real * r.1.msPerMl == 0.5 ==> r.0.value % 2 == 0
    ensures r.1.TimedInfo? && r.1.targetMl as real * r.1.msPerMl - r.0.value as real == 0.5 ==> r.0.value % 2 == 0
    ensures r.1.TimedInfo? && unit.msPerMl >= 0.1 ==> r.1.msPerMl == unit.msPerMl
    ensures r.1.TimedInfo? && unit.msPerMl == 0.0 ==> r.1.msPerMl == 5.0
    ensures r.1.TimedInfo? && unit.msPerMl != 0.0 && unit.msPerMl < 0.1 ==> r.1.msPerMl == 0.1
    ensures r.1.FlowInfo? ==> r.1.pulses >= 1
    ensures r.1.FlowInfo? && unit.pulsesPerCycle >= 1 ==> r.1.pulses == unit.pulsesPerCycle
    ensures r.1.FlowInfo? && unit.pulsesPerCycle == 0 ==> r.1.pulses == 100
    ensures r.1.FlowInfo? && unit.pulsesPerCycle < 0 ==> r.1.pulses == 1
  {
    var target := Max(1, st.targetMl);
    var mode := InheritMode(st.deliveryMode, unit.mode);
    if mode == "timed" then
      var msPerMl := MaxReal(0.1, OrReal(unit.msPerMl, 5.0));
      (Some(RoundHalfEven(target as real * msPerMl)), TimedInfo(msPerMl, target))
    else
      (None, FlowInfo(Max(1, OrInt(unit.pulsesPerCycle, 100)), target))
  }

  // ---------------------------------------------------------------------
  // Ordering of the plan
  // ---------------------------------------------------------------------

  /** Entries compare by (start_ms, unit_id). */
  predicate LessEq(a: Entry, b: Entry) {
    a.startMs < b.startMs || (a.startMs == b.startMs && a.unitId <= b.unitId)
  }

  predicate SortedByStart(s: seq<Entry>) {
    forall i, j :: 0 <= i < j < |s| ==> LessEq(s[i], s[j])
  }

  /** `x` placed after every element that is not greater than it. */
  function Insert(s: seq<Entry>, x: Entry): (r: seq<Entry>)
    requires SortedByStart(s)
    ensures SortedByStart(r)
    ensures multiset(r) == multiset(s) + multiset{x}
    ensures |r| == |s| + 1
  {
    if s == [] then [x]
    else if LessEq(s[|s| - 1], x) then s + [x]
    else
      var last := s[|s| - 1];
      var init := Insert(s[..|s| - 1], x);
      assert forall e :: e in multiset(s[..|s| - 1]) ==> LessEq(e, last);
      assert forall e :: e in init ==> LessEq(e, last) by {
        forall e | e in init
          ensures LessEq(e, last)
        {
          assert e in multiset(init);
        }
      }
      assert s == s[..|s| - 1] + [last];
      init + [last]
  }

  /** `out.sort(key=lambda e: (e[1], e[0]))`: a stable insertion sort by (start, id). */
  function SortEntries(s: seq<Entry>): (r: seq<Entry>)
    ensures SortedByStart(r)
    ensures multiset(r) == multiset(s)
    ensures |r| == |s|
  {
    if s == [] then []
    else
      var r := Insert(SortEntries(s[..|s| - 1]), s[|s| - 1]);
      assert s == s[..|s| - 1] + [s[|s| - 1]];
      r
  }

  // ---------------------------------------------------------------------
  // The planner
  // ---------------------------------------------------------------------

  /** A unit takes part in the cycle when it is enabled and not tramlined off. */
  predicate Eligible(u: UnitState, tramOff: int -> bool) {
    u.enabled && !tramOff(u.id)
  }

  /** The number of units that take part. */
  function CountEligible(us: seq<UnitState>, tramOff: int -> bool): nat {
    if us == [] then 0
    else CountEligible(us[..|us| - 1], tramOff) + (if Eligible(us[|us| - 1], tramOff) then 1 else 0)
  }

  /** The fire time of a unit for a given pattern. */
  function FireMs(pattern: Pattern, baseMs: int, unit: UnitState, st: BrainStateView): int {
    baseMs
      + PatternBaseMs(pattern, unit, st.autoDelay, DiagonalStepMs)
      + MomentaryMs(st.momentary, unit.momentary)
      + ClampedPerDelay(pattern, unit.group, unit.perDelayMs, st.autoDelay.currentMs)
  }

  /** Under the diamond pattern no A or B unit fires before the press. */
  lemma DiamondNeverBeforePress(baseMs: int, unit: UnitState, st: BrainStateView)
    requires unit.group == "A" || unit.group == "B"
    ensures FireMs(Diamond, baseMs, unit, st) >= baseMs
    ensures unit.group == "B" ==> FireMs(Diamond, baseMs, unit, st) >= baseMs + MomentaryMs(st.momentary, unit.momentary)
  {
  }

  /** The entry plan_cycle emits for one unit. */
  function EntryFor(pattern: Pattern, baseMs: int, u: UnitState, st: BrainStateView): (e: Entry)
    ensures e.unitId == u.id && e.startMs == FireMs(pattern, baseMs, u, st)
  {
    var (dur, info) := DurationAndMode(u, st);
    Entry(u.id, FireMs(pattern, baseMs, u, st), dur, info)
  }

  /** The entries of the eligible units, in unit order, before sorting. */
  function Collect(pattern: Pattern, baseMs: int, us: seq<UnitState>, st: BrainStateView, tramOff: int -> bool): (r: seq<Entry>)
    ensures |r| == CountEligible(us, tramOff)
  {
    if us == [] then []
    else
      var init := Collect(pattern, baseMs, us[..|us| - 1], st, tramOff);
      var u := us[|us| - 1];
      if Eligible(u, tramOff) then init + [EntryFor(pattern, baseMs, u, st)] else init
  }

  /** Every collected entry belongs to an eligible unit and is that unit's entry. */
  lemma {:induction false} CollectedFromEligible(pattern: Pattern, baseMs: int, us: seq<UnitState>, st: BrainStateView, tramOff: int -> bool, e: Entry)
    requires e in Collect(pattern, baseMs, us, st, tramOff)
    ensures exists u :: u in us && Eligible(u, tramOff) && e == EntryFor(pattern, baseMs, u, st)
  {
    if us != [] {
      var init := Collect(pattern, baseMs, us[..|us| - 1], st, tramOff);
      if e in init {
        CollectedFromEligible(pattern, baseMs, us[..|us| - 1], st, tramOff, e);
        var u :| u in us[..|us| - 1] && Eligible(u, tramOff) && e == EntryFor(pattern, baseMs, u, st);
        assert u in us;
      } else {
        assert e == EntryFor(pattern, baseMs, us[|us| - 1], st);
      }
    }
  }

  /** Every eligible unit has its entry among the collected ones. */
  lemma {:induction false} EligibleCollected(pattern: Pattern, baseMs: int, us: seq<UnitState>, st: BrainStateView, tramOff: int -> bool, k: int)
    requires 0 <= k < |us| && Eligible(us[k], tramOff)
    ensures EntryFor(pattern, baseMs, us[k], st) in Collect(pattern, baseMs, us, st, tramOff)
  {
    if k < |us| - 1 {
      EligibleCollected(pattern, baseMs, us[..|us| - 1], st, tramOff, k);
    }
  }

  class Scheduler {
    var pattern: Pattern
    /** The tramline query the planner was built with: true when a unit id is temporarily off. */
    const tramOff: int -> bool

    constructor (tramOff: int -> bool, pattern: Pattern)
      ensures this.tramOff == tramOff && this.pattern == pattern
    {
      this.tramOff := tramOff;
      this.pattern := pattern;
    }

    method SetPattern(p: Pattern)
      modifies this
      ensures pattern == p
    {
      pattern := p;
    }

    /** Fire time of one unit: the press time plus the pattern base, the momentary
        offset and the per-unit delay, the last clamped under the diamond pattern. */
    method UnitFireMs(baseMs: int, unit: UnitState, st: BrainStateView) returns (r: int)
      ensures r == FireMs(pattern, baseMs, unit, st)
      ensures pattern == Diamond && (unit.group == "A" || unit.group == "B") ==> r >= baseMs
      ensures pattern != Diamond ==> r == baseMs + PatternBaseMs(pattern, unit, st.autoDelay, DiagonalStepMs)
                                         + MomentaryMs(st.momentary, unit.momentary) + unit.perDelayMs
    {
      var base := PatternBaseMs(pattern, unit, st.autoDelay, DiagonalStepMs);
      var mom := MomentaryMs(st.momentary, unit.momentary);
      var per := unit.perDelayMs;
      if pattern == Diamond && unit.group == "B" {
        var minNeg := -Max(0, st.autoDelay.currentMs);
        if per < minNeg {
          per := minNeg;
        }
      }
      if pattern == Diamond && unit.group == "A" {
        if per < 0 {
          per := 0;
        }
      }
      r := baseMs + base + mom + per;
      if pattern == Diamond && (unit.group == "A" || unit.group == "B") {
        DiamondNeverBeforePress(baseMs, unit, st);
      }
    }

    /** The schedule for one press at `nowMs`, the state snapshot being `st`: one
        entry per enabled, non-tramlined unit, ordered by (start, id). The
        pressed-switch filter of the source has no effect, so `pressedM` is unused. */
    method PlanCycle(st: BrainStateView, nowMs: int, pressedM: Option<string>) returns (plan: seq<Entry>)
      ensures plan == SortEntries(Collect(pattern, nowMs, st.units, st, tramOff))
      ensures SortedByStart(plan)
      ensures |plan| == CountEligible(st.units, tramOff)
      ensures forall e :: e in plan ==> exists u :: u in st.units && Eligible(u, tramOff) && e == EntryFor(pattern, nowMs, u, st)
      ensures forall k :: 0 <= k < |st.units| && Eligible(st.units[k], tramOff) ==> EntryFor(pattern, nowMs, st.units[k], st) in plan
      ensures pattern == Diamond && (forall u :: u in st.units ==> u.group == "A" || u.group == "B")
              ==> forall e :: e in plan ==> e.startMs >= nowMs
    {
      var out: seq<Entry> := [];
      var i := 0;
      while i < |st.units|
        invariant 0 <= i <= |st.units|
        invariant out == Collect(pattern, nowMs, st.units[..i], st, tramOff)
      {
        var u := st.units[i];
        assert st.units[..i + 1][..i] == st.units[..i];
        if u.enabled && !tramOff(u.id) {
          var start := UnitFireMs(nowMs, u, st);
          var (dur, info) := DurationAndMode(u, st);
          out := out + [Entry(u.id, start, dur, info)];
        }
        i := i + 1;
      }
      assert st.units[..i] == st.units;
      plan := SortEntries(out);
      forall e | e in plan
        ensures exists u :: u in st.units && Eligible(u, tramOff) && e == EntryFor(pattern, nowMs, u, st)
      {
        assert e in multiset(plan);
        CollectedFromEligible(pattern, nowMs, st.units, st, tramOff, e);
      }
      forall k | 0 <= k < |st.units| && Eligible(st.units[k], tramOff)
        ensures EntryFor(pattern, nowMs, st.units[k], st) in plan
      {
        EligibleCollected(pattern, nowMs, st.units, st, tramOff, k);
        assert EntryFor(pattern, nowMs, st.units[k], st) in multiset(out);
      }
      if pattern == Diamond && (forall u :: u in st.units ==> u.group == "A" || u.group == "B") {
        forall e | e in plan
          ensures e.startMs >= nowMs
        {
          var u :| u in st.units && Eligible(u, tramOff) && e == EntryFor(pattern, nowMs, u, st);
          DiamondNeverBeforePress(nowMs, u, st);
        }
      }
    }
  }
}
