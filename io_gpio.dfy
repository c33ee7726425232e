/** The hardware abstraction's bookkeeping: the pin mapping (named pins and
    unit outputs), the flow-meter pulse counter with read-and-reset, and the
    debounced switch states. Driving pins, timers and tasks are not part of
    this model. */
module Gpio {
  import opened Builtins

  /** The names `set_mapping` accepts besides `"unit:<id>"`. */
  const PinNames: set<string> := {"flow", "buzzer", "M1", "M2", "M3"}

  /** The momentary switches whose state is tracked. */
  const SwitchNames: set<string> := {"M1", "M2", "M3"}

  /** `name.startswith("unit:")`. */
  predicate IsUnitName(name: string) {
    |name| >= 5 && name[..5] == "unit:"
  }

  /** The text up to the first colon of `s`, or all of `s` when it has none. */
  function UpToColon(s: string): (r: string)
    ensures |r| <= |s| && r == s[..|r|]
    ensures forall i :: 0 <= i < |r| ==> r[i] != ':'
    ensures |r| < |s| ==> s[|r|] == ':'
  {
    if s == [] || s[0] == ':' then [] else [s[0]] + UpToColon(s[1..])
  }

  /** `name.split(":")[1]` for a name that starts with `"unit:"`: the piece
      between the first colon and the next one (or the end). */
  function UnitField(name: string): (r: string)
    requires IsUnitName(name)
    ensures 5 + |r| <= |name| && r == name[5..5 + |r|]
    ensures forall i :: 0 <= i < |r| ==> r[i] != ':'
    ensures 5 + |r| < |name| ==> name[5 + |r|] == ':'
  {
    UpToColon(name[5..])
  }

  /** The unit id a `"unit:<id>"` name selects; None where `int()` raises. */
  function UnitIdOf(name: string): Option<int>
    requires IsUnitName(name)
  {
    ParseInt(UnitField(name))
  }

  /** A string without a colon is its own first piece. */
  lemma UpToColonOfColonFree(s: string)
    requires forall i :: 0 <= i < |s| ==> s[i] != ':'
    ensures UpToColon(s) == s
  {
    var r := UpToColon(s);
    assert |r| == |s|;
  }

  /** The name `"unit:" + str(uid)` maps exactly unit `uid`. */
  lemma UnitNameRoundTrip(uid: int)
    ensures IsUnitName("unit:" + IntToString(uid))
    ensures UnitIdOf("unit:" + IntToString(uid)) == Some(uid)
  {
    var digits := IntToString(uid);
    var name := "unit:" + digits;
    assert name[5..] == digits;
    forall i | 0 <= i < |digits|
      ensures digits[i] != ':'
    {
      IntToStringChars(uid, i);
    }
    UpToColonOfColonFree(digits);
    ParseIntOfIntToString(uid);
  }

  /** `str(n)` is a sign and digits, so it holds no colon. */
  lemma IntToStringChars(n: int, i: int)
    requires 0 <= i < |IntToString(n)|
    ensures IntToString(n)[i] == '-' || IsDigit(IntToString(n)[i])
  {
    if n < 0 {
      var d := NatToString(-n);
      assert IntToString(n) == "-" + d;
      if i > 0 {
        assert IntToString(n)[i] == d[i - 1];
      }
    }
  }

  /** `BaseGPIO`: what the Brain maps and counts, whatever the backend. */
  class BaseGpio {
    /** `mapping["flow"]`, `mapping["buzzer"]`, `mapping["M1".."M3"]`; None is unmapped. */
    var pins: map<string, Option<int>>
    /** `mapping["units"]`: unit id to output pin. */
    var units: map<int, int>
    /** `_pulse_count`: flow-meter pulses since the last read. */
    var pulseCount: int
    /** `_switch_state`: the debounced state of each momentary switch. */
    var switchState: map<string, bool>

    /** The mapping always holds the five named pins and the three switches. */
    predicate Valid()
      reads this
    {
      pins.Keys == PinNames && switchState.Keys == SwitchNames
    }

    /** A fresh instance: nothing mapped, no pulses, every switch released. */
    constructor ()
      ensures Valid()
      ensures forall n :: n in PinNames ==> pins[n] == None
      ensures units == map[]
      ensures pulseCount == 0
      ensures forall n :: !ReadSwitch(n)
    {
      pins := map["flow" := None, "buzzer" := None, "M1" := None, "M2" := None, "M3" := None];
      units := map[];
      pulseCount := 0;
      switchState := map["M1" := false, "M2" := false, "M3" := false];
    }

    /** `set_mapping(name, pin)`. A `"unit:<id>"` name maps unit `id` and
        nothing else, and fails (ok false, nothing changed) where the id is not
        an integer; one of the five pin names maps that pin; any other name
        changes nothing. */
    method SetMapping(name: string, pin: int) returns (ok: bool)
      requires Valid()
      modifies this
      ensures Valid()
      ensures pulseCount == old(pulseCount) && switchState == old(switchState)
      ensures IsUnitName(name) ==>
        match UnitIdOf(name)
        case None => !ok && pins == old(pins) && units == old(units)
        case Some(uid) => ok && pins == old(pins) && units == old(units)[uid := pin]
      ensures !IsUnitName(name) ==> ok && units == old(units)
      ensures !IsUnitName(name) && name in PinNames ==> pins == old(pins)[name := Some(pin)]
      ensures !IsUnitName(name) && name !in PinNames ==> pins == old(pins)
    {
      if |name| >= 5 && name[..5] == "unit:" {
        var uid := ParseInt(UpToColon(name[5..]));
        if uid.None? {
          return false;
        }
        units := units[uid.value := pin];
      } else if name in PinNames {
        pins := pins[name := Some(pin)];
      }
      return true;
    }

    /** `read_switch(name)`: the stored state, or released for a name that is
        not tracked. */
    function ReadSwitch(name: string): (r: bool)
      reads this
      ensures name !in switchState ==> !r
      ensures name in switchState ==> r == switchState[name]
      ensures Valid() && name !in SwitchNames ==> !r
    {
      if name in switchState then switchState[name] else false
    }

    /** `get_pulses_and_reset()`: the pulses counted so far; the counter
        starts again from zero and nothing else changes. */
    method GetPulsesAndReset() returns (c: int)
      requires Valid()
      modifies this
      ensures Valid()
      ensures c == old(pulseCount) && pulseCount == 0
      ensures pins == old(pins) && units == old(units) && switchState == old(switchState)
    {
      c := pulseCount;
      pulseCount := 0;
    }

    /** `_simulate_flow_pulse(n)`: `n` more pulses, nothing else changes. */
    method SimulateFlowPulse(n: int)
      requires Valid()
      modifies this
      ensures Valid()
      ensures pulseCount == old(pulseCount) + n
      ensures pins == old(pins) && units == old(units) && switchState == old(switchState)
    {
      pulseCount := pulseCount + n;
    }
  }
}
