# Even-Crop Brain backend, modelled in Dafny

This project models the Python "brain" of Even-Crop, a controller for a liquid-delivery rig with eleven dispensing units. The brain is the Raspberry Pi process that keeps the machine state, answers a dashboard's WebSocket messages, plans when each metering unit fires after a momentary-switch press, and counts flow-meter pulses. The modules follow the source files:

- `Builtins` holds the Python built-ins the code relies on: `int()` on strings, `str()` of ints, `str.strip`, `str.isalnum`, `round`, truncation, list slicing with negative starts, and the bounded append `l.append(x); l = l[-n:]`.
- `Json` covers decoded JSON documents (`Value`), a mutable shared dict (`Dict`), `dict.get`, `dict.setdefault`, and Python's `in`, `bool()`, `int()`, `float()` and `str()` on such values.
- `Scheduler` models `scheduler.py`: the momentary offset, the pattern base delay, the diamond safety clamp, mode inheritance, duration/pulse derivation, and `plan_cycle` with its filter loop and its sort by `(start, id)`.
- `StateStore` models `state_store.py`: `default_state`, the additive `_migrate` normaliser, the bounded `log_event`, and the primary/backup/default choice of `load_state`.
- `Profiles` models `profiles.py`: `_strip_runtime`, `_sanitize_name`, the file name of `profile_path`, the defaults of `load_profile`, and `apply_profile`.
- `ServerState` models the single-file server's own `default_state` and `load_state` migration in `server.py`, including the misplaced `simulation` reset.
- `Server` models `server.py`'s `Hub`. It is a class over a typed `HubState` record, with `handle_msg` (minus sends and saves), one pass of `cycle_loop`, one tick of `_auto_delay_loop`, and the bounded `eventLog` and `pressHistory`.
- `Gpio` models `io_gpio.py`'s `BaseGPIO` bookkeeping: the pin mapping with `"unit:<id>"` names, the pulse counter and the switch states.

Every Python operation that mutates a dict or an object is a Dafny method on a class, with a `modifies` clause. Each such method is proved equal to a function of the old state. The properties are lemmas about those functions. A Python exception becomes a `false` flag or a `None` result. Changes made before the raise are kept where a caller can see them.

Clock readings are the parameter `nowMs`, and press times are in milliseconds. The simulator's `random.uniform` deviation is the parameter `noise` (one value per unit position) or `dev`.

## Model

| member | source | states |
|---|---|---|
| Scheduler.MomentaryMs | Even-Crop-Pi/brain/scheduler.py:57-65 | the offset is in 0..1000 and a multiple of 10; an unknown switch gives 0; an offset of p percent in 0..100 gives 10·p, 100 or more gives 1000, and 0 or less gives 0, i.e. 10·clamp(p, 0, 100) |
| Scheduler.MomentaryMsIgnoresEnabled | Even-Crop-Pi/brain/scheduler.py:57-65 | the switch's `enabled` flag has no influence on its offset |
| Scheduler.PatternBaseMs | Even-Crop-Pi/brain/scheduler.py:67-82 | never negative; line gives 0; diamond gives 0 for group A and max(0, currentMs) for others; diagonal gives (id-1)·step for ids ≥ 1 and 0 below |
| Scheduler.DiagonalOrdersById | Even-Crop-Pi/brain/scheduler.py:67-82 | under the diagonal pattern a higher id never starts earlier, with 80 ms per id step |
| Scheduler.InheritMode | Even-Crop-Pi/brain/scheduler.py:84-85 | the unit's mode exactly when it is "flow" or "timed", otherwise the global mode |
| Scheduler.InheritModeResolves | Even-Crop-Pi/brain/scheduler.py:84-85 | with a global mode of flow or timed, every unit resolves to flow or timed |
| Scheduler.ClampedPerDelay | Even-Crop-Pi/brain/scheduler.py:127-133 | the clamp only raises the delay; other patterns leave it unchanged; diamond group A is raised to ≥ 0; diamond group B is raised to ≥ -max(0, currentMs); a delay already in range is kept |
| Scheduler.DurationAndMode | Even-Crop-Pi/brain/scheduler.py:137-148 | the target is max(1, targetMl); there is a duration exactly in timed mode, which is the mode inheritance resolves to; timed mode has msPerMl ≥ 0.1 (a value ≥ 0.1 is kept, 0 becomes 5.0, any other value below 0.1 becomes 0.1) and a duration within 0.5 of target·msPerMl, a tie going to the even integer as `round()` does; flow mode has pulses ≥ 1 (a value ≥ 1 is kept, 0 becomes 100, a negative value becomes 1) |
| Scheduler.Insert | Even-Crop-Pi/brain/scheduler.py:176-177 | inserting into a sorted list keeps it sorted and adds exactly the element (as a multiset) |
| Scheduler.SortEntries | Even-Crop-Pi/brain/scheduler.py:176-177 | the output is sorted by (start, id) and is a permutation of the input |
| Scheduler.DiamondNeverBeforePress | Even-Crop-Pi/brain/scheduler.py:122-135 | under diamond no A or B unit fires before the press, and B also waits its momentary offset |
| Scheduler.Collect | Even-Crop-Pi/brain/scheduler.py:161-174 | one entry per eligible unit (enabled and not tramlined off) |
| Scheduler.CollectedFromEligible | Even-Crop-Pi/brain/scheduler.py:161-174 | every collected entry is the entry of some eligible unit |
| Scheduler.EligibleCollected | Even-Crop-Pi/brain/scheduler.py:161-174 | every eligible unit's entry is collected |
| Scheduler.Scheduler.constructor | Even-Crop-Pi/brain/scheduler.py:107-113 | the planner keeps its tramline query and its initial pattern |
| Scheduler.Scheduler.SetPattern | Even-Crop-Pi/brain/scheduler.py:115-116 | the pattern becomes `p`; the tramline query is unchanged |
| Scheduler.Scheduler.UnitFireMs | Even-Crop-Pi/brain/scheduler.py:122-135 | the fire time of the unit; under diamond it is at or after the press for A and B units; other patterns add only the pattern base |
| Scheduler.Scheduler.PlanCycle | Even-Crop-Pi/brain/scheduler.py:150-178 | the plan is sorted by (start, id); it has exactly one entry per eligible unit (membership both ways); under diamond, when every unit is in group A or B, every entry starts at or after `now_ms`; the `pressed_m` argument has no effect |
| StateStore.BuildDefaultUnits | Even-Crop-Pi/brain/state_store.py:30-47 | the loop builds the eleven default units |
| StateStore.DefaultUnitsLayout | Even-Crop-Pi/brain/state_store.py:30-47 | eleven units with ids 1..11; exactly units 1–4 enabled; odd ids in group A, even ids in group B |
| StateStore.TopDefaultsAreDefaultState | Even-Crop-Pi/brain/state_store.py:49-84 | the setdefault block of `_migrate` lists exactly the keys and values of `default_state()` |
| StateStore.FillUnit | Even-Crop-Pi/brain/state_store.py:87-98 | a unit gains the eleven per-unit fields and keeps every value it had; a complete unit is unchanged |
| StateStore.FirstNonObj | Even-Crop-Pi/brain/state_store.py:87-98 | the index at which the per-unit loop raises: every earlier element is a dict, the element at the index is not |
| StateStore.FillCurrentMs | Even-Crop-Pi/brain/state_store.py:101-103 | a present `currentMs` is kept; a missing one is filled from `int(manualMs)` or 500; a non-container raises |
| StateStore.FillCurrentMsIdempotent | Even-Crop-Pi/brain/state_store.py:101-103 | the `currentMs` rule applied twice is the rule applied once |
| StateStore.MigrateRest | Even-Crop-Pi/brain/state_store.py:87-103 | the units loop and the `currentMs` rule keep the key set |
| StateStore.Migrate | Even-Crop-Pi/brain/state_store.py:68-105 | `_migrate` on a shared dict leaves the state `Migrated` gives, and returns exactly when it does |
| StateStore.MigrateUnitsAndDelay | Even-Crop-Pi/brain/state_store.py:87-103 | the loop over units and the auto-delay rule on the shared dict equal `MigrateRest` |
| StateStore.MigratedHasTopKeys | Even-Crop-Pi/brain/state_store.py:70-84 | after `_migrate`, raising or not, the keys are the old keys plus every default top-level key |
| StateStore.MigrateRestExtends | Even-Crop-Pi/brain/state_store.py:87-103 | the loop and the rule only add fields; keys other than units and autoDelay are untouched |
| StateStore.MigratedExtends | Even-Crop-Pi/brain/state_store.py:68-98 | `_migrate` never overwrites a present value; unknown keys are kept; only units and autoDelay can gain fields |
| StateStore.MigratedUnitsComplete | Even-Crop-Pi/brain/state_store.py:87-98 | when `_migrate` returns, every unit carries all eleven per-unit fields |
| StateStore.MigratedCurrentMs | Even-Crop-Pi/brain/state_store.py:101-103 | when `_migrate` returns with a dict auto-delay, `currentMs` is present, with its old value if it had one and otherwise `int(manualMs)` or 500 |
| StateStore.MigrateRestCurrentMs | Even-Crop-Pi/brain/state_store.py:101-103 | the same `currentMs` statement for the part after the top-level block |
| StateStore.MigratedUnitListIdempotent | Even-Crop-Pi/brain/state_store.py:87-98 | the units loop run twice is the loop run once, and it raises at the same index |
| StateStore.MigrateRestIdempotent | Even-Crop-Pi/brain/state_store.py:87-103 | the part after the top-level block is idempotent |
| StateStore.MigratedIdempotent | Even-Crop-Pi/brain/state_store.py:68-105 | `_migrate(_migrate(x)) == _migrate(x)`, for both the state and whether it returns |
| StateStore.DefaultUnitsFilled | Even-Crop-Pi/brain/state_store.py:30-47 | every default unit already carries the eleven fields |
| StateStore.MigratedEmpty | Even-Crop-Pi/brain/state_store.py:68-105 | migrating an empty document gives exactly `default_state()` |
| StateStore.MigrateRestDefault | Even-Crop-Pi/brain/state_store.py:87-103 | the default state is a fixed point of the part after the top-level block |
| StateStore.MigrateRestFixedPoint | Even-Crop-Pi/brain/state_store.py:87-103 | units and an auto-delay value that the loop and rule leave alone give a fixed point |
| StateStore.DefaultUnitsMigrate | Even-Crop-Pi/brain/state_store.py:87-98 | the default unit list passes the loop unchanged |
| StateStore.DefaultAutoDelayHasCurrent | Even-Crop-Pi/brain/state_store.py:101-103 | the default auto-delay value already has `currentMs` |
| StateStore.MigratedDefault | Even-Crop-Pi/brain/state_store.py:68-105 | `default_state()` is a fixed point of `_migrate` |
| StateStore.LogEvent | Even-Crop-Pi/brain/state_store.py:147-152 | `log_event` on a shared dict leaves the state `Logged` gives |
| StateStore.LoggedOnlyTouchesLog | Even-Crop-Pi/brain/state_store.py:147-152 | with a list log, `log_event` returns and changes only `eventLog` |
| StateStore.LoggedLog | Even-Crop-Pi/brain/state_store.py:147-152 | the new log is the bounded append of `{"t", "msg"}` to the old one |
| StateStore.LoggedNewestLast | Even-Crop-Pi/brain/state_store.py:147-152 | with max_keep ≥ 1 the log keeps min(max_keep, n + 1) entries, exactly the most recent ones of old log + new entry, in order, the new one last |
| StateStore.LoggedRejectsNonList | Even-Crop-Pi/brain/state_store.py:147-152 | a log that is not a list makes `log_event` raise with the state unchanged |
| StateStore.TryLoad | Even-Crop-Pi/brain/state_store.py:124-145 | a file loads exactly when it decodes to an object that `_migrate` accepts, and the result is the migrated object |
| StateStore.LoadStateChoice | Even-Crop-Pi/brain/state_store.py:124-145 | there are four outcomes: no file gives the defaults; otherwise the migrated primary, else the migrated backup, else `default_state()` |
| StateStore.LoadStateNormalised | Even-Crop-Pi/brain/state_store.py:124-145 | whatever `load_state` returns has every default key and is a fixed point of `_migrate` |
| Profiles.StripUnit | Even-Crop-Pi/brain/profiles.py:43-46 | a unit loses exactly the three volatile fields and keeps every other value |
| Profiles.StripRuntime | Even-Crop-Pi/brain/profiles.py:36-47 | returns the stripped profile; the caller's state is left with its unit dicts stripped too, because they are shared |
| Profiles.StrippedProfileKeys | Even-Crop-Pi/brain/profiles.py:25-41 | the profile's keys are exactly PROFILE_KEYS ∩ keys(state); values other than units are copied unchanged |
| Profiles.StripUnitClean | Even-Crop-Pi/brain/profiles.py:43-46 | a stripped unit has no volatile field |
| Profiles.StrippedUnitListClean | Even-Crop-Pi/brain/profiles.py:43-46 | when every unit is a dict, no stripped unit has a volatile field |
| Profiles.StrippedUnitsClean | Even-Crop-Pi/brain/profiles.py:43-46 | when `_strip_runtime` returns, no unit in the profile has `lastDeliveredMl`, `deviation` or `status` |
| Profiles.StateAfterStripOnlyUnits | Even-Crop-Pi/brain/profiles.py:36-47 | in the caller's state only the units change |
| Profiles.KeepAllowed | Even-Crop-Pi/brain/profiles.py:49-51 | keeps only allowed characters, all taken from the input; an all-allowed string is kept whole |
| Profiles.KeepAllowedCounts | Even-Crop-Pi/brain/profiles.py:49-51 | every allowed character of the input is kept, as often as it occurs, and every disallowed one is dropped |
| Profiles.SliceAllowed | Even-Crop-Pi/brain/profiles.py:49-51 | a slice of an all-allowed string is all allowed |
| Profiles.StripAllowed | Even-Crop-Pi/brain/profiles.py:49-51 | stripping keeps a string all allowed |
| Profiles.SanitizeName | Even-Crop-Pi/brain/profiles.py:49-51 | never empty; only letters, digits, `-`, `_`, space and `.`; no leading or trailing space; the stripped filtered name whenever that is non-empty, and "profile" only otherwise |
| Profiles.SanitizeNameKeepsSafe | Even-Crop-Pi/brain/profiles.py:49-51 | a name that is already safe is returned unchanged |
| Profiles.SanitizeNameIdempotent | Even-Crop-Pi/brain/profiles.py:49-51 | sanitizing twice equals sanitizing once |
| Profiles.AllowedHasNoSeparator | Even-Crop-Pi/brain/profiles.py:49-51 | allowed characters contain no `/` or `\` |
| Profiles.ConcatAllowed | Even-Crop-Pi/brain/profiles.py:53-54 | the concatenation of all-allowed strings is all allowed |
| Profiles.SuffixAllowed | Even-Crop-Pi/brain/profiles.py:53-54 | the `.json` suffix is all allowed |
| Profiles.ProfileFileNameSafe | Even-Crop-Pi/brain/profiles.py:53-54 | the profile file name has no path separator |
| Profiles.ProfileFileNameSuffix | Even-Crop-Pi/brain/profiles.py:53-54 | the file name is the sanitized name followed by `.json` |
| Profiles.LoadProfile | Even-Crop-Pi/brain/profiles.py:71-84 | `load_profile` on the decoded file equals `LoadedProfile`: the setdefault block on a fresh dict |
| Profiles.LoadedProfileShape | Even-Crop-Pi/brain/profiles.py:76-83 | a profile loads exactly when the file is an object; it then has all six profile keys, keeps every value the file had, takes the default value for each profile key the file lacks, and has no other keys |
| Profiles.ApplyProfile | Even-Crop-Pi/brain/profiles.py:86-99 | `apply_profile` leaves the state `Applied` gives; a profile's auto-delay dict is shared, so it gains `currentMs` too; otherwise the profile is unchanged |
| Profiles.AppliedOnlyProfileKeys | Even-Crop-Pi/brain/profiles.py:86-93 | only PROFILE_KEYS present in the profile are overwritten (autoDelay can also gain `currentMs`); every other key, such as eventLog and tramline, is unchanged |
| Profiles.AppliedCurrentMs | Even-Crop-Pi/brain/profiles.py:95-98 | after `apply_profile`, `currentMs` exists: kept if present, otherwise `int(manualMs)` or 500 |
| Profiles.AppliedWithoutAutoDelay | Even-Crop-Pi/brain/profiles.py:95-98 | with no auto-delay anywhere, the state gets `{"currentMs": 500}` |
| Json.SetDefaults | Even-Crop-Pi/brain/state_store.py:70-84 | a block of distinct setdefault lines on a shared dict adds the missing defaults and keeps every present value |
| Json.FillDefaults | Even-Crop-Pi/brain/state_store.py:70-84 | a setdefault block adds exactly the missing keys with their defaults, keeps present values, and is a no-op when nothing is missing |
| Json.FillDefaultsIdempotent | Even-Crop-Pi/brain/state_store.py:70-84 | running a setdefault block twice equals running it once |
| Json.CopyKeys | Even-Crop-Pi/brain/profiles.py:39-41 | the copy loop into a fresh dict gives the projection onto the listed keys |
| Json.MergeKeys | Even-Crop-Pi/brain/profiles.py:91-93 | the copy loop into a shared dict overrides it with the projection |
| Json.PyIntOfPyStr | Even-Crop-Pi/brain/io_gpio.py:73-75 | `int(str(n)) == n` |
| Builtins.ParseIntOfIntToString | Even-Crop-Pi/brain/io_gpio.py:73-75 | `int()` reads back what `str()` of an int prints |
| Builtins.AppendBoundedKeepsRecent | Even-Crop-Pi/brain/state_store.py:147-152 | `append` then `[-n:]` keeps the n most recent entries in order, with the new one last |
| Builtins.AppendBoundedZero | Even-Crop-Pi/brain/state_store.py:147-152 | with a bound of 0, `l[-0:]` keeps the whole list |
| Builtins.KeepLast | Even-Crop-Pi/brain/server.py:184-185 | `l[-n:]` is the last min(n, len) elements |
| Builtins.MaxTruncQuotient | Even-Crop-Pi/brain/server.py:229-232 | `max(0, int(a / b))` on floats equals integer division of the integers for positive b |
| ServerState.BuildServerUnits | Even-Crop-Pi/brain/server.py:36-70 | the loop builds the eleven server units |
| ServerState.ServerUnitsExtendStore | Even-Crop-Pi/brain/server.py:36-70 | each server default unit is the store's default unit plus `pulsesPerLiter = 450` |
| ServerState.FillKey | Even-Crop-Pi/brain/server.py:78-80 | a dict unit gets the key by setdefault; other values pass unchanged (`in`) or raise |
| ServerState.FilledEach | Even-Crop-Pi/brain/server.py:78-80 | the loop keeps the list length |
| ServerState.FillKeyAll | Even-Crop-Pi/brain/server.py:78-80 | only a list changes; the loop runs as many times as the value has elements |
| ServerState.MigrateAutoDelay | Even-Crop-Pi/brain/server.py:95-98 | adds `autoDelay` and keeps every other key; a missing `autoDelay` becomes the full default; a dict keeps its fields and gains `currentMs`, if missing, as the raw `manualMs` (not `int()` of it) or 500; any other value raises |
| ServerState.Filled | Even-Crop-Pi/brain/server.py:78-92 | only units and the three added defaults change |
| ServerState.UnitsPass | Even-Crop-Pi/brain/server.py:78-92 | the two loops fail exactly when either raises, and otherwise give their results |
| ServerState.ResetSimulation | Even-Crop-Pi/brain/server.py:90-94 | the `simulation` reset happens exactly when the loop runs at least once |
| ServerState.FillUnits | Even-Crop-Pi/brain/server.py:78-80 | the loop over units equals `FillKeyAll` |
| ServerState.MigrateState | Even-Crop-Pi/brain/server.py:76-98 | the `try` block on a shared dict equals `Migrated` |
| ServerState.LoadState | Even-Crop-Pi/brain/server.py:72-104 | `load_state()`: the migrated file, or the defaults when anything fails |
| ServerState.LoadedStateFallback | Even-Crop-Pi/brain/server.py:72-104 | a missing, unreadable or non-object file gives the defaults |
| ServerState.FilledEachObj | Even-Crop-Pi/brain/server.py:78-80 | a dict unit gains the key, keeps its fields and gets the default when the key was missing |
| ServerState.MigratedUnitsFilled | Even-Crop-Pi/brain/server.py:78-92 | every migrated unit dict has `perDelayMs` and `pulsesPerLiter`, with old values kept and 0 / 450 otherwise |
| ServerState.MigratedKeys | Even-Crop-Pi/brain/server.py:76-98 | the added keys are present; no key is lost; only units, simulation and autoDelay can change |
| ServerState.MigratedSimulation | Even-Crop-Pi/brain/server.py:90-94 | as written, any unit at all makes the loaded `simulation` the default; with no units it is as saved |
| ServerState.FillKeyAllComplete | Even-Crop-Pi/brain/server.py:78-80 | units that already hold the key are left as they are |
| ServerState.MigratedFixedPoint | Even-Crop-Pi/brain/server.py:76-98 | a state that has everything the migration adds is a fixed point |
| ServerState.ServerUnitsComplete | Even-Crop-Pi/brain/server.py:36-70 | every default unit has `perDelayMs` and `pulsesPerLiter` |
| ServerState.DefaultStateRoundTrip | Even-Crop-Pi/brain/server.py:36-104 | loading a saved `default_state()` gives `default_state()` |
| ServerState.SimulationFlagsLost | Even-Crop-Pi/brain/server.py:90-94 | a saved "full simulation on" flag is lost on reload |
| ServerState.SimulationMissing | Even-Crop-Pi/brain/server.py:90-94 | a file with no units and no `simulation` loads without `simulation` |
| ServerState.MigrateAutoDelayIgnoresSimulation | Even-Crop-Pi/brain/server.py:95-98 | the auto-delay step neither reads nor changes `simulation` |
| ServerState.MigratedIntendedKeepsSimulation | Even-Crop-Pi/brain/server.py:90-94 | the corrected migration always has `simulation`, keeps a saved one and adds the default otherwise |
| ServerState.MigratedIntendedAgrees | Even-Crop-Pi/brain/server.py:76-98 | apart from `simulation`, the corrected migration agrees with the code as written and fails on the same files |
| ServerState.MigratedAlwaysResetClearsSimulation | Even-Crop-Pi/brain/server.py:90-94 | under the other correction (reset once after the loop) every loaded state has `simulation` with both flags off, whatever the number of units |
| ServerState.MigratedAlwaysResetAgrees | Even-Crop-Pi/brain/server.py:76-98 | apart from `simulation`, that correction also agrees with the code as written and fails on the same files |
| Server.LoggedKeepsRecent | Even-Crop-Pi/brain/server.py:112-116 | the log gains the new entry last and keeps at most the 100 most recent, in order |
| Server.EditedUnits | Even-Crop-Pi/brain/server.py:272-329 | a per-unit setter loop keeps the list length |
| Server.TrueOnly | Even-Crop-Pi/brain/server.py:356-359 | the tramline cleanup keeps exactly the true entries |
| Server.CycledUnits | Even-Crop-Pi/brain/server.py:188-206 | each unit is updated exactly when it is eligible, and the length is kept |
| Server.Recent | Even-Crop-Pi/brain/server.py:228 | the filter never lengthens the history |
| Server.Intervals | Even-Crop-Pi/brain/server.py:229-232 | n presses give n-1 intervals |
| Server.AutoDelayMs | Even-Crop-Pi/brain/server.py:213-240 | the published delay is never negative |
| Server.Hub.constructor | Even-Crop-Pi/brain/server.py:122-128 | the hub starts from the loaded state |
| Server.Hub.LogEvent | Even-Crop-Pi/brain/server.py:112-116 | the state becomes `Logged` of the old state |
| Server.Hub.EditUnits | Even-Crop-Pi/brain/server.py:272-329 | the units loop writes the edit into every unit with the id |
| Server.Hub.CleanTramline | Even-Crop-Pi/brain/server.py:356-359 | the pop loop leaves only the true tramline entries |
| Server.Hub.HandleSetMsg | Even-Crop-Pi/brain/server.py:262-350 | the `set` branch on the hub equals `HandleSet` |
| Server.Hub.CalMsg | Even-Crop-Pi/brain/server.py:378-391 | the `cal` branch on the hub equals `Cal` |
| Server.Hub.HandleMsg | Even-Crop-Pi/brain/server.py:259-391 | `handle_msg` on the hub equals `Handle` |
| Server.Hub.CycleTick | Even-Crop-Pi/brain/server.py:181-206 | one cycle pass equals `CycleStep`: press history trimmed to 20, target max(5, targetMl), eligible units cycled |
| Server.CycleUnits | Even-Crop-Pi/brain/server.py:188-206 | the per-unit loop updates exactly the enabled units outside the tramline, each as `Cycled`, and leaves the others as they were |
| Server.Hub.AutoDelayTick | Even-Crop-Pi/brain/server.py:213-240 | one tick equals `AutoDelayStep`, and the delay is non-negative |
| Server.UnitSetterTouchesOnlyTarget | Even-Crop-Pi/brain/server.py:272-329 | a per-unit setter changes only units whose id matches, only the field it names, and keeps ids and list length |
| Server.HandleUnitSetter | Even-Crop-Pi/brain/server.py:272-329 | a per-unit setter whose id and value convert writes the edit into the unit list and reports no error |
| Server.EditedUnitsOnlyMatching | Even-Crop-Pi/brain/server.py:274-276 | the setter loop applies the edit to exactly the units whose id matches and keeps every id |
| Server.UnitSetterRejects | Even-Crop-Pi/brain/server.py:272-329 | an id or a value that `int()`/`float()` rejects raises with nothing changed |
| Server.UnitOffsetClamped | Even-Crop-Pi/brain/server.py:290-295 | `unit-offset` stores clamp(value, 0, 100) |
| Server.UnitDelayUnclamped | Even-Crop-Pi/brain/server.py:296-301 | `unit-delay-ms` stores the value unclamped, negative included |
| Server.UnitPulsesAtLeastOne | Even-Crop-Pi/brain/server.py:311-323 | `unit-ppc` and `unit-kfactor` store exactly max(1, int(value)) (defaults 100 and 450) and fail exactly when `int()` fails |
| Server.UnitMsPerMlAtLeastOne | Even-Crop-Pi/brain/server.py:324-329 | `unit-msperml` stores exactly max(1, float(value)), 5.0 for a missing value, and fails exactly when `float()` fails |
| Server.UnitGroupNormalised | Even-Crop-Pi/brain/server.py:284-289 | `unit-group` stores A for "A" (and for a missing value) and B for anything else |
| Server.UnitModeNormalised | Even-Crop-Pi/brain/server.py:305-310 | `unit-delivery-mode` keeps inherit/flow/timed and turns anything else into inherit |
| Server.DeliveryModeNormalised | Even-Crop-Pi/brain/server.py:302-304 | `delivery-mode` stores timed exactly for "timed", flow otherwise, and changes nothing else |
| Server.TargetSetAndLogged | Even-Crop-Pi/brain/server.py:264-267 | `target` stores `int(value)`, logs it as the newest entry, and changes nothing else |
| Server.TramHasNoFalseEntries | Even-Crop-Pi/brain/server.py:352-360 | after `tram`, no false entry is left; the unit's key is present exactly when off is true; other true entries stay; nothing else changes |
| Server.TramClearOnlyTramline | Even-Crop-Pi/brain/server.py:361-363 | `tram-clear` empties the tramline and touches nothing else, tramPresets included |
| Server.SimulateFullImpliesTelemetry | Even-Crop-Pi/brain/server.py:364-377 | full simulation on also turns telemetry on; turning it off leaves telemetry alone |
| Server.SimulateTelemetryOnly | Even-Crop-Pi/brain/server.py:374-376 | any other simulate mode sets telemetry to `on` and keeps full simulation and the rest of the state |
| Server.RunningSetAndLogged | Even-Crop-Pi/brain/server.py:268-271 | `running` stores bool(value), logs RUN or STOP to match as the newest entry, and changes nothing else |
| Server.BuzzerFlagsIndependent | Even-Crop-Pi/brain/server.py:345-350 | `buzzer-muted` and `buzzer-hardmute` each set only their own flag to bool(value) |
| Server.HandleCal | Even-Crop-Pi/brain/server.py:378-391 | a `cal` message is handled by the `cal` branch |
| Server.CalOnlyLogs | Even-Crop-Pi/brain/server.py:378-391 | `cal` writes only the event log and raises, changing nothing, exactly when a timed start's `ms` or a flow start's `targetMl` is not an integer |
| Server.CalLogsOneEntry | Even-Crop-Pi/brain/server.py:383-391 | the three known commands append one entry stamped now (up to the bound of 100); any other command logs nothing |
| Server.GpioStored | Even-Crop-Pi/brain/server.py:340-344 | `gpio` stores the pin under a hashable name and raises otherwise |
| Server.AutoDelaySetter | Even-Crop-Pi/brain/server.py:330-339 | `auto-delay` writes enabled, manualMs and geomLeadMs (kept when absent), never currentMs, and fails exactly when a conversion fails |
| Server.UnknownTypeIgnored | Even-Crop-Pi/brain/server.py:259-391 | a message of an unknown type changes nothing |
| Server.HandleKeepsLogBounded | Even-Crop-Pi/brain/server.py:112-116 | every message keeps a log of at most 100 entries within 100 |
| Server.HandleSetKeepsLogBounded | Even-Crop-Pi/brain/server.py:262-350 | the same bound for the `set` branch |
| Server.CalKeepsLogBounded | Even-Crop-Pi/brain/server.py:378-391 | the same bound for the `cal` branch |
| Server.StatusMonotone | Even-Crop-Pi/brain/server.py:198-206 | each status is one of OK, WARN, INSPECT and BLOCKED, and a larger deviation never gets a milder one |
| Server.CycleUpdatesEligibleOnly | Even-Crop-Pi/brain/server.py:188-206 | disabled units and units tramlined under a str or an int id are untouched; others get a non-negative delivery, its relative deviation and that deviation's band |
| Server.CycleKeepsShape | Even-Crop-Pi/brain/server.py:184-206 | a cycle keeps ids and the rest of the state; the press history keeps the 20 most recent, this press last |
| Server.ScaledNoise | Even-Crop-Pi/brain/server.py:193-196 | noise within 5% scales the target by 0.95..1.05 |
| Server.RelativeBound | Even-Crop-Pi/brain/server.py:196 | a difference within 10% of the target gives a relative deviation within 0.1 |
| Server.RoundedNearTarget | Even-Crop-Pi/brain/server.py:193-196 | for targets ≥ 10, rounding an amount within 5% stays within 10% |
| Server.MildStatus | Even-Crop-Pi/brain/server.py:198-206 | a deviation within 0.1 is OK or WARN |
| Server.MildDeviation | Even-Crop-Pi/brain/server.py:193-206 | a delivery within 10% of a target ≥ 10 is OK or WARN |
| Server.DeliveredNear | Even-Crop-Pi/brain/server.py:193-196 | with noise within 5% and a target ≥ 10, the delivery is within 10% |
| Server.SmallTargetDeliveredExactly | Even-Crop-Pi/brain/server.py:193-194 | below 10 ml noise within 5% delivers the target exactly |
| Server.CycleNoiseStaysMild | Even-Crop-Pi/brain/server.py:187-206 | with the simulator's noise, the status is never worse than WARN for every target the cycle uses (≥ 5 ml) |
| Server.CycleStepStaysMild | Even-Crop-Pi/brain/server.py:187-206 | after a whole cycle with noise within 5%, every unit the cycle updated is OK or WARN |
| Server.CycleNoiseCanWarn | Even-Crop-Pi/brain/server.py:193-206 | but rounding can push a 5% noise to WARN: 32 ml with noise 0.046875 delivers 34 ml, deviation 0.0625 |
| Server.RecentWindow | Even-Crop-Pi/brain/server.py:228 | the recent presses are exactly the presses of the last 15 seconds |
| Server.SumIntervals | Even-Crop-Pi/brain/server.py:229-232 | the intervals add up to the time from the first press to the last |
| Server.HalfOfAverage | Even-Crop-Pi/brain/server.py:229-232 | half of (span over k) equals span over 2k |
| Server.CadenceTelescopes | Even-Crop-Pi/brain/server.py:229-232 | half the average interval is the span divided over twice the interval count |
| Server.AutoDelayIsCadence | Even-Crop-Pi/brain/server.py:228-236 | enabled with ≥ 3 recent presses, the delay is max(0, cadence + lead) |
| Server.AutoDelayFromCadence | Even-Crop-Pi/brain/server.py:228-236 | enabled with ≥ 3 recent presses, the delay is max(0, half the span per interval + lead) |
| Server.AutoDelayManual | Even-Crop-Pi/brain/server.py:218-236 | disabled or with fewer than three recent presses, the delay is max(0, manualMs + geomLeadMs) |
| Server.AutoDelayStepOnlyCurrent | Even-Crop-Pi/brain/server.py:213-240 | a tick changes only `autoDelay.currentMs` |
| Gpio.UpToColon | Even-Crop-Pi/brain/io_gpio.py:73-75 | the text before the first colon: a colon-free prefix that is followed by a colon or the end |
| Gpio.UnitField | Even-Crop-Pi/brain/io_gpio.py:73-75 | `name.split(":")[1]` is the colon-free piece after `unit:`, running up to the next colon or the end of the name |
| Gpio.UpToColonOfColonFree | Even-Crop-Pi/brain/io_gpio.py:73-75 | a colon-free string is its own first piece |
| Gpio.UnitNameRoundTrip | Even-Crop-Pi/brain/io_gpio.py:73-75 | the name `"unit:" + str(uid)` maps exactly unit `uid` |
| Gpio.IntToStringChars | Even-Crop-Pi/brain/io_gpio.py:73-75 | `str(n)` is made of a sign and digits, so it has no colon |
| Gpio.BaseGpio.constructor | Even-Crop-Pi/brain/io_gpio.py:50-60 | a fresh instance has nothing mapped, counter 0, and every switch released |
| Gpio.BaseGpio.SetMapping | Even-Crop-Pi/brain/io_gpio.py:71-77 | `unit:<id>` maps unit id and nothing else (a bad id raises with nothing changed); one of flow, buzzer, M1–M3 sets that pin; any other name changes nothing; the counter and switches are untouched |
| Gpio.BaseGpio.ReadSwitch | Even-Crop-Pi/brain/io_gpio.py:80-82 | false for an unknown name, the stored state otherwise |
| Gpio.BaseGpio.GetPulsesAndReset | Even-Crop-Pi/brain/io_gpio.py:84-88 | returns the accumulated count and leaves the counter at 0, with nothing else changed |
| Gpio.BaseGpio.SimulateFlowPulse | Even-Crop-Pi/brain/io_gpio.py:118-119 | increases the counter by exactly n, with nothing else changed |

## Left out

- The aiohttp application, routes, static files and WebSocket registration (`register`, `unregister`, `send`, `ws_handler`, `make_app`, `main`) are I/O. The broadcasts at the end of each `handle_msg` branch are also left out. The cycle and auto-delay loops are modelled as single passes, without their `while` conditions, sleeps, cancellation or task restarts (`_restart_tel_task`, `_restart_cyc_task`).
- `telemetry_loop` and its random telemetry are left out. Only its start/stop flag in the `simulate` branch is modelled.
- `random.uniform` is a parameter: `noise` gives the deviation for each unit position.
- `time.time()` is the parameter `nowMs`. Press times are integers in milliseconds, not float seconds.
- `save_state` and `save_state_atomic` (temp file, backup, replace) are file I/O. So are the file reads behind `load_state` and `load_profile`, which are modelled by what they gave (`FileRead`). `save_profile`'s write, `list_profiles`, `delete_profile` and the command-line entry points are left out too.
- `state_store.get_state`, `set_value` and `update_state` are thin wrappers around the file calls, so they are left out.
- `RPiGPIO`, `MockGPIO.start`/`stop`, `open_unit_for`, `buzzer`, `_simulate_switch_pulse` with its `call_later` auto-release, the edge callbacks and `make_gpio`'s environment-variable choice of backend all drive hardware or timers. In real use the pulse counter is incremented from interrupt callbacks; the model treats it as sequential only.
- Floats are exact reals. Float rounding, `repr` and float parsing are not modelled: `float()` of a string accepts integer text only, and `str()` of a non-integral float renders as a placeholder.
- Json.PyStr: `str()` of a list renders as "<list>" and of a dict as "<dict>", not as Python's text. For such ids the model therefore merges tramline keys that Python keeps apart: `"tram"` messages with ids `[1]` and `[2]` write one key in `Server.TramKey` and two in Python. The `cal` log lines of `Server.Cal` show the same placeholders in place of the id.
- KeepAllowed: its own contract does not say that every allowed character is kept. The separate lemma `Profiles.KeepAllowedCounts` states that, counting each character with its multiplicity, but not the order of the kept characters.
- `str.isalnum`, `str.strip` and `int()` use ASCII letters, digits and whitespace (space, \t, \n, \v, \f, \r and \x1c..\x1f), not the full Unicode classes.
- Python treats `1`, `1.0` and `True` as equal dict keys. The model keeps them distinct (tramline keys are `Value`s).
- `Server.Hub`: the hub's state is a typed record (`HubState`). Decoding a loaded JSON document into it is not modelled, and neither are messages that would make Python raise on a missing or ill-typed state field. One such case follows from the finding below: a state file with no units loads without a `simulation` key, so Python's `simulate` branch (server.py:364-377) raises `KeyError`, while `HubState` always has the flags.
- `Server.ParseUnitEdit`: a `unit-msperml` value is stored as a real, so the integer `1` and the float `1.0` are not distinguished.
- `StateStore.LoadState`: failures to save the migrated file are left out. The choice between primary, backup and defaults is modelled as a pure decision.
- The `elif key == "unit-msperml":` at server.py:324 starts at column 0, so the file does not parse as written. It is modelled as the next branch of the `set` chain, which is evidently what was meant.
- The `pressed_m` filter in `plan_cycle` (scheduler.py:166-170) has only `pass` in its body. It is modelled as having no effect, which `Scheduler.Scheduler.PlanCycle` states.

## Findings

| source | as written | input that shows it | evidently intended | confidence | as-written member | corrected member |
|---|---|---|---|---|---|---|
| Even-Crop-Pi/brain/server.py:90-94 | `st["simulation"] = {...}` is inside the `pulsesPerLiter` loop, so any saved simulation flags are reset whenever there is at least one unit, and a file with no units keeps no `simulation` key at all | a state file with `units: [{}]` and `simulation: {"telemetry": true, "full": true}` loads with both flags false | a reset that does not depend on the unit count: most likely `simulation` added only when missing, which the empty `if "simulation" not in st: pass` at lines 87-88 points to; resetting it once after the loop is the other reading (`ServerState.MigratedAlwaysResetClearsSimulation`), since no simulation task runs after a load | not executed; which of the two fixes was meant is a judgement | ServerState.SimulationFlagsLost | ServerState.MigratedIntendedKeepsSimulation |
