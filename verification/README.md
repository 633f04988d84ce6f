# sc2-kill-calculator: the kill-calculation engine in Dafny

This project models the engine of the StarCraft II kill calculator. Given an attacking unit's weapon and a defending unit, the engine:

- expands the weapon's recursive effect tree into the timestamped damage instances of one firing cycle;
- replays those instances cycle after cycle against the defender's life and shields, with life regeneration, shield-then-armor mitigation and a 0.5 minimum-damage floor, until life drops below 1 or 999 attacks have been made;
- reports whether the weapon can hit, in how many firings, and after how long.

A matchup applies this to every eligible attacker of one race against every eligible defender of another.

Modules:

- `Wrappers`: `Option` and `Result`.
- `GameData`: units, weapons and the weapon-effect tree, with the fields the engine reads. f32 quantities are `real`.
- `Instances`: damage instances and the stable sort by time. The sort is given by its specification: a stable insertion sort, proved sorted, a permutation, order-preserving within equal times, and the only sequence with those three properties.
- `Effects`: the tree expansion.
  - `Expand`, `Repeats`, `Fire` and `Children` are its specification.
  - `Go` is the recursive traversal with its accumulator and its loop over repeats, proved equal to `Expand`. Its inner loop over sub-effects is the method `GoSubEffects`.
  - `GetDamageInstances` is the expansion followed by the sort.
- `Timing`: when instances happen.
  - Prefix sums of cycled periods, and the leaf emission times.
  - A tree fired later is the same tree shifted in time.
  - Sub-effects start at their parent's repeat time.
  - No instance happens before its tree is fired.
- `Kill`: the simulation.
  - `Step` and `Simulate` are its specification.
  - `Fight` is the engine's attack loop, proved to end where `Simulate` ends. The loop body is the method `Attack`, and its mitigation statements are the method `Mitigate`.
  - `CalculateKill` is the whole calculation, proved equal to `KillOf`.
- `KillProperties`: whole-simulation properties. These are shields staying down, the regeneration-outpaces-damage cap, and the flat-10-damage scenario (10 hits, 9 seconds).
- `Matchup`: unit eligibility, the "No such race" error and the attackers × defenders grid. It also shows that only a unit's combat profile affects its cells.

The engine's `% persistent_periods.len()` panics on an explicitly empty period list. The expansion therefore requires `WellFormed`: every node that repeats at least once has a period to index. A node with a count of 0 is never looked into, so neither its periods nor its sub-effects are constrained. `DefaultPeriodsKeepIndexInRange` shows that any tree without an explicitly empty list meets it. The kill calculation asks this only of the weapon the attacker actually uses (`WeaponExpandable`), and the matchup asks it only of the eligible attackers, and only when there is a defender to expand against. Other entries of the weapon table are unconstrained (`UnusedWeaponDoesNotMatter`).

Two behaviours of the code worth stating directly:

- A `persistent_count` of 0 is accepted (src/lib.rs:110) and yields no repeats, so such a node emits nothing, not even its own damage.
- When the 999th attack also brings life below 1, the code takes the cap branch first (src/lib.rs:174-180) and logs the diagnostic. `capped` is therefore true in that case.

## Model

| member | source | states |
|---|---|---|
| Effects.GetOr0 | src/lib.rs:80-85 | an absent value reads as 0, a present one as itself |
| Effects.BonusDamage | src/lib.rs:87-97 | no bonus map gives 0; otherwise the sum, over the attributes the defender has, of the bonus for that attribute (absent bonus = 0) |
| Effects.SumOfSetBonusesOfAll | src/lib.rs:88-94 | the engine's five-term sum equals the reference sum over the five attributes, counting only those the defender has |
| Effects.BonusDamageIgnoresUnsetAttributes | src/lib.rs:90-94 | bonuses for attributes the defender lacks do not change the bonus damage |
| Effects.Own | src/lib.rs:111-114 | one repeat emits at most one instance: at its start time, carrying the node's flat plus bonus damage, and present exactly when that damage exceeds 0.01 |
| Effects.Expand | src/lib.rs:100-122 | every instance of an expanded tree has damage above 0.01; a tree whose every node is negligible yields nothing |
| Effects.Repeats | src/lib.rs:110-121 | the same two facts for the remaining repeats of a node |
| Effects.Fire | src/lib.rs:111-119 | the same two facts for one repeat: the node's own instance, then its sub-effects |
| Effects.Children | src/lib.rs:115-119 | the same two facts for the remaining sub-effects of one repeat |
| Effects.Go | src/lib.rs:100-122 | the traversal appends exactly the tree's expansion (in traversal order) to the vector it is given |
| Effects.GoSubEffects | src/lib.rs:115-119 | the inner loop appends the expansions of all sub-effects, in order, each started at the current repeat time |
| Effects.DamageInstances | src/lib.rs:99-127 | the instance list is sorted by time, is a permutation of the traversal's output, has only non-negligible damage, and is empty for an all-negligible tree |
| Effects.GetDamageInstances | src/lib.rs:99-127 | the expansion followed by the sort returns exactly `DamageInstances` |
| Instances.Insert | src/lib.rs:125 | insertion adds exactly one element (the multiset grows by it) and the result starts with either it or the old first element |
| Instances.InsertionPoint | src/lib.rs:125 | the insertion index: every element before it is strictly earlier than the new one, and the element at it (if any) is not earlier |
| Instances.InsertAtInsertionPoint | src/lib.rs:125 | insertion places the new element at the insertion index, with the earlier elements before it and the rest after it, each side in its original order |
| Instances.InsertSorted | src/lib.rs:125 | inserting into a time-sorted list keeps it sorted |
| Instances.SortByTime | src/lib.rs:125 | the sorted list is non-decreasing in time and a permutation of its input |
| Instances.InsertStable | src/lib.rs:125 | inserting keeps each equal-time group in order, the inserted element first |
| Instances.SortStable | src/lib.rs:125 | sorting keeps the instances of every time in their original order (stability) |
| Instances.StableSortUnique | src/lib.rs:125 | two sorted lists with the same equal-time groups in the same order are identical |
| Instances.SortByTimeIsTheStableSort | src/lib.rs:125 | any sorted, stable permutation of the input equals `SortByTime` of it, so the model's sort is the stable sort |
| Timing.RepeatStartIsPrefixSum | src/lib.rs:110-120 | within the first pass over the periods, repeat `i` starts at the node's start time plus the sum of the first `i` periods |
| Timing.RepeatStartCycles | src/lib.rs:120 | periods are reused cyclically: one full pass advances the clock by their total |
| Timing.LeafRepeats | src/lib.rs:110-121 | a leaf with non-negligible damage emits one instance per remaining repeat, each at its repeat's start time |
| Timing.LeafTimes | src/lib.rs:110-121 | a leaf with non-negligible damage emits `persistent_count` instances, the k-th at the prefix-sum time of repeat k |
| Timing.FirstInstanceAtStart | src/lib.rs:111-114 | a node that fires with real damage emits its first instance at its start time |
| Timing.RepeatStartShift | src/lib.rs:100-120 | a node started later has every repeat start that much later |
| Timing.ExpandShift | src/lib.rs:100-122 | expanding a tree `delta` later moves every instance `delta` later |
| Timing.RepeatsShift | src/lib.rs:110-121 | the same for the remaining repeats of a node |
| Timing.FireShift | src/lib.rs:111-119 | the same for one repeat |
| Timing.ChildrenShift | src/lib.rs:115-119 | the same for the remaining sub-effects |
| Timing.SubEffectsStartAtRepeat | src/lib.rs:115-120 | each sub-effect is its own expansion moved to the parent's current repeat time, and the parent's next repeat is one period later regardless of its sub-effects |
| Timing.RepeatStartNotBefore | src/lib.rs:120 | with non-negative periods no repeat starts before the node does |
| Timing.ExpandNotBefore | src/lib.rs:100-122 | with non-negative periods no instance of a tree is earlier than the time it is fired |
| Timing.RepeatsNotBefore | src/lib.rs:110-121 | the same for the remaining repeats |
| Timing.ChildrenNotBefore | src/lib.rs:115-119 | the same for sub-effects fired at the parent's repeat time |
| Timing.DamageInstancesStable | src/lib.rs:125 | instances with equal time offsets keep traversal order in the final list |
| Timing.DefaultPeriodsKeepIndexInRange | src/lib.rs:105-110 | with the default `[0.]` and no explicitly empty period list, every periods index is taken modulo a non-zero length |
| Kill.GetWeapon | src/lib.rs:68-73 | a weapon is found exactly when the attacker lists a first weapon id that the table holds, and it is that entry |
| Kill.Regenerate | src/lib.rs:155 | regenerated life never exceeds `life_max` and is either `life_max` or life plus elapsed time × regen rate |
| Kill.Hit | src/lib.rs:157-170 | shields never go negative and life never rises; with no shields, life drops by at least 0.5 and shields stay 0; shields that survive a hit drop by at least 0.5 and spare life |
| Kill.Step | src/lib.rs:150-173 | one attack advances `i` by one, keeps life ≤ `life_max` and shields ≥ 0, keeps zero shields at zero, and without shields takes at least 0.5 from regenerated life |
| Kill.Simulate | src/lib.rs:144-181 | the attack loop ends with 1 ≤ `i` ≤ 999, and either life < 1 or `i` = 999 |
| Kill.Mitigate | src/lib.rs:157-170 | the engine's mitigation statements, with the upgrade-free shield defense of 0, compute exactly `Hit` |
| Kill.Attack | src/lib.rs:150-170 | one pass of the loop body (instance choice, attack time, regeneration, mitigation) computes exactly `Step` |
| Kill.Fight | src/lib.rs:144-181 | the engine's loop ends in exactly the state `Simulate` describes; `capped` is true exactly when it stopped at the cap |
| Kill.Round | src/lib.rs:185 | rounding to the nearest integer with halves away from zero: for x ≥ 0 the result lies in (x − ½, x + ½], for x < 0 in [x − ½, x + ½), which determines it |
| Kill.RoundToCentis | src/lib.rs:185 | the reported time is a whole number of hundredths of a second, within 0.005 of the last attack time |
| Kill.CyclesFor | src/lib.rs:184 | `hits` is the ceiling of `i / N`, so 1 ≤ `i` ≤ 999 gives 1 ≤ `hits` ≤ 999 |
| Kill.KillOf | src/lib.rs:131-195 | `can_hit` holds exactly when a weapon is found and its instance list is non-empty; otherwise the result is (false, 0, 0); when it can hit, 1 ≤ `hits` ≤ 999; only the attacker's own weapon must be expandable |
| Kill.CalculateKill | src/lib.rs:131-195 | the engine's calculation returns `KillOf`, and reports the cap diagnostic exactly when the simulation reached 999 attacks; only the attacker's own weapon must be expandable |
| KillProperties.ShieldsStayDown | src/lib.rs:158-159 | a simulation entered with no shields ends with no shields |
| KillProperties.NegligibleWeaponCannotHit | src/lib.rs:135-140 | a weapon whose every node is negligible gives (false, 0, 0) and no cap diagnostic |
| KillProperties.RegenOutpacingDamageReachesCap | src/lib.rs:149-181 | if regeneration over one period restores at least one hit's damage and one hit cannot kill, the loop runs to the 999 cap |
| KillProperties.RegenOutpacingDamageIsCapped | src/lib.rs:144-181 | the same from full life, without shields |
| KillProperties.FlatTenKillsDummyInTenHits | src/lib.rs:99-181 | 10 flat damage once per second kills a 100-life, 0-armor defender on attack 10, at 9 seconds |
| KillProperties.FlatTenKillCalculation | src/lib.rs:131-195 | that scenario reports can hit, 10 hits, time 9.0 |
| KillProperties.UnusedWeaponDoesNotMatter | src/lib.rs:68-73 | adding or replacing any weapon-table entry other than the attacker's first weapon keeps its calculation defined and unchanged |
| KillProperties.BrokenSpareWeaponIsHarmless | src/lib.rs:68-73 | an instance: a spare weapon with an explicitly empty period list leaves the flat-10 scenario at can hit, 10 hits, 9.0 |
| Matchup.FilterEligible | src/lib.rs:52-54 | the filtered units are exactly the catalog's eligible units (not invulnerable, with ability commands, of the race), each as many times as in the catalog |
| Matchup.GetUnits | src/lib.rs:51-60 | "No such race" exactly when no unit qualifies; otherwise a non-empty list of all and only the qualifying catalog units |
| Matchup.KillGrid | src/lib.rs:207-211 | one row per attacker, one column per defender, each cell the kill calculation of that pair; only the attackers' own weapons must be expandable, and only when there are defenders |
| Matchup.Names | src/lib.rs:62-66 | the unit names, in unit order |
| Matchup.Evaluate | src/lib.rs:200-211 | succeeds exactly when both races have eligible units, failing with "No such race" otherwise; the grid is non-empty with one row per attacker name and one column per defender name; on success the names are exactly those of the eligible attackers and defenders, in catalog order, and each cell is the kill calculation of that attacker against that defender; only the eligible attackers' own weapons must be expandable, and only when the defending race has eligible units |
| Matchup.SameProfileSameExpand | src/lib.rs:87-122 | the expansion depends on the defender only through its five attribute flags: defenders that agree on them get the same instances |
| Matchup.SameVitalsSameStep | src/lib.rs:150-170 | one attack depends on the defender only through its life maximum, armor and regeneration rate |
| Matchup.SameProfileSameSimulation | src/lib.rs:149-181 | from a given state, the attack loop depends on the defender only through its life maximum, armor and regeneration rate |
| Matchup.SameProfileSameKill | src/lib.rs:131-195 | units with the same combat profile get the same kill calculation, as attacker or as defender |
| Matchup.MirrorCellsAgree | src/lib.rs:207-211 | in a mirror matchup, two units with the same combat profile have equal cells on both sides of the diagonal |

## Left out

- f32 arithmetic: all quantities are exact reals. Rounding error is not modelled. Neither are NaN and the panic in `partial_cmp(...).unwrap()` at src/lib.rs:125.
- The sort algorithm of the Rust standard library: `sort_by` is modelled by what it guarantees (a stable sort by time), and `SortByTimeIsTheStableSort` shows that the guarantee determines the result.
- In-place update of the instance vector: `Go` returns the extended sequence instead of pushing into a shared `&mut Vec`, and the sort returns a new sequence.
- Code layout: the inner loop of `go` (`GoSubEffects`), the body of the attack loop (`Attack`, `Mitigate`) and the loop itself (`Fight`) are separate methods rather than inlined in one function. They run the same statements in the same order.
- HashMap iteration order of `unit_data` (src/lib.rs:52): the catalog is a sequence in some fixed order, so the grid's row and column order is that order.
- A negative `persistent_count` cast to `usize` (src/lib.rs:110): the count is a natural number.
- An explicitly empty `persistent_periods` on a node with a count of at least 1, in the weapon an attacker actually uses: the engine panics on `%` by zero, and the model excludes that weapon by the `WeaponExpandable` precondition rather than modelling the panic.
- The `Option` around `set_effects`: an absent list is iterated exactly like an empty one, so the model keeps only the list.
- The `warn!` diagnostic at src/lib.rs:175: modelled as the `capped` result of `Fight` and `CalculateKill`, not as logging.
- The unused `defender` argument of `get_weapon` (src/lib.rs:68): dropped.
- Upgrades: shield defense is the constant 0, armor is the unit's own, and the upgrade lists of the matchup response are not modelled.
- `get_game`, the `versions`, `version` and `matchup` HTTP routes and `rocket()` (src/lib.rs:25-49, 197-199, 215-220): request handling and start-up, not the engine. `Matchup.Evaluate` covers the body of `matchup` after the version lookup.
- Game data loading in src/game_data.rs, the serialization shapes in src/rest.rs, the error conversions in src/error.rs, src/main.rs and tests/main.rs: file and JSON I/O, web plumbing and an HTTP fixture.
- Fields the engine does not read: the effect's `impact`, and the weapon's `disabled` flag and `filter_requires` list (src/game_data.rs:30-33). A disabled weapon, or one whose filter the defender fails, is still used if it is the attacker's first weapon, as in the code.
