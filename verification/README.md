# Character stats with additive buffs and debuffs

This project models `src/stats.rs` of the Thorns game in Dafny: a table of
character stats (strength `Str`, intelligence `Int`, swiftness `Swi`) with
percentage buffs and debuffs that add up.

- `CharacterStats` keeps two maps keyed by `Stat`. `base` holds the base
  value of each stat. `multipliers` holds the running sum of the percentage
  adjustments of each stat.
- `add_multiplier` and `sub_multiplier` add or subtract a `Multiplier`'s
  value to or from its stat's running sum. A missing entry is created at 0
  first.
- `get_stat` returns `round(base[stat] * (1 + sum))`. A missing sum counts
  as 0. A missing base value makes it panic.

`stats.dfy` (module `Stats`) holds the model.

- `Stat` and `Multiplier` are datatypes.
- `CharacterStats` is a class with the two maps as `map<Stat, real>` fields.
  Its two update methods reassign `multipliers`. `GetStat` is a function that
  reads the object.
- The running-sum updates are also given as functions on maps (`Added`,
  `Subtracted`, and their n-fold versions `AddedTimes`, `SubtractedTimes`).
  The methods are proved to produce exactly these maps. The lemmas about
  stacking and cancelling are stated over these functions.
- `Round` is rounding half away from zero over `real`, which is what Rust's
  `f32::round` does. `RoundsTo` specifies it: the result is the nearest
  integer, and ties go away from zero.

`stats_tests.dfy` (module `StatsTests`) replays the unit tests of
`src/stats.rs` as client methods. Every stat starts at 10. The add and sub
loops of the tests are `while` loops. Each test method's postcondition states
the value that the test asserts.

Values are `real`, not 32-bit floats. Every property below holds exactly over
the reals. This keeps the additive buff arithmetic and drops float rounding error. It is not a model
of IEEE rounding.

## Model

| member | source | states |
|---|---|---|
| `Stats.NewMultiplier` | src/stats.rs:59-64 | the multiplier carries exactly the given stat and percentage; any value is accepted, negative ones being debuffs |
| `Stats.Round` | src/stats.rs:42 | the result is the integer nearest to the input, ties going away from zero (`f32::round`) |
| `Stats.RoundsToUnique` | src/stats.rs:42 | that rounding rule picks at most one integer, so it determines the result |
| `Stats.RoundWhole` | src/stats.rs:42 | a whole number rounds to itself |
| `Stats.RoundNegate` | src/stats.rs:42 | rounding is symmetric about zero: round(-x) = -round(x) |
| `Stats.RoundMonotonic` | src/stats.rs:42 | rounding preserves order |
| `Stats.Effective` | src/stats.rs:38-42 | the effective value for base b and running sum a is the integer nearest to b * (1 + a), ties away from zero |
| `Stats.Accumulated` | src/stats.rs:38-41 | the running sum of a stat is its entry when there is one and 0 otherwise, as the `None` arm of `get_stat` and the `or_insert(0f32)` of the updates treat a missing entry |
| `Stats.Added` | src/stats.rs:46 | one `add_multiplier` adds the key of the multiplier's stat if missing and raises that stat's running sum by the value, leaving every other sum unchanged |
| `Stats.Subtracted` | src/stats.rs:50 | one `sub_multiplier` adds the key of the multiplier's stat if missing and lowers that stat's running sum by the value, leaving every other sum unchanged |
| `Stats.AddedTimes` | src/stats.rs:94-96 | the map after n `add_multiplier` calls in a row; every sum other than the multiplier's stat is unchanged |
| `Stats.SubtractedTimes` | src/stats.rs:130-132 | the map after n `sub_multiplier` calls in a row; every sum other than the multiplier's stat is unchanged |
| `Stats.Adjusted` | src/stats.rs:46 | an update creates the entry at 0 if missing and adds the delta to it; the keys become the old keys plus that stat, and every other entry is unchanged |
| `Stats.AddThenSubCancels` | src/stats.rs:45-51 | an add followed by a sub of the same multiplier leaves every running sum as it was; the stat keeps an entry |
| `Stats.AddedTimesStacks` | src/stats.rs:45-47 | n adds of a multiplier raise its stat's sum by n copies of its value and leave every other sum unchanged |
| `Stats.SubtractedTimesStacks` | src/stats.rs:49-51 | n subs of a multiplier lower its stat's sum by n copies of its value and leave every other sum unchanged |
| `Stats.RepeatedKeys` | src/stats.rs:45-51 | after one or more adds (or subs), the multiplier's stat has an entry and no other key appears |
| `Stats.BalancedRestores` | src/stats.rs:116-154 | n adds and then n subs of the same multiplier restore every running sum; a stat that had no entry ends with an explicit 0 entry |
| `Stats.CharacterStats.constructor` | src/stats.rs:29-34 | the base map is stored unchanged and the multiplier map starts empty |
| `Stats.CharacterStats.GetStat` | src/stats.rs:37-43 | requires a base value for the stat (the source panics otherwise); the result is the effective value of the base and the running sum, a missing sum counting as 0, so with no entry it is the base rounded; reads the object and changes nothing |
| `Stats.CharacterStats.AddMultiplier` | src/stats.rs:45-47 | the stat's sum becomes its old value (0 if absent) plus the multiplier's value; every other sum and the whole base map are unchanged |
| `Stats.CharacterStats.SubMultiplier` | src/stats.rs:49-51 | the stat's sum becomes its old value (0 if absent) minus the multiplier's value; every other sum and the whole base map are unchanged |
| `Stats.UnadjustedStat` | src/stats.rs:38-42 | a table with no adjustments reads each stat as its base value rounded |
| `Stats.StackedStat` | src/stats.rs:84-114 | after n adds of a multiplier with percentage p on a fresh table, its stat reads round(B * (1 + n * p)) |
| `Stats.BalancedStat` | src/stats.rs:116-154 | after n adds and then n subs of the same multiplier, every stat reads what it read before the adds |
| `Stats.BuffDirection` | src/stats.rs:37-47 | for a non-negative base, a buff never lowers the effective value and a debuff never raises it |
| `StatsTests.MockBase` | src/stats.rs:77-81 | every stat has an entry, and every base value is 10 |
| `StatsTests.MockBaseStats` | src/stats.rs:69-82 | a fresh table whose three stats have base 10 and no adjustments |
| `StatsTests.AddRepeatedly` | src/stats.rs:94-96 | the add loop leaves the n-fold added sums and the base map unchanged |
| `StatsTests.SubRepeatedly` | src/stats.rs:130-132 | the sub loop leaves the n-fold subtracted sums and the base map unchanged |
| `StatsTests.StackedStrength` | src/stats.rs:91-97 | n adds of a strength multiplier on the mock table give the effective value of 10 and n times its percentage |
| `StatsTests.BalancedStrength` | src/stats.rs:124-134 | n adds then n subs of a strength multiplier on the mock table read 10 |
| `StatsTests.GetWithoutMultipliers` | src/stats.rs:155-159 | with no multipliers, strength reads 10 |
| `StatsTests.AddMultiplier` | src/stats.rs:83-89 | one +10% buff: strength reads 11 |
| `StatsTests.AddMultipliers` | src/stats.rs:90-98 | seven +10% buffs: strength reads 17 |
| `StatsTests.AddNegativeMultiplier` | src/stats.rs:99-105 | one -10% debuff: strength reads 9 |
| `StatsTests.AddNegativeMultipliers` | src/stats.rs:106-114 | seven -10% debuffs: strength reads 3 |
| `StatsTests.AddRemoveMultiplier` | src/stats.rs:115-122 | a +10% buff added and removed: strength reads 10 |
| `StatsTests.AddRemoveMultipliers` | src/stats.rs:123-134 | seven +10% buffs added and removed: strength reads 10 |
| `StatsTests.AddRemoveNegativeMultiplier` | src/stats.rs:135-142 | a -10% debuff added and removed: strength reads 10 |
| `StatsTests.AddRemoveNegativeMultipliers` | src/stats.rs:143-154 | seven -10% debuffs added and removed: strength reads 10 |

## Left out

- `f32` arithmetic: values are `real`, and add and sub cancel exactly. With 32-bit floats a single add and sub of ±0.1 cancels exactly. The seven-fold tests (src/stats.rs:124-134, 144-154) leave a residue of about 1.5e-8 in the running sum instead of the exact 0 that `Stats.BalancedRestores` proves over the reals. The seven adds also give 0.70000005 rather than 0.7. Only the rounded reads 17, 3 and 10 match the source's float results.
- Stats.CharacterStats.GetStat: returns an unbounded `int`. The source's `as i32` cast saturates at the `i32` bounds and maps NaN to 0. Over the reals there is no NaN, and saturation needs an effective value outside the `i32` range, so the cast is not modelled.
- Stats.CharacterStats.GetStat: a missing base value is a precondition. The source panics through `unwrap` instead of returning an error.
- `HashMap` hashing and the `Hash`/`Clone`/`PartialEq` derives: `Stat` is a datatype key of a Dafny `map`, and equality is structural.
- The `hashmap!` macro and `#![allow(dead_code)]`: test and compiler scaffolding. `StatsTests.MockBase` gives the same base map.
