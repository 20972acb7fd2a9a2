/**
 * The unit scenarios of the stat table, as client code: every stat starts at
 * a base value of 10, and the stat read back is stated in each postcondition.
 */
module StatsTests {
  import opened Stats

  /** The base values the scenarios share: every stat at 10. */
  function MockBase(): (b: map<Stat, real>)
    ensures forall s :: s in b && b[s] == 10.0
  {
    var b := map[Str := 10.0, Int := 10.0, Swi := 10.0];
    assert forall s: Stat :: s in b by {
      forall s: Stat ensures s in b {
        if s.Str? {} else if s.Int? {} else {}
      }
    }
    b
  }

  /** A fresh table over the shared base values. */
  method MockBaseStats() returns (stats: CharacterStats)
    ensures fresh(stats)
    ensures stats.base == MockBase() && stats.multipliers == map[]
  {
    stats := new CharacterStats(MockBase());
  }

  /** Applies `m` to `stats` `n` times in a row. */
  method AddRepeatedly(stats: CharacterStats, m: Multiplier, n: nat)
    modifies stats
    ensures stats.base == old(stats.base)
    ensures stats.multipliers == AddedTimes(old(stats.multipliers), m, n)
  {
    var i := 0;
    while i < n
      invariant 0 <= i <= n
      invariant stats.base == old(stats.base)
      invariant stats.multipliers == AddedTimes(old(stats.multipliers), m, i)
    {
      stats.AddMultiplier(m);
      i := i + 1;
    }
  }

  /** Removes `m` from `stats` `n` times in a row. */
  method SubRepeatedly(stats: CharacterStats, m: Multiplier, n: nat)
    modifies stats
    ensures stats.base == old(stats.base)
    ensures stats.multipliers == SubtractedTimes(old(stats.multipliers), m, n)
  {
    var i := 0;
    while i < n
      invariant 0 <= i <= n
      invariant stats.base == old(stats.base)
      invariant stats.multipliers == SubtractedTimes(old(stats.multipliers), m, i)
    {
      stats.SubMultiplier(m);
      i := i + 1;
    }
  }

  /** `n` adds of `mult` to strength, read back. */
  method StackedStrength(mult: Multiplier, n: nat) returns (got: int)
    requires mult.stat == Str
    ensures got == Effective(10.0, n as real * mult.value)
  {
    var stats := MockBaseStats();
    AddRepeatedly(stats, mult, n);
    got := stats.GetStat(Str);
    StackedStat(stats, mult, n);
  }

  /** `n` adds and then `n` subs of `mult` on strength, read back. */
  method BalancedStrength(mult: Multiplier, n: nat) returns (got: int)
    requires mult.stat == Str
    ensures got == 10
  {
    var stats := MockBaseStats();
    AddRepeatedly(stats, mult, n);
    SubRepeatedly(stats, mult, n);
    got := stats.GetStat(Str);
    BalancedStat(stats, map[], mult, n, Str);
    RoundWhole(10);
  }

  /** No adjustments: strength reads 10. */
  method GetWithoutMultipliers() returns (got: int)
    ensures got == 10
  {
    var stats := MockBaseStats();
    got := stats.GetStat(Str);
    UnadjustedStat(stats, Str);
    RoundWhole(10);
  }

  /** One +10% buff: strength reads 11. */
  method AddMultiplier() returns (got: int)
    ensures got == 11
  {
    var mult := NewMultiplier(Str, 0.1);
    got := StackedStrength(mult, 1);
    RoundWhole(11);
  }

  /** Seven +10% buffs: strength reads 17. */
  method AddMultipliers() returns (got: int)
    ensures got == 17
  {
    var mult := NewMultiplier(Str, 0.1);
    got := StackedStrength(mult, 7);
    RoundWhole(17);
  }

  /** One -10% debuff: strength reads 9. */
  method AddNegativeMultiplier() returns (got: int)
    ensures got == 9
  {
    var mult := NewMultiplier(Str, -0.1);
    got := StackedStrength(mult, 1);
    RoundWhole(9);
  }

  /** Seven -10% debuffs: strength reads 3. */
  method AddNegativeMultipliers() returns (got: int)
    ensures got == 3
  {
    var mult := NewMultiplier(Str, -0.1);
    got := StackedStrength(mult, 7);
    RoundWhole(3);
  }

  /** A +10% buff added and removed: strength reads 10 again. */
  method AddRemoveMultiplier() returns (got: int)
    ensures got == 10
  {
    got := BalancedStrength(NewMultiplier(Str, 0.1), 1);
  }

  /** Seven +10% buffs added and removed: strength reads 10 again. */
  method AddRemoveMultipliers() returns (got: int)
    ensures got == 10
  {
    got := BalancedStrength(NewMultiplier(Str, 0.1), 7);
  }

  /** A -10% debuff added and removed: strength reads 10 again. */
  method AddRemoveNegativeMultiplier() returns (got: int)
    ensures got == 10
  {
    got := BalancedStrength(NewMultiplier(Str, -0.1), 1);
  }

  /** Seven -10% debuffs added and removed: strength reads 10 again. */
  method AddRemoveNegativeMultipliers() returns (got: int)
    ensures got == 10
  {
    got := BalancedStrength(NewMultiplier(Str, -0.1), 7);
  }
}
