/**
 * Character stats with additive percentage buffs and debuffs.
 *
 * A `CharacterStats` object keeps, per stat, a base value and a running sum of
 * percentage adjustments; the effective value of a stat is its base value
 * scaled by one plus that sum, rounded half away from zero.
 *
 * The source works on 32-bit floats; this model uses `real`, so every
 * statement below holds exactly and abstracts away float rounding error.
 */
module Stats {

  /** The closed set of character stats: strength, intelligence, swiftness. */
  datatype Stat = Str | Int | Swi

  /** One percentage adjustment of one stat: 0.1 is +10%, -0.1 is -10%. */
  datatype Multiplier = Multiplier(stat: Stat, value: real)

  /** Builds a multiplier; any value is accepted, negative ones are debuffs. */
  function NewMultiplier(stat: Stat, value: real): (m: Multiplier)
    ensures m.stat == stat && m.value == value
  {
    Multiplier(stat, value)
  }

  // ---------------------------------------------------------------------------
  // Rounding
  // ---------------------------------------------------------------------------

  /**
   * `r` is `x` rounded to the nearest integer, ties going away from zero:
   * a non-negative `x` lies in [r - 1/2, r + 1/2), a negative one in
   * (r - 1/2, r + 1/2].
   */
  ghost predicate RoundsTo(x: real, r: int)
  {
    if x >= 0.0 then r as real - 0.5 <= x < r as real + 0.5
    else r as real - 0.5 < x <= r as real + 0.5
  }

  /** Round half away from zero over the reals. */
  function Round(x: real): (r: int)
    ensures RoundsTo(x, r)
  {
    if x >= 0.0 then (x + 0.5).Floor else -((-x + 0.5).Floor)
  }

  /**
   * The effective value of a stat whose base value is `b` and whose
   * adjustments sum to `acc`.
   */
  function Effective(b: real, acc: real): (r: int)
    ensures RoundsTo(b * (1.0 + acc), r)
  {
    Round(b * (1.0 + acc))
  }

  /** At most one integer is the rounding of a given real. */
  lemma RoundsToUnique(x: real, a: int, b: int)
    requires RoundsTo(x, a) && RoundsTo(x, b)
    ensures a == b
  {
  }

  /** Whole numbers round to themselves. */
  lemma RoundWhole(k: int)
    ensures Round(k as real) == k
  {
    RoundsToUnique(k as real, Round(k as real), k);
  }

  /** Rounding is symmetric about zero. */
  lemma RoundNegate(x: real)
    ensures Round(-x) == -Round(x)
  {
    if x != 0.0 {
      assert RoundsTo(-x, -Round(x));
      RoundsToUnique(-x, Round(-x), -Round(x));
    }
  }

  /** Rounding never reverses the order of two reals. */
  lemma RoundMonotonic(x: real, y: real)
    requires x <= y
    ensures Round(x) <= Round(y)
  {
  }

  // ---------------------------------------------------------------------------
  // Accumulated adjustments
  // ---------------------------------------------------------------------------

  /** The running sum for `s`; a stat without an entry counts as 0. */
  function Accumulated(acc: map<Stat, real>, s: Stat): (a: real)
    ensures s in acc ==> a == acc[s]
    ensures s !in acc ==> a == 0.0
  {
    if s in acc then acc[s] else 0.0
  }

  /**
   * The accumulator after adding `delta` to the entry of `s`, the entry being
   * created at 0 first when it is missing.
   */
  function Adjusted(acc: map<Stat, real>, s: Stat, delta: real): (r: map<Stat, real>)
    ensures r.Keys == acc.Keys + {s}
    ensures Accumulated(r, s) == Accumulated(acc, s) + delta
    ensures forall t :: t != s && t in acc ==> r[t] == acc[t]
  {
    acc[s := Accumulated(acc, s) + delta]
  }

  /** The accumulator after one `add_multiplier(m)`. */
  function Added(acc: map<Stat, real>, m: Multiplier): (r: map<Stat, real>)
    ensures r.Keys == acc.Keys + {m.stat}
    ensures forall t :: Accumulated(r, t) == Accumulated(acc, t) + (if t == m.stat then m.value else 0.0)
  {
    Adjusted(acc, m.stat, m.value)
  }

  /** The accumulator after one `sub_multiplier(m)`. */
  function Subtracted(acc: map<Stat, real>, m: Multiplier): (r: map<Stat, real>)
    ensures r.Keys == acc.Keys + {m.stat}
    ensures forall t :: Accumulated(r, t) == Accumulated(acc, t) - (if t == m.stat then m.value else 0.0)
  {
    Adjusted(acc, m.stat, -m.value)
  }

  /** The accumulator after `n` consecutive `add_multiplier(m)` calls. */
  function AddedTimes(acc: map<Stat, real>, m: Multiplier, n: nat): (r: map<Stat, real>)
    ensures forall t :: t != m.stat ==> Accumulated(r, t) == Accumulated(acc, t)
  {
    if n == 0 then acc else Added(AddedTimes(acc, m, n - 1), m)
  }

  /** The accumulator after `n` consecutive `sub_multiplier(m)` calls. */
  function SubtractedTimes(acc: map<Stat, real>, m: Multiplier, n: nat): (r: map<Stat, real>)
    ensures forall t :: t != m.stat ==> Accumulated(r, t) == Accumulated(acc, t)
  {
    if n == 0 then acc else Subtracted(SubtractedTimes(acc, m, n - 1), m)
  }

  /** An add followed by a sub of the same multiplier leaves every sum as it was. */
  lemma AddThenSubCancels(acc: map<Stat, real>, m: Multiplier, s: Stat)
    ensures Accumulated(Subtracted(Added(acc, m), m), s) == Accumulated(acc, s)
    ensures Subtracted(Added(acc, m), m).Keys == acc.Keys + {m.stat}
  {
  }

  /** `v` added to itself `n` times. */
  function Times(n: nat, v: real): real
  {
    if n == 0 then 0.0 else Times(n - 1, v) + v
  }

  /** Adding `v` to itself `n` times gives `n * v`. */
  lemma {:induction false} TimesIsProduct(n: nat, v: real)
    ensures Times(n, v) == n as real * v
  {
    if n > 0 {
      TimesIsProduct(n - 1, v);
      assert (n - 1) as real * v + v == n as real * v;
    }
  }

  /** Repeated adds stack linearly: `n` adds of `m` add `n` copies of `m.value` to its stat. */
  lemma {:induction false} AddedTimesStacks(acc: map<Stat, real>, m: Multiplier, n: nat, s: Stat)
    ensures Accumulated(AddedTimes(acc, m, n), s)
         == Accumulated(acc, s) + (if s == m.stat then Times(n, m.value) else 0.0)
  {
    if n > 0 {
      AddedTimesStacks(acc, m, n - 1, s);
      assert AddedTimes(acc, m, n) == Added(AddedTimes(acc, m, n - 1), m);
    }
  }

  /** Repeated subs stack linearly: `n` subs of `m` take `n` copies of `m.value` off its stat. */
  lemma {:induction false} SubtractedTimesStacks(acc: map<Stat, real>, m: Multiplier, n: nat, s: Stat)
    ensures Accumulated(SubtractedTimes(acc, m, n), s)
         == Accumulated(acc, s) - (if s == m.stat then Times(n, m.value) else 0.0)
  {
    if n > 0 {
      SubtractedTimesStacks(acc, m, n - 1, s);
      assert SubtractedTimes(acc, m, n) == Subtracted(SubtractedTimes(acc, m, n - 1), m);
    }
  }

  /** After at least one call, the stat of `m` has an entry and no other key appears. */
  lemma {:induction false} RepeatedKeys(acc: map<Stat, real>, m: Multiplier, n: nat)
    requires n > 0
    ensures AddedTimes(acc, m, n).Keys == acc.Keys + {m.stat}
    ensures SubtractedTimes(acc, m, n).Keys == acc.Keys + {m.stat}
  {
    if n > 1 {
      RepeatedKeys(acc, m, n - 1);
    }
  }

  /**
   * `n` adds followed by `n` subs of the same multiplier restore every running
   * sum; a stat that had no entry ends with an explicit 0 entry.
   */
  lemma BalancedRestores(acc: map<Stat, real>, m: Multiplier, n: nat, s: Stat)
    ensures Accumulated(SubtractedTimes(AddedTimes(acc, m, n), m, n), s) == Accumulated(acc, s)
    ensures n > 0 && m.stat !in acc ==>
      var r := SubtractedTimes(AddedTimes(acc, m, n), m, n);
      m.stat in r && r[m.stat] == 0.0
  {
    AddedTimesStacks(acc, m, n, s);
    SubtractedTimesStacks(AddedTimes(acc, m, n), m, n, s);
    if n > 0 {
      RepeatedKeys(acc, m, n);
      RepeatedKeys(AddedTimes(acc, m, n), m, n);
      AddedTimesStacks(acc, m, n, m.stat);
      SubtractedTimesStacks(AddedTimes(acc, m, n), m, n, m.stat);
    }
  }

  // ---------------------------------------------------------------------------
  // The stat table
  // ---------------------------------------------------------------------------

  class CharacterStats {
    /** Base value of each stat; set at construction and never changed. */
    var base: map<Stat, real>
    /** Running sum of percentage adjustments of each stat. */
    var multipliers: map<Stat, real>

    /** Keeps the given base values as they are and starts with no adjustments. */
    constructor (base: map<Stat, real>)
      ensures this.base == base
      ensures multipliers == map[]
    {
      this.base := base;
      multipliers := map[];
    }

    /**
     * The effective value of `stat`: its base value times one plus its running
     * sum, rounded half away from zero. A stat without a base value is a
     * programming error in the source (it panics), hence the precondition.
     */
    function GetStat(stat: Stat): (r: int)
      reads this
      requires stat in base
      ensures r == Effective(base[stat], Accumulated(multipliers, stat))
      ensures stat !in multipliers ==> RoundsTo(base[stat], r)
    {
      var factor := if stat in multipliers then 1.0 + multipliers[stat] else 1.0;
      Round(base[stat] * factor)
    }

    /** Adds `m.value` to the running sum of `m.stat`, creating it at 0 when absent. */
    method AddMultiplier(m: Multiplier)
      modifies this
      ensures base == old(base)
      ensures multipliers == Added(old(multipliers), m)
      ensures m.stat in multipliers
      ensures multipliers[m.stat] == Accumulated(old(multipliers), m.stat) + m.value
      ensures forall t :: t != m.stat ==> Accumulated(multipliers, t) == Accumulated(old(multipliers), t)
    {
      var current := if m.stat in multipliers then multipliers[m.stat] else 0.0;
      multipliers := multipliers[m.stat := current + m.value];
    }

    /** Takes `m.value` off the running sum of `m.stat`, creating it at 0 when absent. */
    method SubMultiplier(m: Multiplier)
      modifies this
      ensures base == old(base)
      ensures multipliers == Subtracted(old(multipliers), m)
      ensures m.stat in multipliers
      ensures multipliers[m.stat] == Accumulated(old(multipliers), m.stat) - m.value
      ensures forall t :: t != m.stat ==> Accumulated(multipliers, t) == Accumulated(old(multipliers), t)
    {
      var current := if m.stat in multipliers then multipliers[m.stat] else 0.0;
      multipliers := multipliers[m.stat := current - m.value];
    }
  }

  // ---------------------------------------------------------------------------
  // Properties of the effective value
  // ---------------------------------------------------------------------------

  /** A table with no adjustments yields each base value, rounded. */
  lemma UnadjustedStat(cs: CharacterStats, s: Stat)
    requires s in cs.base && cs.multipliers == map[]
    ensures cs.GetStat(s) == Round(cs.base[s])
  {
    RoundsToUnique(cs.base[s], cs.GetStat(s), Round(cs.base[s]));
  }

  /**
   * After `n` adds of `m` on a fresh table, the stat of `m` reads
   * round(B * (1 + n * p)) for base B and percentage p.
   */
  lemma StackedStat(cs: CharacterStats, m: Multiplier, n: nat)
    requires m.stat in cs.base && cs.multipliers == AddedTimes(map[], m, n)
    ensures cs.GetStat(m.stat) == Effective(cs.base[m.stat], n as real * m.value)
  {
    var a := Accumulated(cs.multipliers, m.stat);
    assert a == n as real * m.value by {
      AddedTimesStacks(map[], m, n, m.stat);
      TimesIsProduct(n, m.value);
    }
  }

  /**
   * After `n` adds and then `n` subs of the same multiplier, every stat reads
   * what it read before the adds.
   */
  lemma BalancedStat(cs: CharacterStats, before: map<Stat, real>, m: Multiplier, n: nat, s: Stat)
    requires s in cs.base
    requires cs.multipliers == SubtractedTimes(AddedTimes(before, m, n), m, n)
    ensures cs.GetStat(s) == Effective(cs.base[s], Accumulated(before, s))
  {
    var a := Accumulated(cs.multipliers, s);
    assert a == Accumulated(before, s) by {
      BalancedRestores(before, m, n, s);
    }
  }

  /**
   * For a non-negative base value, a buff (p >= 0) never lowers the stat and a
   * debuff (p <= 0) never raises it.
   */
  lemma {:induction false} BuffDirection(b: real, acc: real, p: real)
    requires b >= 0.0
    ensures p >= 0.0 ==> Effective(b, acc) <= Effective(b, acc + p)
    ensures p <= 0.0 ==> Effective(b, acc + p) <= Effective(b, acc)
  {
    assert b * (1.0 + (acc + p)) == b * (1.0 + acc) + b * p;
    if p >= 0.0 {
      assert b * p >= 0.0;
      RoundMonotonic(b * (1.0 + acc), b * (1.0 + (acc + p)));
    } else {
      assert b * p <= 0.0;
      RoundMonotonic(b * (1.0 + (acc + p)), b * (1.0 + acc));
    }
  }
}
