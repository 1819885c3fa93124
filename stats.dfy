/**
 * The seven-field stat record shared by characters and items, and the
 * clamped combination `add_stat_changes` that every change of stats goes
 * through (item contributions, combat damage).
 */
module Stats {

  datatype Stats = Stats(
    currentHp: real,
    totalHp: real,
    armor: real,
    magicResistance: real,
    physicalPower: real,
    magicPower: real,
    specialTriggerChance: real)

  /** `Stats()`: every field defaults to zero. */
  const Zero: Stats := Stats(0.0, 0.0, 0.0, 0.0, 0.0, 0.0, 0.0)

  function Max(x: real, y: real): real { if x >= y then x else y }

  function Min(x: real, y: real): real { if x <= y then x else y }

  /** `min(hi, max(lo, x))`, the normalisation applied to each field. */
  function Clamp(lo: real, hi: real, x: real): real { Min(hi, Max(lo, x)) }

  /**
   * The bounds `add_stat_changes` enforces: current HP within [0, total HP],
   * special trigger chance within [0, 100], every other field at least 0.
   */
  predicate Bounded(s: Stats) {
    && 0.0 <= s.totalHp
    && 0.0 <= s.currentHp <= s.totalHp
    && 0.0 <= s.armor
    && 0.0 <= s.magicResistance
    && 0.0 <= s.physicalPower
    && 0.0 <= s.magicPower
    && 0.0 <= s.specialTriggerChance <= 100.0
  }

  /**
   * `s.add_stat_changes(changes)`: fields are added pairwise and then
   * clamped, total HP first so that current HP is capped by the NEW total.
   * Fields whose upper limit is infinite are only floored at 0.
   */
  function Add(s: Stats, changes: Stats): (r: Stats)
    ensures Bounded(r)
  {
    var total := Max(0.0, s.totalHp + changes.totalHp);
    Stats(
      currentHp := Clamp(0.0, total, s.currentHp + changes.currentHp),
      totalHp := total,
      armor := Max(0.0, s.armor + changes.armor),
      magicResistance := Max(0.0, s.magicResistance + changes.magicResistance),
      physicalPower := Max(0.0, s.physicalPower + changes.physicalPower),
      magicPower := Max(0.0, s.magicPower + changes.magicPower),
      specialTriggerChance := Clamp(0.0, 100.0, s.specialTriggerChance + changes.specialTriggerChance))
  }

  /** The combination is symmetric: the HP cap is the symmetric new total. */
  lemma AddCommutes(a: Stats, b: Stats)
    ensures Add(a, b) == Add(b, a)
  {
  }

  /** Adding `Stats()` returns exactly the records already within bounds. */
  lemma AddZeroFixesBounded(s: Stats)
    ensures Add(s, Zero) == s <==> Bounded(s)
  {
  }

  /** Normalisation is idempotent: a second `Add(_, Zero)` changes nothing. */
  lemma AddZeroIdempotent(a: Stats, b: Stats)
    ensures Add(Add(a, b), Zero) == Add(a, b)
  {
    AddZeroFixesBounded(Add(a, b));
  }

  /**
   * A change of current HP alone, applied to a bounded record, moves only
   * current HP: it is lowered by `d` and floored at 0, or raised by `-d` and
   * capped at the total.
   */
  lemma AddHpChange(s: Stats, d: real)
    requires Bounded(s)
    ensures Add(s, Zero.(currentHp := d)) == s.(currentHp := Clamp(0.0, s.totalHp, s.currentHp + d))
  {
  }

}
