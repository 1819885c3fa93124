/**
 * The pure side of attack resolution: the attack a character exposes, damage
 * mitigation, the miss-chance rule, and one turn computed over values.
 */
module Combat {
  import opened Stats
  import opened Rng

  /** Incoming harm split by type. */
  datatype Damage = Damage(physical: real, magic: real)

  /** What the engine reads from an attack: its damage and its log line. */
  datatype Attack = Attack(damage: Damage, description: string)

  /** The part of one damage type that gets through a resistance given in percent. */
  function Mitigated(amount: real, resistance: real): (r: real)
    ensures 0.0 <= resistance <= 100.0 ==> 0.0 <= r
    ensures 0.0 <= resistance <= 100.0 && amount >= 0.0 ==> r <= amount
    ensures resistance == 0.0 ==> r == Max(0.0, amount)
  {
    if amount > 0.0 then amount * (1.0 - resistance / 100.0) else 0.0
  }

  /**
   * `calculate_damage_taken`: a change of current HP alone, minus the
   * mitigated physical part and the mitigated magic part.
   */
  function DamageTaken(damage: Damage, defender: Stats): (r: Stats)
    ensures r == Zero.(currentHp := r.currentHp)
    ensures 0.0 <= defender.armor <= 100.0 && 0.0 <= defender.magicResistance <= 100.0 ==> r.currentHp <= 0.0
    ensures damage.physical <= 0.0 && damage.magic <= 0.0 ==> r.currentHp == 0.0
  {
    var dealt := Mitigated(damage.physical, defender.armor) + Mitigated(damage.magic, defender.magicResistance);
    Zero.(currentHp := -dealt)
  }

  /**
   * `calculate_miss_chance`: armor/10 against any physical damage, otherwise
   * magic resistance/10 against magic damage, otherwise 0.
   */
  function MissChance(damage: Damage, defender: Stats): (r: real)
    ensures 0.0 <= defender.armor <= 100.0 && 0.0 <= defender.magicResistance <= 100.0 ==> 0.0 <= r <= 10.0
    ensures damage.physical <= 0.0 && damage.magic <= 0.0 ==> r == 0.0
  {
    if damage.physical > 0.0 then defender.armor / 10.0
    else if damage.magic > 0.0 then defender.magicResistance / 10.0
    else 0.0
  }

  /** Physical damage decides the miss chance alone, whatever magic comes with it. */
  lemma PhysicalDecidesMiss(damage: Damage, defender: Stats)
    requires damage.physical > 0.0
    ensures MissChance(damage, defender) == MissChance(Damage(damage.physical, 0.0), defender)
  {
  }

  /** The attacker as one turn sees it: its trigger chance and its two attacks. */
  datatype Striker = Striker(chance: real, basic: Attack, special: Attack)

  /** The effect of one turn: which rolls came out how, and the defender's new stats. */
  datatype Turn = Turn(special: bool, missed: bool, defender: Stats, description: string)

  /**
   * One turn of `play_turn` over values: the first draw decides the special
   * attack at the attacker's trigger chance, the second draw decides the miss
   * at the defender's miss chance, and a hit adds the damage taken.
   */
  function TurnOutcome(s: Striker, defender: Stats, draws: seq<real>): (t: Turn)
    requires |draws| >= 2
    ensures IsDraw(draws[0]) && s.chance >= 100.0 ==> t.special
    ensures IsDraw(draws[0]) && s.chance <= 0.0 ==> !t.special
    ensures IsDraw(draws[1]) && defender.armor <= 0.0 && defender.magicResistance <= 0.0 ==> !t.missed
    ensures var d := (if t.special then s.special else s.basic).damage;
      IsDraw(draws[1]) && d.physical <= 0.0 && d.magic <= 0.0 ==> !t.missed
    ensures t.missed ==> t.defender == defender
    ensures t.description == (if t.special then s.special else s.basic).description
  {
    var special := Decide(draws[0], s.chance);
    var attack := if special then s.special else s.basic;
    var missed := Decide(draws[1], MissChance(attack.damage, defender));
    var after := if missed then defender else Add(defender, DamageTaken(attack.damage, defender));
    Turn(special, missed, after, attack.description)
  }

  /**
   * On a bounded defender whose armor and magic resistance are at most 100,
   * a turn changes current HP alone and never raises it: a miss leaves the
   * defender as it was, a hit lowers current HP by the mitigated damage,
   * floored at 0.
   */
  lemma TurnOnlyLowersHp(s: Striker, defender: Stats, draws: seq<real>)
    requires |draws| >= 2
    requires Bounded(defender) && defender.armor <= 100.0 && defender.magicResistance <= 100.0
    ensures var t := TurnOutcome(s, defender, draws);
      && Bounded(t.defender)
      && t.defender == defender.(currentHp := t.defender.currentHp)
      && t.defender.currentHp <= defender.currentHp
      && (t.missed ==> t.defender == defender)
      && (!t.missed ==>
            var d := (if t.special then s.special else s.basic).damage;
            t.defender.currentHp
              == Max(0.0, defender.currentHp - Mitigated(d.physical, defender.armor) - Mitigated(d.magic, defender.magicResistance)))
  {
    var t := TurnOutcome(s, defender, draws);
    var d := (if t.special then s.special else s.basic).damage;
    AddHpChange(defender, DamageTaken(d, defender).currentHp);
  }

  /**
   * The scenario of an undefended target: a special attack of 55 physical
   * damage that triggers and is not missed lowers current HP by exactly 55.
   */
  lemma UndefendedTargetTakesFullDamage(basic: Attack, description: string, defender: Stats, draws: seq<real>)
    requires |draws| >= 2 && IsDraw(draws[0]) && IsDraw(draws[1])
    requires Bounded(defender) && defender.armor == 0.0 && defender.magicResistance == 0.0
    ensures var t := TurnOutcome(Striker(100.0, basic, Attack(Damage(55.0, 0.0), description)), defender, draws);
      t.special && !t.missed && t.defender == defender.(currentHp := Max(0.0, defender.currentHp - 55.0))
  {
  }

}
