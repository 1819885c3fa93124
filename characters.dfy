/**
 * The three character kinds: their names, the names of their special
 * attacks, and the special-attack formulas, all over BASE stats.
 */
module Characters {
  import opened Stats

  datatype CharacterKind = Ninja | Mage | Warrior

  function Name(k: CharacterKind): string {
    match k
    case Ninja => "Ninja"
    case Mage => "Mage"
    case Warrior => "Warrior"
  }

  function AttackTitle(k: CharacterKind): string {
    match k
    case Ninja => "A poisoned dagger shot"
    case Mage => "A lullaby to deep sleep"
    case Warrior => "A call to the shield hero"
  }

  /** `special_attack_name`: the character's name, ": ", then the attack's title. */
  function SpecialAttackName(k: CharacterKind): (r: string)
    ensures |r| > |Name(k)| + 2
    ensures r[..|Name(k)|] == Name(k) && r[|Name(k)|..|Name(k)| + 2] == ": "
    ensures r[|Name(k)| + 2..] == AttackTitle(k)
  {
    Name(k) + ": " + AttackTitle(k)
  }

  /** The least value of each special attack when the power stats are non-negative. */
  function SpecialFloor(k: CharacterKind): real {
    match k
    case Ninja => 40.0
    case Mage => 1.0
    case Warrior => 50.0
  }

  /**
   * `special_attack()`: Ninja and Mage damage, Warrior healing. Only base
   * stats are read, so items never change it.
   */
  function SpecialAttack(k: CharacterKind, base: Stats): (r: real)
    ensures base.physicalPower >= 0.0 && base.magicPower >= 0.0 ==> r >= SpecialFloor(k)
  {
    match k
    case Ninja => 40.0 + 0.5 * base.physicalPower + 0.5 * base.magicPower
    case Mage => 1.0 + 1.25 * base.magicPower
    case Warrior => 50.0 + 0.75 * base.physicalPower + 3.0 * base.magicPower
  }

  /** Each special grows with the power stats it reads. */
  lemma SpecialMonotone(k: CharacterKind, a: Stats, b: Stats)
    requires a.physicalPower <= b.physicalPower && a.magicPower <= b.magicPower
    ensures SpecialAttack(k, a) <= SpecialAttack(k, b)
  {
  }

  /** Example values: Ninja 20/10 deals 55, Warrior 10/5 heals 72.5. */
  lemma SpecialExamples()
    ensures SpecialAttack(Ninja, Zero.(physicalPower := 20.0, magicPower := 10.0)) == 55.0
    ensures SpecialAttack(Warrior, Zero.(physicalPower := 10.0, magicPower := 5.0)) == 72.5
    ensures SpecialAttack(Mage, Zero.(magicPower := 8.0)) == 11.0
  {
  }

}
