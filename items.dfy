/**
 * The five item kinds: their names, passive descriptions, and the stat
 * contribution each grants, computed against the holder's BASE stats.
 */
module Items {
  import opened Stats

  datatype ItemKind = EnchantedSword | ShinyStaff | MagicCauldron | Pole | SolidRock

  function Name(k: ItemKind): string {
    match k
    case EnchantedSword => "Enchanted Sword"
    case ShinyStaff => "Shiny Staff"
    case MagicCauldron => "A magic cauldron"
    case Pole => "A Pole"
    case SolidRock => "A solid rock"
  }

  /** `passive_name`, written as the concatenation of its phrases. */
  function PassiveName(k: ItemKind): string {
    match k
    case EnchantedSword =>
      "Unique Passive" + ": Lucky strike. " + "Adds 5%(+25% of base Special Trigger Chance) to Special Trigger chance."
    case ShinyStaff =>
      "Passive: Blessings of Echo. " + "Adds 1(+50% of base Magic Power)" + " to Magic Power."
    case MagicCauldron => "Unique Passive" + ": Potion of life. Adds 10(+30% of base HP) to HP"
    case Pole => ""
    case SolidRock => ""
  }

  /** Python's `sub in s` on strings. */
  predicate HasSubstring(s: string, sub: string) {
    exists i :: 0 <= i <= |s| - |sub| && OccursAt(s, sub, i)
  }

  predicate OccursAt(s: string, sub: string, i: int) {
    0 <= i <= |s| - |sub| && s[i..i + |sub|] == sub
  }

  const UniqueMarker: string := "Unique Passive"

  /** An item whose passive must not stack on one character. */
  predicate IsUnique(k: ItemKind) {
    HasSubstring(PassiveName(k), UniqueMarker)
  }

  predicate NoCapitalU(s: string) {
    forall i :: 0 <= i < |s| ==> s[i] != 'U'
  }

  lemma NoCapitalUConcat(a: string, b: string)
    requires NoCapitalU(a) && NoCapitalU(b)
    ensures NoCapitalU(a + b)
  {
    forall i | 0 <= i < |a + b| ensures (a + b)[i] != 'U' {
      if i < |a| {
        assert (a + b)[i] == a[i];
      } else {
        assert (a + b)[i] == b[i - |a|];
      }
    }
  }

  /** A string without the letter 'U' cannot contain the marker. */
  lemma NoMarkerWithoutU(s: string)
    requires NoCapitalU(s)
    ensures !HasSubstring(s, UniqueMarker)
  {
    assert |UniqueMarker| == 14 && UniqueMarker[0] == 'U';
    forall i | 0 <= i <= |s| - |UniqueMarker| ensures !OccursAt(s, UniqueMarker, i) {
      assert s[i..i + |UniqueMarker|][0] == s[i] != 'U';
    }
  }

  /** Only the Enchanted Sword and the Magic Cauldron have unique passives. */
  lemma UniqueKinds(k: ItemKind)
    ensures IsUnique(k) <==> k == EnchantedSword || k == MagicCauldron
  {
    var p := PassiveName(k);
    if k == EnchantedSword || k == MagicCauldron {
      assert p[..|UniqueMarker|] == UniqueMarker;
      assert OccursAt(p, UniqueMarker, 0);
    } else if k == ShinyStaff {
      var a, b, c := "Passive: Blessings of Echo. ", "Adds 1(+50% of base Magic Power)", " to Magic Power.";
      assert NoCapitalU(a) && NoCapitalU(b) && NoCapitalU(c);
      NoCapitalUConcat(a, b);
      NoCapitalUConcat(a + b, c);
      NoMarkerWithoutU(p);
    } else {
      NoMarkerWithoutU(p);
    }
  }

  /** Item equality compares names, and no two kinds share a name. */
  lemma NamesDistinct(a: ItemKind, b: ItemKind)
    ensures Name(a) == Name(b) <==> a == b
  {
    if a != b {
      assert |Name(a)| != |Name(b)|;
    }
  }

  /**
   * `calculate_effective_stats(character_stats)` of an item of kind `k` with
   * base item stats `base` and passive flag `active`.
   */
  function Contribution(k: ItemKind, base: Stats, active: bool, character: Stats): (r: Stats)
    ensures k != Pole && k != SolidRock ==> Bounded(r)
    ensures k == Pole || k == SolidRock ==> r == base
  {
    match k
    case EnchantedSword =>
      var chance := if active then 5.0 + 0.25 * character.specialTriggerChance else 0.0;
      Add(base, Zero.(specialTriggerChance := chance))
    case ShinyStaff =>
      Add(base, Zero.(magicPower := 1.0 + 0.5 * character.magicPower))
    case MagicCauldron =>
      var hp := if active then 10.0 + 0.3 * character.totalHp else 0.0;
      Add(base, Zero.(currentHp := hp, totalHp := hp))
    case Pole => base
    case SolidRock => base
  }

  /** An item with a unique passive, once switched off, grants only its normalised base stats. */
  lemma InactiveGrantsBase(k: ItemKind, base: Stats, character: Stats)
    requires IsUnique(k)
    ensures Contribution(k, base, false, character) == Add(base, Zero)
  {
    UniqueKinds(k);
  }

  /** Pole and Solid Rock ignore the character and the flag. */
  lemma PlainItemsIgnoreCharacter(k: ItemKind, base: Stats, a1: bool, c1: Stats, a2: bool, c2: Stats)
    requires k == Pole || k == SolidRock
    ensures Contribution(k, base, a1, c1) == Contribution(k, base, a2, c2) == base
  {
  }

  /** The Shiny Staff passive applies whatever its flag says. */
  lemma StaffIgnoresFlag(base: Stats, character: Stats)
    ensures Contribution(ShinyStaff, base, true, character) == Contribution(ShinyStaff, base, false, character)
  {
  }

  /**
   * On bounded item stats and a holder with non-negative base stats, an
   * active Sword adds exactly 5 + 25% of the base trigger chance (up to 100)
   * and changes nothing else.
   */
  lemma SwordAddsChance(base: Stats, character: Stats)
    requires Bounded(base) && 0.0 <= character.specialTriggerChance
    ensures Contribution(EnchantedSword, base, true, character)
      == base.(specialTriggerChance :=
                 Min(100.0, base.specialTriggerChance + 5.0 + 0.25 * character.specialTriggerChance))
  {
  }

  /** Likewise the Staff adds exactly 1 + 50% of the base magic power to magic power. */
  lemma StaffAddsMagicPower(base: Stats, character: Stats, active: bool)
    requires Bounded(base) && 0.0 <= character.magicPower
    ensures Contribution(ShinyStaff, base, active, character)
      == base.(magicPower := base.magicPower + 1.0 + 0.5 * character.magicPower)
  {
  }

  /** And an active Cauldron adds 10 + 30% of the base total HP to both HP fields. */
  lemma CauldronAddsHp(base: Stats, character: Stats)
    requires Bounded(base) && 0.0 <= character.totalHp
    ensures var hp := 10.0 + 0.3 * character.totalHp;
      Contribution(MagicCauldron, base, true, character)
        == base.(currentHp := base.currentHp + hp, totalHp := base.totalHp + hp)
  {
  }

}
