/**
 * Items and characters as the objects the game mutates: an item's passive
 * flag, and a character's item list, accumulated item stats and effective
 * stats.
 */
module Equipment {
  import opened Stats
  import Items
  import Characters
  import opened Combat

  /** The most items one character may hold. */
  const NItems: nat := 3

  class Item {
    const kind: Items.ItemKind
    const baseItemStats: Stats
    var isPassiveActive: bool

    constructor (kind: Items.ItemKind, baseItemStats: Stats, isPassiveActive: bool)
      ensures this.kind == kind && this.baseItemStats == baseItemStats
      ensures this.isPassiveActive == isPassiveActive
    {
      this.kind := kind;
      this.baseItemStats := baseItemStats;
      this.isPassiveActive := isPassiveActive;
    }
  }

  /** `item in items`, where item equality compares names. */
  predicate HoldsSameName(items: seq<Item>, item: Item) {
    exists i :: 0 <= i < |items| && Items.Name(items[i].kind) == Items.Name(item.kind)
  }

  /** Left fold of the combination over contributions, starting from `Stats()`. */
  function Accumulate(contributions: seq<Stats>): (r: Stats)
    ensures contributions != [] ==> Bounded(r)
  {
    if contributions == [] then Zero
    else Add(Accumulate(contributions[..|contributions| - 1]), contributions[|contributions| - 1])
  }

  datatype AddItemResult = Added | TooManyItems

  class Character {
    const kind: Characters.CharacterKind
    const baseStats: Stats
    /** The attacks that turn resolution reads from the character. */
    const basicAttack: Attack
    const specialAttack: Attack
    var addedItemStats: Stats
    var effectiveStats: Stats
    var items: seq<Item>
    /** Each item's contribution, as computed when it was added. */
    ghost var contributions: seq<Stats>

    /** At most three items, and the accumulated item stats are the fold of their contributions. */
    ghost predicate Valid()
      reads this
    {
      && |items| <= NItems
      && |contributions| == |items|
      && addedItemStats == Accumulate(contributions)
    }

    /** Before any combat: base stats with the accumulated item stats added (raw base if no item). */
    ghost predicate Equipped()
      reads this
    {
      effectiveStats == if items == [] then baseStats else Add(baseStats, addedItemStats)
    }

    constructor (kind: Characters.CharacterKind, baseStats: Stats, basicAttack: Attack, specialAttack: Attack)
      ensures Valid() && Equipped()
      ensures this.kind == kind && this.baseStats == baseStats
      ensures this.basicAttack == basicAttack && this.specialAttack == specialAttack
      ensures addedItemStats == Zero && effectiveStats == baseStats && items == []
    {
      this.kind := kind;
      this.baseStats := baseStats;
      this.basicAttack := basicAttack;
      this.specialAttack := specialAttack;
      addedItemStats := Zero;
      effectiveStats := baseStats;
      items := [];
      contributions := [];
    }

    /**
     * `add_item`: refuses a fourth item and then changes nothing; otherwise
     * turns off the new item's passive if it is unique and a same-named item
     * is already held, appends it, folds its contribution (computed against
     * the BASE stats) into the accumulated item stats, and recomputes the
     * effective stats from base and accumulated stats.
     */
    method AddItem(item: Item) returns (r: AddItemResult)
      requires Valid()
      modifies this, item
      ensures Valid()
      ensures forall it :: it in old(items) && it != item ==> it.isPassiveActive == old(it.isPassiveActive)
      ensures old(|items|) == NItems ==>
        && r == TooManyItems
        && items == old(items) && contributions == old(contributions)
        && addedItemStats == old(addedItemStats) && effectiveStats == old(effectiveStats)
        && item.isPassiveActive == old(item.isPassiveActive)
      ensures old(|items|) < NItems ==>
        && r == Added
        && item.isPassiveActive
             == (old(item.isPassiveActive) && !(Items.IsUnique(item.kind) && HoldsSameName(old(items), item)))
        && items == old(items) + [item]
        && var c := Items.Contribution(item.kind, item.baseItemStats, item.isPassiveActive, baseStats);
           && contributions == old(contributions) + [c]
           && addedItemStats == Add(old(addedItemStats), c)
           && effectiveStats == Add(baseStats, addedItemStats)
           && Equipped()
    {
      if |items| == NItems {
        return TooManyItems;
      }
      if Items.IsUnique(item.kind) && HoldsSameName(items, item) {
        item.isPassiveActive := false;
      }
      items := items + [item];
      var c := Items.Contribution(item.kind, item.baseItemStats, item.isPassiveActive, baseStats);
      contributions := contributions + [c];
      assert contributions[..|contributions| - 1] == old(contributions);
      addedItemStats := Add(addedItemStats, c);
      effectiveStats := Add(baseStats, addedItemStats);
      r := Added;
    }
  }

  /**
   * A character that went through one or more successful additions has
   * effective stats within the stat bounds.
   */
  lemma EquippedIsBounded(c: Character)
    requires c.Valid() && c.Equipped() && c.items != []
    ensures Bounded(c.effectiveStats)
  {
  }

}
