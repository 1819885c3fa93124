# Auto-Arcana-Wars combat core in Dafny

This project models the combat core of Auto-Arcana-Wars, a turn-based battle
simulator. Two players field rosters of characters (Ninja, Mage, Warrior).
The characters are equipped with up to three items (Enchanted Sword, Shiny
Staff, Magic Cauldron, Pole, Solid Rock). Rosters fight round by round, and
the winner of the match is the side that wins more rounds.

The modules follow the program's structure:

- `Stats` (stats.dfy): the seven-field stat record. `Add` is
  `add_stat_changes`: every field is added and then clamped, and total HP is
  clamped first so that current HP is capped by the new total.
- `Rng` (rng.dfy): the decision rule `u < p/100`. Class `RngEngine` holds the
  draws the generator would produce, and each `Roll` consumes exactly one of
  them.
- `Items` (items.dfy) and `Characters` (characters.dfy): the closed sets of
  kinds as datatypes. They give names, passive texts, the "Unique Passive"
  marker, each item's stat contribution and each character's special-attack
  formula.
- `Equipment` (equipment.dfy): classes `Item` and `Character`. `add_item` is
  modelled as a method that changes the character and the item in place.
- `Combat` (combat.dfy): damage mitigation, the miss-chance rule, and one
  turn over values (`TurnOutcome`).
- `Rounds` and `Matches` (rounds.dfy, matches.dfy): a round and a match
  computed over values. These are the references the imperative engine is
  proved against, and the lemmas about rounds and matches are stated on them.
- `Engine` (engine.dfy): `play_turn`, `your_attack`, `opponent_attack`,
  `play_round` and `play_match` as methods over character objects and the
  draw source. Each method's `ensures` ties the new state to the reference
  functions of the old state.

Some properties of the code as written are worth knowing:

- Within a round the roles never change. The side named by
  `is_your_turn_first` attacks on every turn with its first character, and
  only the other side's index moves.
- The round result is `your_character_index > opponent_character_index`. So
  when you move first you can never win a round, and you can never win the
  match (`Engine.PlayRound`, `Matches.FirstMoverScoresNothing`,
  `Engine.PlayMatch`).
- A round need not end. An attacker whose attacks do no damage never fells a
  living defender (`Rounds.HarmlessRoundNeverEnds`). The model therefore runs
  on a finite sequence of draws. A round that runs out of draws stops and
  reports that it did not finish.

A few facts about the code are easy to misread, and the model keeps them as
they are:

- `add_stat_changes` (utils.py:47-59) floors armor, magic resistance,
  physical power and magic power at 0 whenever stats are combined.
- `add_item` (utils.py:144-147) folds each new item's contribution into the
  accumulated item stats. It does not recompute them from the item list.
- The special attacks (characters.py:26, 53, 81) read base stats, not
  effective stats.
- A turn makes the miss draw whenever an attack exists (backend.py:149-151),
  including for an attack that deals no damage.
- The Warrior's docstring promises healing (characters.py:73-75), but nothing
  in the engine applies it to the attacker. The special attack is a number
  like the others.

## Model

| member | source | states |
|---|---|---|
| Stats.Add | utils.py:45-60 | the result is within bounds: total HP at least 0, current HP between 0 and the result's own total HP, trigger chance within [0, 100], every other field at least 0 |
| Stats.AddCommutes | utils.py:55-58 | combining `a` with `b` equals combining `b` with `a` |
| Stats.AddZeroFixesBounded | utils.py:55-58 | adding `Stats()` returns a record unchanged exactly when that record is already within every bound |
| Stats.AddZeroIdempotent | utils.py:55-58 | normalising a combined record a second time changes nothing |
| Stats.AddHpChange | utils.py:47-58 | on a bounded record, a change to current HP alone moves only current HP, clamped to [0, total HP] |
| Rng.Decide | utils.py:34 | for a draw in [0, 1) the roll is never true at probability at most 0, and always true at probability at least 100 |
| Rng.DecideMonotone | utils.py:34 | a larger probability never turns a success into a failure |
| Rng.RngEngine.Roll | utils.py:20-34 | consumes exactly one draw, and the result is the decision rule applied to that draw |
| Items.UniqueKinds | items.py:8-75 | `Items.IsUnique`, the test `"Unique Passive" in item.passive_name` of utils.py:140 written with the substring predicate `Items.HasSubstring`, holds exactly for the Enchanted Sword and the Magic Cauldron |
| Items.NamesDistinct | utils.py:98-102 | item equality by name holds exactly between items of the same kind |
| Items.Name | items.py:4-75 | the item names as the code spells them; a definition without a contract, whose content (five pairwise different names) `Items.NamesDistinct` states |
| Items.PassiveName | items.py:8-75 | the passive texts as the code spells them; a definition without a contract, whose content (the unique marker for exactly the Sword and the Cauldron) `Items.UniqueKinds` states |
| Items.Contribution | items.py:13-78 | Sword, Staff and Cauldron contributions are within the stat bounds; Pole and Solid Rock return their base item stats verbatim |
| Items.InactiveGrantsBase | items.py:13-53 | an item with a unique passive, once switched off, contributes only its normalised base item stats |
| Items.PlainItemsIgnoreCharacter | items.py:64-78 | Pole and Solid Rock ignore the character's stats and the passive flag |
| Items.StaffIgnoresFlag | items.py:32-35 | the Shiny Staff passive applies whatever its flag says |
| Items.SwordAddsChance | items.py:13-19 | an active Sword on bounded item stats adds exactly 5 + 25% of the base trigger chance to the trigger chance, capped at 100, and changes nothing else |
| Items.StaffAddsMagicPower | items.py:32-35 | the Staff on bounded item stats adds exactly 1 + 50% of the base magic power to magic power and changes nothing else |
| Items.CauldronAddsHp | items.py:47-53 | an active Cauldron on bounded item stats adds exactly 10 + 30% of the base total HP to both current and total HP |
| Characters.SpecialAttackName | characters.py:10-67 | the special attack's name is the character's name, then ": ", then the attack's title |
| Characters.Name | characters.py:5-67 | the character names; a definition without a contract, used by `Characters.SpecialAttackName` |
| Characters.AttackTitle | characters.py:13-67 | the special-attack titles; a definition without a contract, used by `Characters.SpecialAttackName` |
| Characters.SpecialAttack | characters.py:15-83 | with non-negative power stats the specials are at least 40 (Ninja), 1 (Mage) and 50 (Warrior) |
| Characters.SpecialMonotone | characters.py:26-81 | each special grows with the base power stats it reads |
| Characters.SpecialExamples | characters.py:26-81 | concrete values: Ninja 20/10 deals 55, Warrior 10/5 heals 72.5, Mage with magic power 8 deals 11 |
| Combat.Mitigated | backend.py:21-25 | for a resistance in [0, 100] the damage that gets through lies between 0 and the damage dealt; with no resistance it is the positive part of the damage |
| Combat.DamageTaken | backend.py:9-28 | the result changes current HP alone; that change is at most 0 for armor and magic resistance within [0, 100], and exactly 0 when no damage part is positive |
| Combat.MissChance | backend.py:31-46 | for armor and magic resistance within [0, 100] the miss chance lies in [0, 10]; it is 0 when no damage part is positive |
| Combat.PhysicalDecidesMiss | backend.py:38-40 | with positive physical damage the miss chance is armor/10, whatever the magic damage |
| Combat.TurnOutcome | backend.py:119-157 | for draws in [0, 1): a trigger chance of at least 100 always selects the special attack and one of at most 0 never does; a defender without armor or magic resistance is never missed, and neither is an attack with no positive damage part; a miss leaves the defender as it was; the turn reports the selected attack's description |
| Combat.TurnOnlyLowersHp | backend.py:149-155 | against a bounded defender with armor and magic resistance at most 100, a turn changes current HP alone and never raises it; a miss leaves the defender as it was, and a hit lowers current HP by the mitigated damage, floored at 0 |
| Combat.UndefendedTargetTakesFullDamage | backend.py:144-155 | a 55-damage special that triggers and is not missed against a target without armor or magic resistance lowers current HP by exactly 55, floored at 0 |
| Equipment.Item.constructor | utils.py:77-81 | a new item keeps the kind, base item stats and passive flag it is given |
| Equipment.Accumulate | utils.py:144-145 | the fold of one or more contributions is within the stat bounds |
| Equipment.HoldsSameName | utils.py:140 | `item in self.items`, where `__eq__` (utils.py:98-102) compares names; a definition without a contract, whose use `Equipment.Character.AddItem` states in its flag rule |
| Equipment.Character.constructor | utils.py:119-124 | a new character has no items, accumulated item stats `Stats()` and effective stats equal to its base stats |
| Equipment.Character.AddItem | utils.py:136-147 | with three items held the result is a refusal and nothing changes; otherwise the new item's flag is cleared exactly when it is unique (`Items.IsUnique`) and a same-named item is held (`Equipment.HoldsSameName`), earlier items keep their flags, the item is appended last, its contribution against the base stats is folded into the accumulated item stats, and the effective stats become base combined with accumulated; at most three items always |
| Equipment.EquippedIsBounded | utils.py:143-147 | a character that has added one or more items has effective stats within the stat bounds |
| Rounds.RoundFrom | backend.py:183-206 | the round loop from a given defending index; a reference definition without a contract, whose properties `Rounds.RoundShape`, `Rounds.RoundIndex`, `Rounds.RoundFinishedDefeatsAll`, `Rounds.RoundOnlyLowersHp` and `Rounds.HarmlessRoundNeverEnds` state and to which `Engine.PlayRound` is proved equal |
| Rounds.Round | backend.py:179-208 | a round from its start, and nothing at all with no attacker; a reference definition without a contract, to which `Engine.PlayRound`'s ensures ties the new state |
| Rounds.RoundShape | backend.py:183-206 | every turn of a round appends exactly one log line and consumes exactly two draws, in order; the roster keeps its length |
| Rounds.RoundIndex | backend.py:183-206 | the defending index only moves forward and stays on the roster; defenders already replaced and those not yet reached keep their stats |
| Rounds.RoundFinishedDefeatsAll | backend.py:183-206 | a round that ends on a non-empty roster ends on its last defender with every defender at or below 0 HP; an unfinished round has fewer than two draws left |
| Rounds.RoundOnlyLowersHp | backend.py:137-206 | against defenders within bounds, with armor and magic resistance at most 100, a round only lowers current HP and changes no other stat |
| Rounds.HarmlessRoundNeverEnds | backend.py:183-206 | if neither attack deals positive damage, a living bounded defender never falls, and the round runs out of draws without ending |
| Matches.Play | backend.py:236-240 | one round is played per pair of rosters |
| Matches.Won | backend.py:206 | the round result `your index > opponent index`, summarised as `!isYourTurnFirst && index > 0`; a definition without a contract, justified by `Engine.PlayRound`, which computes `yourCharacterIndex > opponentCharacterIndex` and whose ensures proves that result equal to `!isYourTurnFirst && e.index > 0` |
| Matches.Logs | backend.py:246-247 | the match log as the round logs in order; a definition without a contract, whose properties `Matches.LogsCons` and `Matches.AppendRound` state and which `Engine.PlayMatch` meets |
| Matches.MatchWon | backend.py:241-249 | `your_points > opponent_points` with one point per round to one side; a definition without a contract, which `Engine.PlayMatch`'s result equals |
| Matches.Wins | backend.py:241-244 | each round gives you at most one point |
| Matches.FirstMoverScoresNothing | backend.py:190-249 | when you move first you win no round and do not win the match |
| Matches.PlaySnoc | backend.py:236-240 | a further pair of rosters adds one round, played on the draws the earlier rounds left |
| Matches.PlayOneMore | backend.py:236-247 | one more round adds its log to the match log and at most one point, and leaves the draws that round left |
| Matches.AppendRound | backend.py:241-247 | appending a round's result appends its log and adds its point |
| Matches.PlayChains | backend.py:236-240 | round `k` starts on the draws that rounds `0..k-1` left |
| Matches.MatchUsesTwoDrawsPerTurn | backend.py:236-247 | over the whole match, the draws used are exactly two per logged turn, and the unused draws are a suffix of those supplied |
| Matches.LogsCons | backend.py:246-247 | the match log of a round followed by more rounds is that round's log followed by theirs |
| Engine.PlayTurn | backend.py:119-157 | consumes exactly two draws, the special draw at the attacker's trigger chance and then the miss draw; only the defender's effective stats change, and they become those of the reference turn; the result is the selected attack's description |
| Engine.YourAttack | backend.py:49-81 | plays your turn and appends one log line; in the roster, only the defender's stats change; the next defender is the same one if it still has HP, otherwise the next on its team, and there is no result when none is left |
| Engine.OpponentAttack | backend.py:84-116 | the same as `Engine.YourAttack` with the roles exchanged |
| Engine.PlayRound | backend.py:179-208 | the defenders' new stats, the log, the unused draws and whether the round ended are those of the reference round on the old state; the result is `your index > opponent index`, which is never true when you move first |
| Engine.AppendTurns | backend.py:246-247 | the match log is extended by the round log, in order |
| Engine.PlayMatchRound | backend.py:236-247 | one iteration of the match loop: round `i` follows the reference round from its rosters' opening, the winner gets a point and the log grows by the round log; the rosters of later rounds keep their openings |
| Engine.PlayRounds | backend.py:236-247 | the loop over the paired rosters: the rounds, the unused draws, the match log and both sides' points are those of the reference match started on the draws handed in |
| Engine.PlayMatch | backend.py:227-251 | one draw at 50% decides who moves first; the rounds, the unused draws and the match log are those of the reference match on the rosters' old stats; the match is won exactly when your points exceed the opponent's; a first mover never wins |

## Left out

- Loading rosters from JSON files, the path joining and directory listing that
  pick the round files, and the command-line entry point are I/O. The model
  takes already-built rosters, paired round by round, as sequences.
- The generator behind the random source is a foreign library. The model
  takes the uniform draws it would produce as a finite sequence of reals.
- Floating point is modelled as exact `real` arithmetic, so rounding is not
  modelled.
- The text rendering of stats, items and characters is formatting and is not
  part of this model.
- The abstract-class machinery is replaced by closed datatypes of kinds.
- Attacks are not computed by the characters. The code defines no basic
  attack, and its special attack is a bare number, so each character object
  carries the two attacks (damage and description) that turns read from it.
  Descriptions are opaque strings.
- A missing attack is not modelled, because the code dereferences it anyway.
- The round loop's check that the current characters are present is left
  out. Character objects are always truthy, so that check never breaks the
  loop.
- Engine.PlayRound: the loop also stops when fewer than two draws remain,
  and `finished` then reports that the round did not end. The source's
  generator never runs out, and its round can loop forever.
- Engine.PlayRound: it requires the two rosters to share no character and
  to contain none twice. The loader builds fresh objects for every roster
  entry, so aliasing between characters is not modelled.
- Engine.PlayMatch: it requires at least one draw for the opening 50% roll.
  It also requires that no character appears in two rounds or twice in a
  round, which holds because every round is loaded afresh.
- Engine.YourAttack and Engine.OpponentAttack: the new list is returned
  rather than the caller's list being appended to in place.
