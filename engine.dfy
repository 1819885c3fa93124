/**
 * The turn, round and match engine over character objects: turns change the
 * defender's effective stats in place and consume draws from the engine's
 * random source; rounds and matches are loops over them.
 */
module Engine {
  import opened Wrappers
  import opened Stats
  import opened Rng
  import opened Combat
  import opened Equipment
  import opened Rounds
  import opened Matches

  /** What one turn reads from the attacker. */
  function StrikerOf(c: Character): Striker
    reads c
  {
    Striker(c.effectiveStats.specialTriggerChance, c.basicAttack, c.specialAttack)
  }

  /** The effective stats of a roster, in roster order. */
  function Snapshot(team: seq<Character>): (r: seq<Stats>)
    reads team
    ensures |r| == |team|
    ensures forall i :: 0 <= i < |team| ==> r[i] == team[i].effectiveStats
  {
    if team == [] then [] else Snapshot(team[..|team| - 1]) + [team[|team| - 1].effectiveStats]
  }

  /** No character occurs twice in a roster. */
  predicate Distinct(team: seq<Character>) {
    forall i, j :: 0 <= i < j < |team| ==> team[i] != team[j]
  }

  /** Two rosters as the loader builds them: each without repeats, and sharing no character. */
  predicate Separate(yourTeam: seq<Character>, opponentTeam: seq<Character>) {
    && Distinct(yourTeam)
    && Distinct(opponentTeam)
    && forall i, j :: 0 <= i < |yourTeam| && 0 <= j < |opponentTeam| ==> yourTeam[i] != opponentTeam[j]
  }

  /** The character a turn attacks with. */
  function AttackerOf(yourCharacter: Character, opponentCharacter: Character, isYourTurn: bool): Character {
    if isYourTurn then yourCharacter else opponentCharacter
  }

  /** The character a turn is aimed at. */
  function DefenderOf(yourCharacter: Character, opponentCharacter: Character, isYourTurn: bool): Character {
    if isYourTurn then opponentCharacter else yourCharacter
  }

  /**
   * `play_turn`: the special-trigger draw first, then the miss draw; a hit
   * adds the damage taken to the defender's effective stats. Nothing else
   * changes.
   */
  method PlayTurn(yourCharacter: Character, opponentCharacter: Character, isYourTurn: bool, rng: RngEngine)
    returns (description: string)
    requires |rng.draws| >= 2
    modifies DefenderOf(yourCharacter, opponentCharacter, isYourTurn)`effectiveStats, rng
    ensures rng.draws == old(rng.draws)[2..]
    ensures var attacker := AttackerOf(yourCharacter, opponentCharacter, isYourTurn);
      var defender := DefenderOf(yourCharacter, opponentCharacter, isYourTurn);
      var t := TurnOutcome(old(StrikerOf(attacker)), old(defender.effectiveStats), old(rng.draws));
      defender.effectiveStats == t.defender && description == t.description
  {
    var attacker, defender := yourCharacter, opponentCharacter;
    if !isYourTurn {
      attacker, defender := opponentCharacter, yourCharacter;
    }
    var specialChance := attacker.effectiveStats.specialTriggerChance;
    var isAttackSpecial := rng.Roll(specialChance);
    var damage := if !isAttackSpecial then attacker.basicAttack else attacker.specialAttack;
    var missChance := MissChance(damage.damage, defender.effectiveStats);
    var isDamageMissed := rng.Roll(missChance);
    if !isDamageMissed {
      defender.effectiveStats := Add(defender.effectiveStats, DamageTaken(damage.damage, defender.effectiveStats));
    }
    description := damage.description;
  }

  /**
   * `your_attack`: one turn of yours, logged; a fallen opponent is replaced
   * by the next one on its team, and there is no result when none is left.
   */
  method YourAttack(yourCharacter: Character, opponentCharacter: Character, rng: RngEngine, eventLog: seq<string>,
                    opponentTeam: seq<Character>, opponentCharacterIndex: nat)
    returns (log: seq<string>, result: Option<(Character, nat)>)
    requires |rng.draws| >= 2
    modifies opponentCharacter`effectiveStats, rng
    ensures rng.draws == old(rng.draws)[2..]
    ensures var t := TurnOutcome(old(StrikerOf(yourCharacter)), old(opponentCharacter.effectiveStats), old(rng.draws));
      opponentCharacter.effectiveStats == t.defender && log == eventLog + [t.description]
    ensures opponentCharacterIndex < |opponentTeam| && opponentTeam[opponentCharacterIndex] == opponentCharacter
            && Distinct(opponentTeam) ==>
      Snapshot(opponentTeam) == old(Snapshot(opponentTeam))[opponentCharacterIndex := opponentCharacter.effectiveStats]
    ensures result ==
      if opponentCharacter.effectiveStats.currentHp > 0.0 then Some((opponentCharacter, opponentCharacterIndex))
      else if opponentCharacterIndex + 1 < |opponentTeam| then
        Some((opponentTeam[opponentCharacterIndex + 1], opponentCharacterIndex + 1))
      else None
  {
    var description := PlayTurn(yourCharacter, opponentCharacter, true, rng);
    log := eventLog + [description];
    var nextCharacter, nextIndex := opponentCharacter, opponentCharacterIndex;
    if opponentCharacter.effectiveStats.currentHp <= 0.0 {
      nextIndex := nextIndex + 1;
      if nextIndex < |opponentTeam| {
        nextCharacter := opponentTeam[nextIndex];
      } else {
        return log, None;
      }
    }
    result := Some((nextCharacter, nextIndex));
  }

  /** `opponent_attack`: the same with the roles exchanged. */
  method OpponentAttack(yourCharacter: Character, opponentCharacter: Character, rng: RngEngine, eventLog: seq<string>,
                        yourTeam: seq<Character>, yourCharacterIndex: nat)
    returns (log: seq<string>, result: Option<(Character, nat)>)
    requires |rng.draws| >= 2
    modifies yourCharacter`effectiveStats, rng
    ensures rng.draws == old(rng.draws)[2..]
    ensures var t := TurnOutcome(old(StrikerOf(opponentCharacter)), old(yourCharacter.effectiveStats), old(rng.draws));
      yourCharacter.effectiveStats == t.defender && log == eventLog + [t.description]
    ensures yourCharacterIndex < |yourTeam| && yourTeam[yourCharacterIndex] == yourCharacter
            && Distinct(yourTeam) ==>
      Snapshot(yourTeam) == old(Snapshot(yourTeam))[yourCharacterIndex := yourCharacter.effectiveStats]
    ensures result ==
      if yourCharacter.effectiveStats.currentHp > 0.0 then Some((yourCharacter, yourCharacterIndex))
      else if yourCharacterIndex + 1 < |yourTeam| then
        Some((yourTeam[yourCharacterIndex + 1], yourCharacterIndex + 1))
      else None
  {
    var description := PlayTurn(yourCharacter, opponentCharacter, false, rng);
    log := eventLog + [description];
    var nextCharacter, nextIndex := yourCharacter, yourCharacterIndex;
    if yourCharacter.effectiveStats.currentHp <= 0.0 {
      nextIndex := nextIndex + 1;
      if nextIndex < |yourTeam| {
        nextCharacter := yourTeam[nextIndex];
      } else {
        return log, None;
      }
    }
    result := Some((nextCharacter, nextIndex));
  }

  /** The side that attacks throughout a round. */
  function Attackers(yourTeam: seq<Character>, opponentTeam: seq<Character>, isYourTurnFirst: bool): seq<Character> {
    if isYourTurnFirst then yourTeam else opponentTeam
  }

  /** The side that defends throughout a round. */
  function Defenders(yourTeam: seq<Character>, opponentTeam: seq<Character>, isYourTurnFirst: bool): seq<Character> {
    if isYourTurnFirst then opponentTeam else yourTeam
  }

  /** The attacker of a round, if its side has anyone. */
  function Lead(attackers: seq<Character>): Option<Striker>
    reads attackers
  {
    if attackers == [] then None else Some(StrikerOf(attackers[0]))
  }

  /**
   * `play_round`: the side named by `isYourTurnFirst` attacks on every turn
   * with its first character while the other side's characters defend in
   * order. The result is `yourIndex > opponentIndex` at the end, which is
   * never true when you attack. Besides the source's exits, the loop stops
   * when fewer than two draws remain, and then `finished` is false.
   */
  method PlayRound(yourTeam: seq<Character>, opponentTeam: seq<Character>, isYourTurnFirst: bool, rng: RngEngine)
    returns (finished: bool, outcome: bool, eventLog: seq<string>)
    requires Separate(yourTeam, opponentTeam)
    modifies Defenders(yourTeam, opponentTeam, isYourTurnFirst)`effectiveStats, rng
    ensures var attackers := Attackers(yourTeam, opponentTeam, isYourTurnFirst);
      var defenders := Defenders(yourTeam, opponentTeam, isYourTurnFirst);
      var e := Round(old(Lead(attackers)), old(Snapshot(defenders)), old(rng.draws));
      && Snapshot(defenders) == e.defenders
      && eventLog == e.log
      && rng.draws == e.draws
      && finished == e.finished
      && outcome == (!isYourTurnFirst && e.index > 0)
    ensures isYourTurnFirst ==> !outcome
  {
    ghost var attackers := Attackers(yourTeam, opponentTeam, isYourTurnFirst);
    ghost var defenders := Defenders(yourTeam, opponentTeam, isYourTurnFirst);
    ghost var defendersBefore, drawsBefore := Snapshot(defenders), rng.draws;
    ghost var e := Round(Lead(attackers), defendersBefore, drawsBefore);
    outcome, eventLog := true, [];
    var yourCharacterIndex: nat, opponentCharacterIndex: nat := 0, 0;
    var defeated := false;
    ghost var defenderIndex: nat := 0;
    while yourCharacterIndex < |yourTeam| && opponentCharacterIndex < |opponentTeam| && |rng.draws| >= 2
      invariant isYourTurnFirst ==> yourCharacterIndex == 0
      invariant !isYourTurnFirst ==> opponentCharacterIndex == 0
      invariant attackers == [] ==>
        && yourCharacterIndex == 0 && opponentCharacterIndex == 0
        && Snapshot(defenders) == defendersBefore && eventLog == [] && rng.draws == drawsBefore
      invariant defenderIndex == if isYourTurnFirst then opponentCharacterIndex else yourCharacterIndex
      invariant defenderIndex <= |defenders|
      invariant attackers != [] ==> RoundFrom(StrikerOf(attackers[0]), Snapshot(defenders), defenderIndex, rng.draws, eventLog) == e
      modifies defenders`effectiveStats, rng
      decreases |rng.draws|
    {
      var yourCharacter := yourTeam[yourCharacterIndex];
      var opponentCharacter := opponentTeam[opponentCharacterIndex];
      // The defenders, draws and turn before this step are named only so that
      // the solver has the `TurnOutcome` term of this turn to instantiate on.
      ghost var s := StrikerOf(attackers[0]);
      ghost var before, draws := Snapshot(defenders), rng.draws;
      if isYourTurnFirst {
        var result;
        eventLog, result := YourAttack(yourCharacter, opponentCharacter, rng, eventLog, opponentTeam, opponentCharacterIndex);
        ghost var t := TurnOutcome(s, before[opponentCharacterIndex], draws);
        if result.None? {
          assert e == RoundEnd(Snapshot(defenders), opponentCharacterIndex, eventLog, rng.draws, true);
          defeated := true;
          break;
        }
        opponentCharacter, opponentCharacterIndex := result.value.0, result.value.1;
        defenderIndex := opponentCharacterIndex;
      } else {
        var result;
        eventLog, result := OpponentAttack(yourCharacter, opponentCharacter, rng, eventLog, yourTeam, yourCharacterIndex);
        ghost var t := TurnOutcome(s, before[yourCharacterIndex], draws);
        if result.None? {
          assert e == RoundEnd(Snapshot(defenders), yourCharacterIndex, eventLog, rng.draws, true);
          defeated := true;
          break;
        }
        yourCharacter, yourCharacterIndex := result.value.0, result.value.1;
        defenderIndex := yourCharacterIndex;
      }
    }
    finished := defeated || !(yourCharacterIndex < |yourTeam| && opponentCharacterIndex < |opponentTeam|);
    if !defeated && attackers != [] {
      assert defenderIndex >= |defenders| || |rng.draws| < 2;
      assert finished == (defenderIndex >= |defenders|);
    }
    assert e == RoundEnd(Snapshot(defenders), defenderIndex, eventLog, rng.draws, finished);
    outcome := yourCharacterIndex > opponentCharacterIndex;
  }


  /** Every character of the rosters that `zip` pairs into rounds. */
  function Cast(yourRosters: seq<seq<Character>>, opponentRosters: seq<seq<Character>>): set<Character>
    decreases |yourRosters|
  {
    if yourRosters == [] || opponentRosters == [] then {}
    else (set c | c in yourRosters[0] + opponentRosters[0]) + Cast(yourRosters[1..], opponentRosters[1..])
  }

  /** Both rosters of round `i` are among the match's characters. */
  lemma {:induction false} CastHoldsRound(yourRosters: seq<seq<Character>>, opponentRosters: seq<seq<Character>>, i: nat)
    requires i < |yourRosters| && i < |opponentRosters|
    ensures forall c :: c in yourRosters[i] + opponentRosters[i] ==> c in Cast(yourRosters, opponentRosters)
    decreases i
  {
    if i > 0 {
      CastHoldsRound(yourRosters[1..], opponentRosters[1..], i - 1);
    }
  }

  /** No character of `these` is in `those`. */
  predicate Apart(these: seq<Character>, those: seq<Character>) {
    forall c :: c in these ==> c !in those
  }

  /**
   * The rosters as the loader builds them for each round afresh: each
   * round's two rosters are separate, and no character plays in two rounds.
   */
  predicate Lineup(yourRosters: seq<seq<Character>>, opponentRosters: seq<seq<Character>>) {
    && (forall k :: 0 <= k < |yourRosters| && k < |opponentRosters| ==> Separate(yourRosters[k], opponentRosters[k]))
    && (forall j, k :: 0 <= j < k < |yourRosters| && k < |opponentRosters| ==>
          Apart(yourRosters[j] + opponentRosters[j], yourRosters[k] + opponentRosters[k]))
  }

  /** What a round on these rosters starts from. */
  function OpeningOf(yourTeam: seq<Character>, opponentTeam: seq<Character>, isYourTurnFirst: bool): Opening
    reads yourTeam, opponentTeam
  {
    Opening(Lead(Attackers(yourTeam, opponentTeam, isYourTurnFirst)), Snapshot(Defenders(yourTeam, opponentTeam, isYourTurnFirst)))
  }

  /** What the rounds of a match start from, round by round, in the current state. */
  function OpeningsOf(yourRosters: seq<seq<Character>>, opponentRosters: seq<seq<Character>>, isYourTurnFirst: bool): (r: seq<Opening>)
    reads Cast(yourRosters, opponentRosters)
    ensures |r| == if |yourRosters| < |opponentRosters| then |yourRosters| else |opponentRosters|
    decreases |yourRosters|
  {
    if yourRosters == [] || opponentRosters == [] then []
    else
      CastHoldsRound(yourRosters, opponentRosters, 0);
      [OpeningOf(yourRosters[0], opponentRosters[0], isYourTurnFirst)] + OpeningsOf(yourRosters[1..], opponentRosters[1..], isYourTurnFirst)
  }

  /** Round `k` of a match starts from the opening of its own rosters. */
  lemma {:induction false} OpeningsOfAt(yourRosters: seq<seq<Character>>, opponentRosters: seq<seq<Character>>, isYourTurnFirst: bool, k: nat)
    requires k < |yourRosters| && k < |opponentRosters|
    ensures OpeningsOf(yourRosters, opponentRosters, isYourTurnFirst)[k] == OpeningOf(yourRosters[k], opponentRosters[k], isYourTurnFirst)
    decreases k
  {
    if k > 0 {
      OpeningsOfAt(yourRosters[1..], opponentRosters[1..], isYourTurnFirst, k - 1);
    }
  }

  /** Every round of a match starts from the opening of its own rosters. */
  lemma OpeningsOfAll(yourRosters: seq<seq<Character>>, opponentRosters: seq<seq<Character>>, isYourTurnFirst: bool)
    ensures var r := OpeningsOf(yourRosters, opponentRosters, isYourTurnFirst);
      forall k :: 0 <= k < |r| ==> OpeningOf(yourRosters[k], opponentRosters[k], isYourTurnFirst) == r[k]
  {
    forall k | 0 <= k < |OpeningsOf(yourRosters, opponentRosters, isYourTurnFirst)|
      ensures OpeningOf(yourRosters[k], opponentRosters[k], isYourTurnFirst) == OpeningsOf(yourRosters, opponentRosters, isYourTurnFirst)[k]
    {
      OpeningsOfAt(yourRosters, opponentRosters, isYourTurnFirst, k);
    }
  }

  /** A roster's snapshot is kept while its characters keep their effective stats. */
  twostate lemma SnapshotKept(team: seq<Character>)
    requires forall c :: c in team ==> old(c.effectiveStats) == c.effectiveStats
    ensures Snapshot(team) == old(Snapshot(team))
  {
    var now, was := Snapshot(team), old(Snapshot(team));
    assert forall i :: 0 <= i < |now| ==> now[i] == was[i];
  }

  /**
   * The openings of a match are kept while every character keeps its
   * effective stats. The rosters and the first-mover flag come as one tuple
   * `(yourRosters, opponentRosters, isYourTurnFirst)`: a twostate lemma with
   * several parameters makes the solver fail under the
   * contradictory-assumptions check, and one parameter avoids that.
   */
  twostate lemma {:induction false} OpeningsKept(m: (seq<seq<Character>>, seq<seq<Character>>, bool))
    requires forall k, c :: 0 <= k < |m.0| && k < |m.1| && c in m.0[k] + m.1[k] ==> old(c.effectiveStats) == c.effectiveStats
    ensures OpeningsOf(m.0, m.1, m.2) == old(OpeningsOf(m.0, m.1, m.2))
    decreases |m.0|
  {
    if m.0 != [] && m.1 != [] {
      SnapshotKept(Defenders(m.0[0], m.1[0], m.2));
      LeadKept(Attackers(m.0[0], m.1[0], m.2));
      OpeningsKept((m.0[1..], m.1[1..], m.2));
    }
  }

  /** Likewise for the attacker a roster puts forward. */
  twostate lemma LeadKept(team: seq<Character>)
    requires forall c :: c in team ==> old(c.effectiveStats) == c.effectiveStats
    ensures Lead(team) == old(Lead(team))
  {
  }

  /** `for turn in round_log: match_log.append(turn)`. */
  method AppendTurns(matchLog: seq<string>, roundLog: seq<string>) returns (r: seq<string>)
    ensures r == matchLog + roundLog
  {
    r := matchLog;
    for k := 0 to |roundLog|
      invariant r == matchLog + roundLog[..k]
    {
      r := r + [roundLog[k]];
    }
    assert roundLog[..|roundLog|] == roundLog;
  }

  /**
   * The state of `play_match` after its first `i` rounds, which were played
   * from `openings` starting on `draws`: the rounds so far, the draws they
   * left, the match log, and each side's points.
   */
  ghost predicate Tallied(isYourTurnFirst: bool, openings: seq<Opening>, draws: seq<real>, i: nat, rounds: seq<RoundEnd>,
                          drawsLeft: seq<real>, matchLog: seq<string>, yourPoints: nat, opponentPoints: nat)
  {
    && i <= |openings|
    && rounds == Play(openings[..i], draws)
    && drawsLeft == DrawsAfter(rounds, draws)
    && matchLog == Logs(rounds)
    && yourPoints == Wins(isYourTurnFirst, rounds) && opponentPoints == i - yourPoints
  }

  /**
   * One iteration of `play_match`: round `i` is played on its rosters from the
   * opening expected of it, its winner gets a point and its log is appended;
   * the rosters of later rounds keep their openings.
   */
  method PlayMatchRound(yourRosters: seq<seq<Character>>, opponentRosters: seq<seq<Character>>, i: nat,
                        first: bool, rng: RngEngine, ghost expected: seq<Opening>, ghost draws: seq<real>,
                        ghost rounds: seq<RoundEnd>, yourPoints: nat, opponentPoints: nat, matchLog: seq<string>)
    returns (yourTotal: nat, opponentTotal: nat, newLog: seq<string>, ghost newRounds: seq<RoundEnd>)
    requires i < |expected| <= |yourRosters| && |expected| <= |opponentRosters|
    requires Lineup(yourRosters, opponentRosters)
    requires forall k :: i <= k < |expected| ==> OpeningOf(yourRosters[k], opponentRosters[k], first) == expected[k]
    requires Tallied(first, expected, draws, i, rounds, rng.draws, matchLog, yourPoints, opponentPoints)
    modifies Defenders(yourRosters[i], opponentRosters[i], first)`effectiveStats, rng
    ensures Tallied(first, expected, draws, i + 1, newRounds, rng.draws, newLog, yourTotal, opponentTotal)
    ensures forall k :: i + 1 <= k < |expected| ==> OpeningOf(yourRosters[k], opponentRosters[k], first) == expected[k]
  {
    var yourTeam, opponentTeam := yourRosters[i], opponentRosters[i];
    ghost var e := Round(expected[i].attacker, expected[i].defenders, rng.draws);
    PlayOneMore(first, expected, draws, i, e);
    var roundFinished, outcome, roundLog := PlayRound(yourTeam, opponentTeam, first, rng);
    forall k | i + 1 <= k < |expected|
      ensures OpeningOf(yourRosters[k], opponentRosters[k], first) == expected[k]
    {
      assert Apart(yourTeam + opponentTeam, yourRosters[k] + opponentRosters[k]);
      forall c | c in yourRosters[k] + opponentRosters[k] ensures old(c.effectiveStats) == c.effectiveStats {
        assert c !in yourTeam + opponentTeam;
      }
      SnapshotKept(Defenders(yourRosters[k], opponentRosters[k], first));
      LeadKept(Attackers(yourRosters[k], opponentRosters[k], first));
    }
    newRounds := rounds + [e];
    if outcome {
      yourTotal, opponentTotal := yourPoints + 1, opponentPoints;
    } else {
      yourTotal, opponentTotal := yourPoints, opponentPoints + 1;
    }
    newLog := AppendTurns(matchLog, roundLog);
  }

  /**
   * The loop of `play_match` over the rounds `zip` pairs: each round is played
   * from the opening expected of it, and the rounds, draws, log and points
   * come out as those of the reference match.
   */
  method PlayRounds(yourRosters: seq<seq<Character>>, opponentRosters: seq<seq<Character>>, first: bool, rng: RngEngine,
                    ghost expected: seq<Opening>)
    returns (yourPoints: nat, opponentPoints: nat, matchLog: seq<string>, ghost rounds: seq<RoundEnd>)
    requires |expected| == if |yourRosters| < |opponentRosters| then |yourRosters| else |opponentRosters|
    requires Lineup(yourRosters, opponentRosters)
    requires forall k :: 0 <= k < |expected| ==> OpeningOf(yourRosters[k], opponentRosters[k], first) == expected[k]
    modifies Cast(yourRosters, opponentRosters)`effectiveStats, rng
    ensures Tallied(first, expected, old(rng.draws), |expected|, rounds, rng.draws, matchLog, yourPoints, opponentPoints)
  {
    yourPoints, opponentPoints := 0, 0;
    matchLog := [];
    rounds := [];
    ghost var draws := rng.draws;
    var n := if |yourRosters| < |opponentRosters| then |yourRosters| else |opponentRosters|;
    for i := 0 to n
      invariant forall k :: i <= k < |expected| ==> OpeningOf(yourRosters[k], opponentRosters[k], first) == expected[k]
      invariant Tallied(first, expected, draws, i, rounds, rng.draws, matchLog, yourPoints, opponentPoints)
    {
      CastHoldsRound(yourRosters, opponentRosters, i);
      yourPoints, opponentPoints, matchLog, rounds :=
        PlayMatchRound(yourRosters, opponentRosters, i, first, rng, expected, draws, rounds, yourPoints, opponentPoints, matchLog);
    }
  }

  /**
   * `play_match`: one draw at 50% decides who moves first in every round;
   * the rounds are played in order on the rosters `zip` pairs, and each
   * gives a point to one side and appends its log. You win the match with
   * more points than the opponent, which cannot happen when you move first.
   */
  method PlayMatch(yourRosters: seq<seq<Character>>, opponentRosters: seq<seq<Character>>, rng: RngEngine)
    returns (matchWon: bool, matchLog: seq<string>, ghost isYourTurnFirst: bool, ghost openings: seq<Opening>,
             ghost rounds: seq<RoundEnd>)
    requires |rng.draws| >= 1
    requires Lineup(yourRosters, opponentRosters)
    modifies Cast(yourRosters, opponentRosters)`effectiveStats, rng
    ensures isYourTurnFirst == Decide(old(rng.draws)[0], 50.0)
    ensures openings == old(OpeningsOf(yourRosters, opponentRosters, isYourTurnFirst))
    ensures rounds == Play(openings, old(rng.draws)[1..])
    ensures rng.draws == DrawsAfter(rounds, old(rng.draws)[1..])
    ensures matchLog == Logs(rounds)
    ensures matchWon == MatchWon(isYourTurnFirst, rounds)
    ensures isYourTurnFirst ==> !matchWon
  {
    var first := rng.Roll(50.0);
    isYourTurnFirst := first;
    OpeningsKept((yourRosters, opponentRosters, first));
    openings := OpeningsOf(yourRosters, opponentRosters, first);
    OpeningsOfAll(yourRosters, opponentRosters, first);
    var yourPoints, opponentPoints;
    yourPoints, opponentPoints, matchLog, rounds := PlayRounds(yourRosters, opponentRosters, first, rng, openings);
    assert openings[..|openings|] == openings;
    matchWon := yourPoints > opponentPoints;
    if first {
      FirstMoverScoresNothing(rounds);
    }
  }
}
