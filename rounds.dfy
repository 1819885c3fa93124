/**
 * A round computed over values: the reference that the imperative round
 * loop is proved against, and what it guarantees.
 *
 * Roles never change within a round: one side attacks with its first
 * character on every turn, and the other side's characters defend one after
 * another. A round that runs out of draws stops and is reported unfinished.
 */
module Rounds {
  import opened Wrappers
  import opened Stats
  import opened Combat

  /** The defenders' final stats, the defending index, the log, the unused draws, and whether the round ended. */
  datatype RoundEnd = RoundEnd(defenders: seq<Stats>, index: nat, log: seq<string>, draws: seq<real>, finished: bool)

  /**
   * The round from the state where defender `index` is active: each turn
   * appends one log line and uses two draws; a defender at or below 0 HP is
   * replaced by the next one, and when there is none the round ends without
   * advancing the index.
   */
  function RoundFrom(s: Striker, defenders: seq<Stats>, index: nat, draws: seq<real>, log: seq<string>): RoundEnd
    decreases |draws|
  {
    if index >= |defenders| then RoundEnd(defenders, index, log, draws, true)
    else if |draws| < 2 then RoundEnd(defenders, index, log, draws, false)
    else
      var t := TurnOutcome(s, defenders[index], draws);
      var after := defenders[index := t.defender];
      var log' := log + [t.description];
      if t.defender.currentHp <= 0.0 then
        if index + 1 < |defenders| then RoundFrom(s, after, index + 1, draws[2..], log')
        else RoundEnd(after, index, log', draws[2..], true)
      else RoundFrom(s, after, index, draws[2..], log')
  }

  /** A whole round; with no attacker at all nothing happens. */
  function Round(attacker: Option<Striker>, defenders: seq<Stats>, draws: seq<real>): RoundEnd {
    match attacker
    case None => RoundEnd(defenders, 0, [], draws, true)
    case Some(s) => RoundFrom(s, defenders, 0, draws, [])
  }

  /**
   * Every turn appends exactly one log line and consumes exactly two draws,
   * in order; the stats list keeps its length.
   */
  lemma {:induction false} RoundShape(s: Striker, defenders: seq<Stats>, index: nat, draws: seq<real>, log: seq<string>)
    ensures var e := RoundFrom(s, defenders, index, draws, log);
      && |e.defenders| == |defenders|
      && |log| <= |e.log| && e.log[..|log|] == log
      && |draws| - |e.draws| == 2 * (|e.log| - |log|)
      && e.draws == draws[|draws| - |e.draws|..]
    decreases |draws|
  {
    if index < |defenders| && |draws| >= 2 {
      var t := TurnOutcome(s, defenders[index], draws);
      var after := defenders[index := t.defender];
      var log' := log + [t.description];
      if t.defender.currentHp <= 0.0 && index + 1 < |defenders| {
        RoundShape(s, after, index + 1, draws[2..], log');
      } else if t.defender.currentHp > 0.0 {
        RoundShape(s, after, index, draws[2..], log');
      }
      var e := RoundFrom(s, defenders, index, draws, log);
      assert e.log[..|log|] == e.log[..|log'|][..|log|];
      assert e.draws == draws[2..][|draws[2..]| - |e.draws|..];
    }
  }

  /**
   * The defending index only moves forward and stays on the roster; the
   * defenders already replaced and those not reached yet keep their stats.
   */
  lemma {:induction false} RoundIndex(s: Striker, defenders: seq<Stats>, index: nat, draws: seq<real>, log: seq<string>)
    requires index < |defenders|
    ensures var e := RoundFrom(s, defenders, index, draws, log);
      && index <= e.index < |defenders|
      && |e.defenders| == |defenders|
      && forall j :: 0 <= j < |defenders| && (j < index || e.index < j) ==> e.defenders[j] == defenders[j]
    decreases |draws|
  {
    if |draws| >= 2 {
      var t := TurnOutcome(s, defenders[index], draws);
      var after := defenders[index := t.defender];
      var log' := log + [t.description];
      if t.defender.currentHp <= 0.0 && index + 1 < |defenders| {
        RoundIndex(s, after, index + 1, draws[2..], log');
      } else if t.defender.currentHp > 0.0 {
        RoundIndex(s, after, index, draws[2..], log');
      }
    }
  }

  /**
   * A round that ends (rather than running out of draws) on a non-empty
   * roster ends on its last defender, with every defender at or below 0 HP;
   * an unfinished round has fewer than two draws left.
   */
  lemma {:induction false} RoundFinishedDefeatsAll(s: Striker, defenders: seq<Stats>, index: nat, draws: seq<real>, log: seq<string>)
    requires index < |defenders|
    requires forall j :: 0 <= j < index ==> defenders[j].currentHp <= 0.0
    ensures var e := RoundFrom(s, defenders, index, draws, log);
      && |e.defenders| == |defenders|
      && (e.finished ==> e.index == |defenders| - 1 && forall j :: 0 <= j < |defenders| ==> e.defenders[j].currentHp <= 0.0)
      && (!e.finished ==> |e.draws| < 2)
    decreases |draws|
  {
    if |draws| >= 2 {
      var t := TurnOutcome(s, defenders[index], draws);
      var after := defenders[index := t.defender];
      var log' := log + [t.description];
      if t.defender.currentHp <= 0.0 && index + 1 < |defenders| {
        RoundFinishedDefeatsAll(s, after, index + 1, draws[2..], log');
      } else if t.defender.currentHp > 0.0 {
        RoundFinishedDefeatsAll(s, after, index, draws[2..], log');
      }
    }
  }

  /** Defenders that a turn can only hurt: bounded, with armor and magic resistance at most 100. */
  predicate Hurtable(d: Stats) {
    Bounded(d) && d.armor <= 100.0 && d.magicResistance <= 100.0
  }

  /**
   * Against hurtable defenders a round only ever lowers current HP: no other
   * stat of any defender changes, and every defender stays hurtable.
   */
  lemma {:induction false} RoundOnlyLowersHp(s: Striker, defenders: seq<Stats>, index: nat, draws: seq<real>, log: seq<string>)
    requires forall j :: 0 <= j < |defenders| ==> Hurtable(defenders[j])
    ensures var e := RoundFrom(s, defenders, index, draws, log);
      && |e.defenders| == |defenders|
      && forall j :: 0 <= j < |defenders| ==>
           && Hurtable(e.defenders[j])
           && e.defenders[j] == defenders[j].(currentHp := e.defenders[j].currentHp)
           && e.defenders[j].currentHp <= defenders[j].currentHp
    decreases |draws|
  {
    if index < |defenders| && |draws| >= 2 {
      var t := TurnOutcome(s, defenders[index], draws);
      TurnOnlyLowersHp(s, defenders[index], draws);
      var after := defenders[index := t.defender];
      var log' := log + [t.description];
      if t.defender.currentHp <= 0.0 && index + 1 < |defenders| {
        RoundOnlyLowersHp(s, after, index + 1, draws[2..], log');
      } else if t.defender.currentHp > 0.0 {
        RoundOnlyLowersHp(s, after, index, draws[2..], log');
      }
    }
  }

  /**
   * Rounds need not end: if neither attack deals positive damage, a living
   * bounded defender never falls, and however many draws are supplied the
   * round runs out of them first.
   */
  lemma {:induction false} HarmlessRoundNeverEnds(s: Striker, defenders: seq<Stats>, index: nat, draws: seq<real>, log: seq<string>)
    requires s.basic.damage.physical <= 0.0 && s.basic.damage.magic <= 0.0
    requires s.special.damage.physical <= 0.0 && s.special.damage.magic <= 0.0
    requires index < |defenders| && Bounded(defenders[index]) && defenders[index].currentHp > 0.0
    ensures var e := RoundFrom(s, defenders, index, draws, log);
      !e.finished && e.index == index && e.defenders == defenders
    decreases |draws|
  {
    if |draws| >= 2 {
      var t := TurnOutcome(s, defenders[index], draws);
      AddZeroFixesBounded(defenders[index]);
      assert t.defender == defenders[index];
      assert defenders[index := t.defender] == defenders;
      HarmlessRoundNeverEnds(s, defenders, index, draws[2..], log + [t.description]);
    }
  }

}
