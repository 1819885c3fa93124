/**
 * A match computed over values: the rounds in order, each starting on the
 * draws the previous one left, and the points and log they add up to.
 */
module Matches {
  import opened Wrappers
  import opened Stats
  import opened Combat
  import opened Rounds

  /** What a round starts from: its attacker (if any) and its defenders' stats. */
  datatype Opening = Opening(attacker: Option<Striker>, defenders: seq<Stats>)

  /** The rounds of a match, in order; the first starts on `draws`. */
  function Play(openings: seq<Opening>, draws: seq<real>): (r: seq<RoundEnd>)
    ensures |r| == |openings|
    decreases |openings|
  {
    if openings == [] then []
    else
      var e := Round(openings[0].attacker, openings[0].defenders, draws);
      [e] + Play(openings[1..], e.draws)
  }

  /** The draws left after `rounds`, which started on `draws`. */
  function DrawsAfter(rounds: seq<RoundEnd>, draws: seq<real>): seq<real> {
    if rounds == [] then draws else rounds[|rounds| - 1].draws
  }

  /**
   * The round result `yourIndex > opponentIndex`: the attacking side never
   * moves off its first character, so only the defending index can grow.
   */
  predicate Won(isYourTurnFirst: bool, e: RoundEnd) {
    !isYourTurnFirst && e.index > 0
  }

  /** Your points: the rounds you won. */
  function Wins(isYourTurnFirst: bool, rounds: seq<RoundEnd>): (r: nat)
    ensures r <= |rounds|
  {
    if rounds == [] then 0
    else Wins(isYourTurnFirst, rounds[..|rounds| - 1]) + (if Won(isYourTurnFirst, rounds[|rounds| - 1]) then 1 else 0)
  }

  /** The match log: the round logs one after another. */
  function Logs(rounds: seq<RoundEnd>): seq<string> {
    if rounds == [] then [] else Logs(rounds[..|rounds| - 1]) + rounds[|rounds| - 1].log
  }

  /** `your_points > opponent_points`, where every round gives a point to one side. */
  predicate MatchWon(isYourTurnFirst: bool, rounds: seq<RoundEnd>) {
    Wins(isYourTurnFirst, rounds) > |rounds| - Wins(isYourTurnFirst, rounds)
  }

  /**
   * Whoever moves first in the match cannot score: you win no round and so
   * not the match. Over `Won` this is a plain induction, since `Won(true, _)`
   * is false by definition; the substance lies in `Engine.PlayRound`, whose
   * loop invariant keeps the attacking side's index at 0 and whose ensures
   * ties `yourIndex > opponentIndex` to `Won`.
   */
  lemma {:induction false} FirstMoverScoresNothing(rounds: seq<RoundEnd>)
    ensures Wins(true, rounds) == 0
    ensures !MatchWon(true, rounds)
  {
    if rounds != [] {
      FirstMoverScoresNothing(rounds[..|rounds| - 1]);
    }
  }

  /** One more round is played on the draws the others left. */
  lemma {:induction false} PlaySnoc(openings: seq<Opening>, draws: seq<real>, o: Opening)
    ensures var r := Play(openings, draws);
      Play(openings + [o], draws) == r + [Round(o.attacker, o.defenders, DrawsAfter(r, draws))]
    decreases |openings|
  {
    if openings != [] {
      var e := Round(openings[0].attacker, openings[0].defenders, draws);
      assert (openings + [o])[1..] == openings[1..] + [o];
      PlaySnoc(openings[1..], e.draws, o);
      var tail := Play(openings[1..], e.draws);
      if tail != [] {
        assert DrawsAfter([e] + tail, draws) == DrawsAfter(tail, e.draws);
      }
    }
  }

  /**
   * Playing one more opening adds its round, played on the draws the others
   * left: the draws are then those it left, its log is appended, and it adds
   * at most one point.
   */
  lemma PlayOneMore(isYourTurnFirst: bool, openings: seq<Opening>, draws: seq<real>, i: nat, e: RoundEnd)
    requires i < |openings|
    requires e == Round(openings[i].attacker, openings[i].defenders, DrawsAfter(Play(openings[..i], draws), draws))
    ensures var r := Play(openings[..i], draws);
      && Play(openings[..i + 1], draws) == r + [e]
      && DrawsAfter(r + [e], draws) == e.draws
      && Logs(r + [e]) == Logs(r) + e.log
      && Wins(isYourTurnFirst, r + [e]) == Wins(isYourTurnFirst, r) + (if Won(isYourTurnFirst, e) then 1 else 0)
  {
    assert openings[..i + 1] == openings[..i] + [openings[i]];
    PlaySnoc(openings[..i], draws, openings[i]);
    AppendRound(isYourTurnFirst, Play(openings[..i], draws), e);
  }

  /** Appending one round's result adds its log and at most one point. */
  lemma AppendRound(isYourTurnFirst: bool, rounds: seq<RoundEnd>, e: RoundEnd)
    ensures Logs(rounds + [e]) == Logs(rounds) + e.log
    ensures Wins(isYourTurnFirst, rounds + [e]) == Wins(isYourTurnFirst, rounds) + (if Won(isYourTurnFirst, e) then 1 else 0)
  {
    assert (rounds + [e])[..|rounds|] == rounds;
  }

  /**
   * Which round comes before which: every round ends where the next one
   * starts, and the first starts on the draws it was given.
   */
  lemma {:induction false} PlayChains(openings: seq<Opening>, draws: seq<real>, k: nat)
    requires k < |openings|
    ensures var r := Play(openings, draws);
      r[k] == Round(openings[k].attacker, openings[k].defenders, DrawsAfter(r[..k], draws))
    decreases k
  {
    if k > 0 {
      var e := Round(openings[0].attacker, openings[0].defenders, draws);
      PlayChains(openings[1..], e.draws, k - 1);
      var r := Play(openings, draws);
      assert r[1..] == Play(openings[1..], e.draws);
      if k > 1 {
        assert r[1..][..k - 1] == r[1..k];
        assert r[..k][|r[..k]| - 1] == r[1..][..k - 1][k - 2];
      }
    }
  }

  /**
   * Every logged turn of the match used exactly two draws, and the draws
   * left over are a suffix of those supplied.
   */
  lemma {:induction false} MatchUsesTwoDrawsPerTurn(openings: seq<Opening>, draws: seq<real>)
    ensures var r := Play(openings, draws);
      var rest := DrawsAfter(r, draws);
      && |draws| - |rest| == 2 * |Logs(r)|
      && rest == draws[|draws| - |rest|..]
    decreases |openings|
  {
    if openings != [] {
      var e := Round(openings[0].attacker, openings[0].defenders, draws);
      if openings[0].attacker.Some? {
        RoundShape(openings[0].attacker.value, openings[0].defenders, 0, draws, []);
      }
      MatchUsesTwoDrawsPerTurn(openings[1..], e.draws);
      var r := Play(openings, draws);
      var tail := Play(openings[1..], e.draws);
      assert r == [e] + tail;
      LogsCons(e, tail);
      if tail != [] {
        assert DrawsAfter(r, draws) == DrawsAfter(tail, e.draws);
      }
    }
  }

  /** The log of a round followed by more rounds. */
  lemma {:induction false} LogsCons(e: RoundEnd, rounds: seq<RoundEnd>)
    ensures Logs([e] + rounds) == e.log + Logs(rounds)
    decreases |rounds|
  {
    if rounds != [] {
      var front := rounds[..|rounds| - 1];
      LogsCons(e, front);
      assert ([e] + rounds)[..|rounds|] == [e] + front;
    }
  }

}
