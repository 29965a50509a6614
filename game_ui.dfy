/**
 * The game's panels (`GameUI`): the phase panels, the score counted from the
 * board, and the result decided from the scores written on the scoreboard.
 */
module UI {
  import opened Common
  import opened JsText
  import opened Tiles
  import opened Board
  import opened Client

  /** How many tiles have type t, counted from the front. */
  function CountType(types: seq<int>, t: int): nat
    decreases |types|
  {
    if types == [] then 0
    else CountType(types[..|types| - 1], t) + if types[|types| - 1] == t then 1 else 0
  }

  /** The count is the number of occurrences of t. */
  lemma {:induction false} CountTypeIsOccurrences(types: seq<int>, t: int)
    ensures CountType(types, t) == multiset(types)[t]
    decreases |types|
  {
    if types != [] {
      var init := types[..|types| - 1];
      CountTypeIsOccurrences(init, t);
      assert types == init + [types[|types| - 1]];
    }
  }

  /** A tile counts for at most one team, so the two scores never exceed the board size. */
  lemma {:induction false} ScoresBounded(types: seq<int>)
    ensures CountType(types, RedType) + CountType(types, PurpleType) <= |types|
    decreases |types|
  {
    if types != [] {
      ScoresBounded(types[..|types| - 1]);
    }
  }

  /**
   * The user `GetWinnerUserId` settles on: the last entry, in iteration
   * order, whose team is t (later matches overwrite earlier ones).
   */
  function LastOnTeam(teams: seq<TeamEntry>, t: int): (r: Option<string>)
    ensures r.None? <==> forall i :: 0 <= i < |teams| ==> teams[i].team != t
    ensures r.Some? ==>
      exists i :: 0 <= i < |teams| && teams[i] == TeamEntry(r.value, t) &&
                  forall j :: i < j < |teams| ==> teams[j].team != t
    decreases |teams|
  {
    if teams == [] then None
    else if teams[|teams| - 1].team == t then Some(teams[|teams| - 1].name)
    else LastOnTeam(teams[..|teams| - 1], t)
  }

  datatype Outcome = RedWins | PurpleWins | Draw

  /**
   * `SetResult`'s choice from the two scores as `Number` reads them. A score
   * that is NaN (None) makes both comparisons false, hence a draw.
   */
  function Decide(red: Option<nat>, purple: Option<nat>): (o: Outcome)
    ensures o == RedWins <==> red.Some? && purple.Some? && red.value > purple.value
    ensures o == PurpleWins <==> red.Some? && purple.Some? && purple.value > red.value
    ensures o == Draw <==> red.None? || purple.None? || red.value == purple.value
  {
    if red.Some? && purple.Some? && red.value > purple.value then RedWins
    else if red.Some? && purple.Some? && purple.value > red.value then PurpleWins
    else Draw
  }

  /** Scores written with `toString` decide the result exactly as the counts themselves would. */
  lemma ScoresReadBack(red: nat, purple: nat)
    ensures Decide(NumberOf(NatToString(red)), NumberOf(NatToString(purple))) == Decide(Some(red), Some(purple))
  {
    NumberOfNatToString(red);
    NumberOfNatToString(purple);
  }

  class GameUI {
    var gameReadyActive: bool
    var gameStartActive: bool
    var gameFinishActive: bool
    var scoreboardActive: bool
    var resultActive: bool
    var resultWinActive: bool
    var resultDrawActive: bool
    /** The text of the two score labels. */
    var redTeamScore: string
    var purpleTeamScore: string
    var winTitleText: string
    /** The user whose name and portrait the win panel shows. */
    var winnerUserId: Option<string>

    method OnOffGameReady(on: bool)
      modifies this`gameReadyActive, this`gameStartActive, this`gameFinishActive
      ensures gameReadyActive == on && gameStartActive == !on && gameFinishActive == !on
    {
      gameReadyActive := on;
      gameStartActive := !on;
      gameFinishActive := !on;
    }

    method OnOffGameStart(on: bool)
      modifies this`gameReadyActive, this`gameStartActive, this`gameFinishActive
      ensures gameReadyActive == !on && gameStartActive == on && gameFinishActive == !on
    {
      gameReadyActive := !on;
      gameStartActive := on;
      gameFinishActive := !on;
    }

    method OnOffScoreboard(on: bool)
      modifies this`scoreboardActive
      ensures scoreboardActive == on
    {
      scoreboardActive := on;
    }

    method OnOffGameFinish(on: bool)
      modifies this`gameReadyActive, this`gameStartActive, this`gameFinishActive
      ensures gameReadyActive == !on && gameStartActive == !on && gameFinishActive == on
    {
      gameReadyActive := !on;
      gameStartActive := !on;
      gameFinishActive := on;
    }

    /** Writes the number of Red and of Purple tiles on the board to the score labels. */
    method UpdateScore(ground: GroundManager)
      modifies this`redTeamScore, this`purpleTeamScore
      ensures redTeamScore == NatToString(CountType(ground.Types(), RedType))
      ensures purpleTeamScore == NatToString(CountType(ground.Types(), PurpleType))
    {
      var red, purple := 0, 0;
      ghost var types := ground.Types();
      for i := 0 to |ground.groundList|
        invariant red == CountType(types[..i], RedType)
        invariant purple == CountType(types[..i], PurpleType)
      {
        var t := ground.groundList[i].GetType();
        assert types[..i + 1][..i] == types[..i];
        if t == RedType {
          red := red + 1;
        } else if t == PurpleType {
          purple := purple + 1;
        }
      }
      assert types[..|ground.groundList|] == types;
      redTeamScore := NatToString(red);
      purpleTeamScore := NatToString(purple);
    }

    method ResetScoreboard()
      modifies this`redTeamScore, this`purpleTeamScore
      ensures redTeamScore == "0" && purpleTeamScore == "0"
      ensures NumberOf(redTeamScore) == Some(0) && NumberOf(purpleTeamScore) == Some(0)
    {
      redTeamScore := "0";
      purpleTeamScore := "0";
    }

    /** The last user, in the team list's iteration order, on team `winTeam`; None if nobody is. */
    method GetWinnerUserId(teams: seq<TeamEntry>, winTeam: int) returns (winner: Option<string>)
      ensures winner == LastOnTeam(teams, winTeam)
      ensures winner.None? <==> forall i :: 0 <= i < |teams| ==> teams[i].team != winTeam
      ensures winner.Some? ==>
        exists i :: 0 <= i < |teams| && teams[i] == TeamEntry(winner.value, winTeam) &&
                    forall j :: i < j < |teams| ==> teams[j].team != winTeam
    {
      winner := None;
      ghost var at := 0;
      for k := 0 to |teams|
        invariant winner == LastOnTeam(teams[..k], winTeam)
        invariant winner.None? <==> forall i :: 0 <= i < k ==> teams[i].team != winTeam
        invariant winner.Some? ==>
          && 0 <= at < k && teams[at] == TeamEntry(winner.value, winTeam)
          && forall j :: at < j < k ==> teams[j].team != winTeam
      {
        assert teams[..k + 1][..k] == teams[..k];
        if teams[k].team == winTeam {
          winner := Some(teams[k].name);
          at := k;
        }
      }
      assert teams[..|teams|] == teams;
    }

    method DisableResult()
      modifies this`resultWinActive, this`resultDrawActive, this`resultActive
      ensures !resultWinActive && !resultDrawActive && !resultActive
    {
      resultWinActive := false;
      resultDrawActive := false;
      resultActive := false;
    }

    /**
     * Shows the result decided from the score labels. A win names its team
     * and shows that team's player; a draw shows only the draw panel.
     * Panels not named here keep their state.
     */
    method SetResult(teams: seq<TeamEntry>)
      modifies this`winTitleText, this`winnerUserId, this`resultActive, this`resultWinActive, this`resultDrawActive
      ensures resultActive
      ensures var o := Decide(NumberOf(redTeamScore), NumberOf(purpleTeamScore));
        && (o == RedWins ==> winTitleText == "Red Team Wins!" && winnerUserId == LastOnTeam(teams, RedType)
                             && resultWinActive && resultDrawActive == old(resultDrawActive))
        && (o == PurpleWins ==> winTitleText == "Purple Team Wins!" && winnerUserId == LastOnTeam(teams, PurpleType)
                                && resultWinActive && resultDrawActive == old(resultDrawActive))
        && (o == Draw ==> resultDrawActive && resultWinActive == old(resultWinActive)
                          && winTitleText == old(winTitleText) && winnerUserId == old(winnerUserId))
    {
      var redScore := NumberOf(redTeamScore);
      var purpleScore := NumberOf(purpleTeamScore);
      if redScore.Some? && purpleScore.Some? && redScore.value > purpleScore.value {
        winnerUserId := GetWinnerUserId(teams, RedType);
        winTitleText := "Red Team Wins!";
        resultActive := true;
        resultWinActive := true;
      } else if redScore.Some? && purpleScore.Some? && purpleScore.value > redScore.value {
        winnerUserId := GetWinnerUserId(teams, PurpleType);
        winTitleText := "Purple Team Wins!";
        resultActive := true;
        resultWinActive := true;
      } else {
        resultActive := true;
        resultDrawActive := true;
      }
    }
  }
}
