/**
 * The score panel (src/components/GameScoreDisplay.tsx): from the page's play
 * data it computes, per player, the displayed score, the flattened history and
 * the turn list, and builds the cards it renders (one synthetic card when it is
 * given no players).
 */
module ScoreDisplay {
  import opened Players
  import opened PlayData
  import Countdown
  import CountUp
  import ScoreCard

  /**
   * The props of the panel. A prop left out takes the component's default:
   * `initialScore` 501, `singlePlayerCurrentThrow` 1, `currentPlayerIndex` 0 and
   * empty lists. An absent `singlePlayerScore` or name is falsy and is written
   * as 0 or "". `FromGame` fills every field the pages pass.
   */
  datatype Props = Props(
    singlePlayerName: string,
    singlePlayerScore: int,
    singlePlayerGameHistory: seq<int>,
    singlePlayerCurrentThrow: int,
    singlePlayerCurrentTurnScores: seq<int>,
    singlePlayerTurnHistory: seq<Turn>,
    players: seq<Player>,
    currentPlayerIndex: int,
    gamePlayData: Data,
    currentTurnData: Turn,
    gameCompleted: bool,
    initialScore: int)

  /** The open turn's sum where the panel subtracts it: only when it is non-empty. */
  function OpenSum(open: Turn): int {
    if |open| > 0 then Sum(open) else 0
  }

  /**
   * `calculatePlayerScore`: with a turn list, the start score minus the closed
   * sum and, for the current player, the open sum; else the player's own score;
   * else the single-player score (or the start score when that is 0) minus the open sum.
   */
  function PlayerScore(pr: Props, i: int): int {
    if 0 <= i < |pr.gamePlayData| then
      pr.initialScore - ClosedSum(pr.gamePlayData, i) - (if i == pr.currentPlayerIndex then OpenSum(pr.currentTurnData) else 0)
    else if 0 <= i < |pr.players| then pr.players[i].score
    else (if pr.singlePlayerScore != 0 then pr.singlePlayerScore else pr.initialScore) - OpenSum(pr.currentTurnData)
  }

  /** `getPlayerGameHistory` */
  function GameHistory(pr: Props, i: int): seq<int> {
    if 0 <= i < |pr.gamePlayData| then Flatten(pr.gamePlayData[i])
    else if 0 <= i < |pr.players| then pr.players[i].gameHistory
    else pr.singlePlayerGameHistory
  }

  /** `getPlayerTurnHistory` */
  function TurnHistory(pr: Props, i: int): seq<Turn> {
    if 0 <= i < |pr.gamePlayData| then pr.gamePlayData[i]
    else if 0 <= i < |pr.players| then pr.players[i].turnHistory
    else pr.singlePlayerTurnHistory
  }

  /** `playersToDisplay` */
  function PlayersToDisplay(pr: Props): seq<Player> {
    if |pr.players| == 0 then
      [Player("single-player", if pr.singlePlayerName != "" then pr.singlePlayerName else "プレイヤー1",
              PlayerScore(pr, 0), true, GameHistory(pr, 0), PlayerScore(pr, 0) == 0,
              pr.singlePlayerCurrentThrow,
              if |pr.currentTurnData| > 0 then pr.currentTurnData else pr.singlePlayerCurrentTurnScores,
              TurnHistory(pr, 0))]
    else
      seq(|pr.players|, i requires 0 <= i < |pr.players| =>
        pr.players[i].(score := PlayerScore(pr, i), gameHistory := GameHistory(pr, i), turnHistory := TurnHistory(pr, i),
                       currentTurnScores := if i == pr.currentPlayerIndex && |pr.currentTurnData| > 0 then pr.currentTurnData
                                            else pr.players[i].currentTurnScores))
  }

  /** The player index a card passes to corrections: its position with several players, else 0. */
  function CardPlayerIndex(pr: Props, position: nat): nat {
    if |pr.players| > 1 then position else 0
  }

  /** The props a game page passes, for its state, start score and single-player score. */
  function FromGame(st: GameState, initial: int, singleScore: int): Props {
    Props("プレイヤー1", singleScore, Flatten(PlayerTurns(st.data, 0)), st.throw, st.open, PlayerTurns(st.data, 0),
          st.players, st.current, st.data, st.open, st.completed, initial)
  }

  // ---------------------------------------------------------------------------
  // Lemmas
  // ---------------------------------------------------------------------------

  /**
   * On a 501 or 301 page the panel shows the live score: the engine's
   * closed-turn score minus the open turn for the current player only.
   */
  lemma DisplayIsLiveScore(st: GameState, target: int, singleScore: int, p: int)
    requires 0 <= p < |st.data| && !st.completed && Slot(st) == st.current
    ensures PlayerScore(FromGame(st, target, singleScore), p) == Countdown.LiveScore(st, p, target)
    ensures p != st.current ==> PlayerScore(FromGame(st, target, singleScore), p) == Countdown.Score(st.data, p, target)
    ensures p == st.current ==> PlayerScore(FromGame(st, target, singleScore), p) == Countdown.Score(st.data, p, target) - Sum(st.open)
  {
  }

  /** On the count-up page the start score is 0, so the panel shows the negated total. */
  lemma CountUpDisplayIsNegatedTotal(st: GameState, singleScore: int, p: int)
    requires 0 <= p < |st.data|
    ensures PlayerScore(FromGame(st, 0, singleScore), p) == -CountUp.Total(st, p)
  {
  }

  /**
   * On the count-up page the cards receive the negated total, so every player
   * who has scored is shown in red as BUST, and a player on 0 in green as
   * finished, for as long as the game runs.
   */
  lemma CountUpCardsShowBust(st: GameState, singleScore: int, p: int)
    requires 0 <= p < |st.data|
    ensures var shown := PlayerScore(FromGame(st, 0, singleScore), p);
      (CountUp.Total(st, p) > 0 ==> ScoreCard.ScoreColour(shown) == ScoreCard.Red && ScoreCard.Label(shown) == ScoreCard.BustLabel)
      && (CountUp.Total(st, p) == 0 ==> ScoreCard.ScoreColour(shown) == ScoreCard.Green && ScoreCard.IsGameFinished(shown))
  {
    CountUpDisplayIsNegatedTotal(st, singleScore, p);
    ScoreCard.ColourLadder(PlayerScore(FromGame(st, 0, singleScore), p));
  }

  /**
   * Without a turn list the player's own score is shown; with neither, the
   * single-player score minus the open sum, and a single-player score of 0
   * falls back to the start score.
   */
  lemma ScoreFallbacks(pr: Props, i: int)
    requires !(0 <= i < |pr.gamePlayData|)
    ensures 0 <= i < |pr.players| ==> PlayerScore(pr, i) == pr.players[i].score
    ensures !(0 <= i < |pr.players|) && pr.singlePlayerScore == 0 ==>
      PlayerScore(pr, i) == pr.initialScore - OpenSum(pr.currentTurnData)
    ensures !(0 <= i < |pr.players|) && pr.singlePlayerScore != 0 ==>
      PlayerScore(pr, i) == pr.singlePlayerScore - OpenSum(pr.currentTurnData)
  {
  }

  /** The history shown is exactly the player's turns concatenated, and the turn list is the list itself. */
  lemma HistoriesFromPlayData(pr: Props, i: int)
    requires 0 <= i < |pr.gamePlayData|
    ensures GameHistory(pr, i) == Flatten(TurnHistory(pr, i))
    ensures Sum(GameHistory(pr, i)) == ClosedSum(pr.gamePlayData, i)
    ensures pr.initialScore - PlayerScore(pr, i) == Sum(GameHistory(pr, i)) + (if i == pr.currentPlayerIndex then OpenSum(pr.currentTurnData) else 0)
  {
  }

  /**
   * Without players the panel builds one active card, named after the given
   * name or "プレイヤー1", finished iff its score is 0; with players it builds
   * one card per player keeping identity and flags, and only the current
   * player's card takes the open turn, when it is non-empty.
   */
  lemma PlayersToDisplayShape(pr: Props)
    ensures var r := PlayersToDisplay(pr);
      (|pr.players| == 0 ==>
         |r| == 1 && r[0].id == "single-player" && r[0].isActive && (r[0].isFinished <==> PlayerScore(pr, 0) == 0)
         && r[0].name == (if pr.singlePlayerName != "" then pr.singlePlayerName else "プレイヤー1"))
      && (|pr.players| > 0 ==>
         |r| == |pr.players|
         && forall i :: 0 <= i < |r| ==>
              r[i].id == pr.players[i].id && r[i].name == pr.players[i].name
              && r[i].isActive == pr.players[i].isActive && r[i].isFinished == pr.players[i].isFinished
              && r[i].score == PlayerScore(pr, i) && r[i].turnHistory == TurnHistory(pr, i)
              && (r[i].currentTurnScores == pr.currentTurnData
                   || (r[i].currentTurnScores == pr.players[i].currentTurnScores && !(i == pr.currentPlayerIndex && |pr.currentTurnData| > 0)))
              && (i == pr.currentPlayerIndex && |pr.currentTurnData| > 0 ==> r[i].currentTurnScores == pr.currentTurnData))
  {
  }

  /** A card's correction requests address the turn list that card shows. */
  lemma CardIndexAddressesShownTurns(pr: Props, position: nat)
    requires position < |PlayersToDisplay(pr)|
    ensures TurnHistory(pr, CardPlayerIndex(pr, position)) == PlayersToDisplay(pr)[position].turnHistory
  {
  }

  // ---------------------------------------------------------------------------
  // The winner's card after a finish
  // ---------------------------------------------------------------------------

  /**
   * After a 501 or 301 finish the open turn is kept although it was also
   * appended, so the panel subtracts it twice: once the engine accepts a
   * finish (closed-turn score equal to the throw) the winner's shown score is
   * minus the throw minus twice the other open throws, below 0.
   */
  lemma FinishedWinnerShownNegative(st: GameState, target: int, singleScore: int, points: int)
    requires IndexOk(st) && Slot(st) == st.current && st.current < |st.data|
    requires Countdown.Score(st.data, st.current, target) == points && points > 0 && Sum(st.open) >= 0
    ensures var s := Countdown.AfterFinish(st, points);
      PlayerScore(FromGame(s, target, singleScore), st.current) == -points - 2 * Sum(st.open)
      && PlayerScore(FromGame(s, target, singleScore), st.current) < 0
  {
    Countdown.AfterFinishFacts(st, points);
    SumAppend(st.open, [points]);
    assert Sum([points]) == points + Sum([]);
  }

  /** The score as evidently intended: the open turn is subtracted only while the game runs. */
  function SettledScore(pr: Props, i: int): int {
    if pr.gameCompleted && 0 <= i < |pr.gamePlayData| then pr.initialScore - ClosedSum(pr.gamePlayData, i)
    else PlayerScore(pr, i)
  }

  /**
   * The intended score agrees with the panel during play, and after a finish
   * reached on the live score (closed turns, open turn and the throw summing to
   * the start score) it shows the winner at exactly 0.
   */
  lemma SettledScoreShowsFinish(st: GameState, target: int, singleScore: int, points: int)
    requires IndexOk(st) && Slot(st) == st.current && st.current < |st.data|
    requires Countdown.Score(st.data, st.current, target) - Sum(st.open) - points == 0
    ensures forall pr: Props, i :: !pr.gameCompleted ==> SettledScore(pr, i) == PlayerScore(pr, i)
    ensures SettledScore(FromGame(Countdown.AfterFinish(st, points), target, singleScore), st.current) == 0
  {
    Countdown.AfterFinishFacts(st, points);
  }
}
