/**
 * One player's card (src/components/PlayerScoreCard.tsx): the score with its
 * colour and the BUST text, the turn count, the open turn and the three newest
 * closed turns (newest first) with placeholders for missing throws, the
 * correction requests a click on a throw sends, and the finish-range hint.
 */
module ScoreCard {
  import opened Wrappers
  import opened PlayData

  /** The score's flags: finished at exactly 0, bust below 0. */
  predicate IsGameFinished(score: int) {
    score == 0
  }

  predicate IsBust(score: int) {
    score < 0
  }

  datatype Colour = Green | Red | Yellow | White

  /** `getScoreColor`: the first matching rung of finished, bust, at most 50, anything else. */
  function ScoreColour(score: int): Colour {
    if IsGameFinished(score) then Green
    else if IsBust(score) then Red
    else if score <= 50 then Yellow
    else White
  }

  datatype ScoreLabel = BustLabel | Number(value: int)

  /** The big score text: BUST for a negative score, else the number. */
  function Label(score: int): ScoreLabel {
    if IsBust(score) then BustLabel else Number(score)
  }

  /** `totalTurns`: the closed turns plus one for a non-empty open turn. */
  function TotalTurns(turnHistory: seq<Turn>, currentTurnScores: Turn): nat {
    |turnHistory| + (if |currentTurnScores| > 0 then 1 else 0)
  }

  /** The hint under the score: a positive score of at most 170 for a player not finished. */
  predicate InFinishRange(score: int, isFinished: bool) {
    score <= 170 && score > 0 && !isFinished
  }

  datatype Border = FinishedBorder | ActiveBorder | PlainBorder

  /** `getCardBorderStyle` */
  function BorderStyle(isFinished: bool, isActive: bool, isGameCompleted: bool): Border {
    if isFinished then FinishedBorder
    else if isActive && !isGameCompleted then ActiveBorder
    else PlainBorder
  }

  function Reverse<T>(s: seq<T>): (r: seq<T>)
    ensures |r| == |s|
    ensures forall k :: 0 <= k < |s| ==> r[k] == s[|s| - 1 - k]
  {
    if |s| == 0 then [] else [s[|s| - 1]] + Reverse(s[..|s| - 1])
  }

  /** `turnHistory.slice(-3).reverse()`: the newest three closed turns, newest first. */
  function Shown(turnHistory: seq<Turn>): seq<Turn> {
    Reverse(turnHistory[|turnHistory| - Min(3, |turnHistory|)..])
  }

  /** The turn a shown position stands for (`actualTurnIndex`); its label is one more. */
  function ActualTurnIndex(turnHistory: seq<Turn>, position: int): int {
    |turnHistory| - position - 1
  }

  function TurnLabel(turnHistory: seq<Turn>, position: int): int {
    |turnHistory| - position
  }

  /** `Array.from({ length: 3 - n })`: a negative length gives no placeholder. */
  function Placeholders(n: int): nat {
    if 3 - n > 0 then 3 - n else 0
  }

  /** What a click on a throw asks the page to correct. */
  datatype Request = Request(playerIndex: int, turnIndex: int, throwIndex: nat)

  /** A click on throw i of the open turn: turn index -1, only with a handler and while the game runs. */
  function OpenClick(hasHandler: bool, isGameCompleted: bool, playerIndex: int, throwIndex: nat): Option<Request> {
    if hasHandler && !isGameCompleted then Some(Request(playerIndex, -1, throwIndex)) else None
  }

  /** A click on throw i of the closed turn shown at a position. */
  function ClosedClick(hasHandler: bool, isGameCompleted: bool, playerIndex: int, turnHistory: seq<Turn>,
                       position: int, throwIndex: nat): Option<Request> {
    if hasHandler && !isGameCompleted
    then Some(Request(playerIndex, ActualTurnIndex(turnHistory, position), throwIndex))
    else None
  }

  // ---------------------------------------------------------------------------
  // Lemmas
  // ---------------------------------------------------------------------------

  /**
   * The colour ladder splits the scores into four disjoint classes, and BUST is
   * shown exactly for the red ones.
   */
  lemma ColourLadder(score: int)
    ensures ScoreColour(score) == Green <==> score == 0
    ensures ScoreColour(score) == Red <==> score < 0
    ensures ScoreColour(score) == Yellow <==> 0 < score <= 50
    ensures ScoreColour(score) == White <==> score > 50
    ensures Label(score) == BustLabel <==> ScoreColour(score) == Red
    ensures Label(score) != BustLabel ==> Label(score) == Number(score)
  {
  }

  /** The finish-range hint is never shown with a finished or a bust score. */
  lemma FinishRangeExcludesFlags(score: int, isFinished: bool)
    ensures InFinishRange(score, isFinished) ==> !IsGameFinished(score) && !IsBust(score) && ScoreColour(score) != Green
    ensures InFinishRange(score, isFinished) <==> 1 <= score <= 170 && !isFinished
  {
  }

  /**
   * The card shows min(3, n) closed turns; position k is turn n-k-1, labelled
   * n-k, so the newest turn comes first and labels fall by one per row.
   */
  lemma {:induction false} ShownNewestFirst(turnHistory: seq<Turn>)
    ensures |Shown(turnHistory)| == Min(3, |turnHistory|)
    ensures forall k :: 0 <= k < |Shown(turnHistory)| ==>
      0 <= ActualTurnIndex(turnHistory, k) < |turnHistory|
      && Shown(turnHistory)[k] == turnHistory[ActualTurnIndex(turnHistory, k)]
      && TurnLabel(turnHistory, k) == ActualTurnIndex(turnHistory, k) + 1
    ensures |turnHistory| > 0 ==> Shown(turnHistory)[0] == turnHistory[|turnHistory| - 1]
    ensures |turnHistory| >= 3 ==> Shown(turnHistory) == [turnHistory[|turnHistory| - 1], turnHistory[|turnHistory| - 2], turnHistory[|turnHistory| - 3]]
  {
    var n := |turnHistory|;
    var tail := turnHistory[n - Min(3, n)..];
    assert |tail| == Min(3, n);
  }

  /** A turn of at most three throws is padded to exactly three slots; a longer one gets none. */
  lemma PlaceholdersFill(n: nat)
    ensures n <= 3 ==> n + Placeholders(n) == 3
    ensures n >= 3 ==> Placeholders(n) == 0
  {
  }

  /** The turn count counts an open turn once it holds a throw. */
  lemma TotalTurnsCountsOpenTurn(turnHistory: seq<Turn>, currentTurnScores: Turn)
    ensures TotalTurns(turnHistory, currentTurnScores) == |turnHistory| <==> |currentTurnScores| == 0
    ensures TotalTurns(turnHistory, currentTurnScores) <= |turnHistory| + 1
  {
  }

  /**
   * A click on a shown closed throw requests the correction of that very throw:
   * the value the page reports for the request is the value the card shows,
   * and giving it a new value writes that slot of that turn and nothing else.
   */
  lemma ClosedClickAddressesShownThrow(st: GameState, p: nat, position: nat, i: nat, v: int)
    requires position < |Shown(PlayerTurns(st.data, p))| && i < |Shown(PlayerTurns(st.data, p))[position]|
    requires !st.completed
    ensures var th := PlayerTurns(st.data, p);
      ClosedClick(true, st.completed, p, th, position, i).Some?
      && var r := ClosedClick(true, st.completed, p, th, position, i).value;
         r.turnIndex >= 0
         && SlotValue(st, p, r.turnIndex, i) == Shown(th)[position][i]
         && var s := Correct(st, p, r.turnIndex, i, v);
            ReadSlot(PlayerTurns(s.data, p)[r.turnIndex], i) == v
            && ClosedSum(s.data, p) == ClosedSum(st.data, p) - Shown(th)[position][i] + v
            && (forall q :: q != p ==> PlayerTurns(s.data, q) == PlayerTurns(st.data, q))
  {
    var th := PlayerTurns(st.data, p);
    ShownNewestFirst(th);
    var t := ActualTurnIndex(th, position);
    assert Shown(th)[position] == th[t];
    CorrectClosedTurn(st, p, t, i, v);
  }

  /** A click on a throw of the open turn requests that throw, and a correction rewrites only it. */
  lemma OpenClickAddressesOpenThrow(st: GameState, p: nat, i: nat, v: int)
    requires i < |st.open| && !st.completed
    ensures OpenClick(true, st.completed, p, i) == Some(Request(p, -1, i))
    ensures SlotValue(st, p, -1, i) == st.open[i]
    ensures Sum(Correct(st, p, -1, i, v).open) == Sum(st.open) - st.open[i] + v
  {
    CorrectOpenTurn(st, p, i, v);
  }

  /** Without a handler, or once the game is completed, no click requests anything. */
  lemma NoClickWhenLocked(hasHandler: bool, isGameCompleted: bool, p: int, th: seq<Turn>, position: int, i: nat)
    ensures !hasHandler || isGameCompleted ==>
      OpenClick(hasHandler, isGameCompleted, p, i) == None && ClosedClick(hasHandler, isGameCompleted, p, th, position, i) == None
    ensures hasHandler && !isGameCompleted ==>
      OpenClick(hasHandler, isGameCompleted, p, i).Some? && ClosedClick(hasHandler, isGameCompleted, p, th, position, i).Some?
  {
  }
}
