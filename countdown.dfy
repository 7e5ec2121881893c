/**
 * The rules the 501 and 301 pages write identically: the remaining score of a
 * player, the bust test, what a bust, a finish and a turn close do to the play
 * data, the winner record, and the eligibility test `nextPlayer` uses.
 */
module Countdown {
  import opened Wrappers
  import opened Players
  import opened PlayData
  import opened Rotation

  /**
   * `getCurrentPlayerScore`: the start score minus every throw of the player's
   * closed turns. The open turn is not subtracted.
   */
  function Score(data: Data, p: int, target: int): int {
    if !(0 <= p < |data|) then target else target - Sum(Flatten(data[p]))
  }

  /** The remaining score with the open turn subtracted for the player it belongs to. */
  function LiveScore(st: GameState, p: int, target: int): int {
    Score(st.data, p, target) - (if p == Slot(st) && !st.completed then Sum(st.open) else 0)
  }

  /** `newScore < 0 || newScore === 1` */
  predicate Busts(newScore: int) {
    newScore < 0 || newScore == 1
  }

  /** The players `nextPlayer` may move to: those with a positive remaining score. */
  function Eligible(data: Data, n: nat, target: int): seq<bool> {
    seq(n, i requires 0 <= i < n => Score(data, i, target) > 0)
  }

  /** `nextPlayer`: rotation moves only when at least two players still have a positive score. */
  function NextPlayer(st: GameState, target: int): GameState
    requires IndexOk(st)
  {
    Rotate(st, Eligible(st.data, |st.players|, target), 2)
  }

  /**
   * A bust: the open throws, if any, become a closed turn (the busting throw is
   * not recorded), the open turn empties, the counter restarts, and play rotates
   * when there are several players.
   */
  function AfterBust(st: GameState, target: int): GameState
    requires IndexOk(st)
  {
    var pi := Slot(st);
    var d := if |st.open| > 0 then AppendTurn(st.data, pi, st.open) else EnsurePlayer(st.data, pi);
    var s := st.(data := d, open := [], throw := 1);
    if |st.players| > 1 then NextPlayer(s, target) else s
  }

  /**
   * The winner record a finish builds. Its history is the player's flattened
   * turns read after the finishing turn was pushed, with the finishing throw
   * concatenated once more.
   */
  function WinnerRecord(st: GameState, d: Data, points: int): Player
    requires IndexOk(st)
  {
    var multi := |st.players| > 1;
    var pi := Slot(st);
    Player(
      if multi then st.players[st.current].id else "single-player",
      if multi then st.players[st.current].name else "プレイヤー1",
      0, false,
      (if pi < |st.data| then Flatten(PlayerTurns(d, pi)) else []) + [points],
      true, 1, [], PlayerTurns(d, pi))
  }

  /**
   * A finish: the open turn with the finishing throw is appended (and stays
   * being the open turn), the game is completed and the winner recorded; there
   * is no rotation.
   */
  function AfterFinish(st: GameState, points: int): GameState
    requires IndexOk(st)
  {
    var t := st.open + [points];
    var d := AppendTurn(st.data, Slot(st), t);
    st.(data := d, open := t, completed := true, winner := Some(WinnerRecord(st, d, points)))
  }

  /** Closing the open turn: it is appended, the open turn empties, the counter restarts, and play rotates with several players. */
  function CloseTurn(st: GameState, target: int): GameState
    requires IndexOk(st)
  {
    var s := st.(data := AppendTurn(st.data, Slot(st), st.open), open := [], throw := 1);
    if |st.players| > 1 then NextPlayer(s, target) else s
  }

  // ---------------------------------------------------------------------------
  // Lemmas
  // ---------------------------------------------------------------------------

  /** The remaining score is the start score minus the closed sum. */
  lemma ScoreIsTargetMinusClosed(data: Data, p: int, target: int)
    ensures Score(data, p, target) == target - ClosedSum(data, p)
  {
  }

  /** Appending a turn lowers that player's remaining score by its sum and leaves the others. */
  lemma LiveAfterAppend(st: GameState, s: GameState, pi: nat, t: Turn, target: int)
    requires Slot(st) == pi && s.data == AppendTurn(st.data, pi, t)
    ensures Score(s.data, pi, target) == Score(st.data, pi, target) - Sum(t)
    ensures forall q :: q != pi ==> Score(s.data, q, target) == Score(st.data, q, target)
  {
    AppendTurnFacts(st.data, pi, t);
    forall q | q != pi
      ensures Score(s.data, q, target) == Score(st.data, q, target)
    {
      assert PlayerTurns(s.data, q) == PlayerTurns(st.data, q);
    }
  }

  /**
   * `nextPlayer` in the countdown games: either nothing changes, or play moves
   * to a different player whose remaining score is positive, the nearest such
   * successor; that player alone is active with counter 1; the play data stay.
   */
  lemma NextPlayerFacts(st: GameState, target: int)
    requires IndexOk(st)
    ensures var s := NextPlayer(st, target); var n := |st.players|;
      IndexOk(s) && s.data == st.data && s.open == st.open && s.completed == st.completed
      && s.winner == st.winner && |s.players| == n
      && ((st.completed || n <= 1 || CountTrue(Eligible(st.data, n, target)) <= 1) ==> s == st)
      && (!(st.completed || n <= 1 || CountTrue(Eligible(st.data, n, target)) <= 1) ==>
            s.current != st.current && Score(st.data, s.current, target) > 0
            && ActiveCount(s.players) == 1 && s.players[s.current].isActive && s.throw == 1
            && (forall i :: 0 <= i < n && 0 < Dist(st.current, i, n) < Dist(st.current, s.current, n)
                  ==> Score(st.data, i, target) <= 0))
  {
    var n := |st.players|;
    var elig := Eligible(st.data, n, target);
    RotateFacts(st, elig, 2);
    if !(st.completed || n <= 1 || CountTrue(elig) <= 1) {
      NextIndexSpec(elig, st.current);
      var r := NextIndex(elig, st.current);
      forall i | 0 <= i < n && 0 < Dist(st.current, i, n) < Dist(st.current, r, n)
        ensures Score(st.data, i, target) <= 0
      {
        assert !elig[i];
      }
    }
  }

  /**
   * A bust keeps the open throws as one closed turn and drops the busting
   * throw: the player's closed sum grows by exactly the open sum, nobody else's
   * turns change, the open turn is empty and the game goes on.
   */
  lemma AfterBustFacts(st: GameState, target: int)
    requires IndexOk(st) && !st.completed
    ensures var s := AfterBust(st, target); var pi := Slot(st);
      PlayerTurns(s.data, pi) == PlayerTurns(st.data, pi) + (if st.open != [] then [st.open] else [])
      && ClosedSum(s.data, pi) == ClosedSum(st.data, pi) + Sum(st.open)
      && (forall q :: q != pi ==> PlayerTurns(s.data, q) == PlayerTurns(st.data, q))
      && s.open == [] && s.throw == 1 && !s.completed && s.winner == st.winner && IndexOk(s)
      && (|st.players| <= 1 ==> s.current == st.current && s.players == st.players)
  {
    var pi := Slot(st);
    if |st.open| > 0 {
      AppendTurnFacts(st.data, pi, st.open);
    } else {
      EnsurePlayerFacts(st.data, pi);
    }
    var d := if |st.open| > 0 then AppendTurn(st.data, pi, st.open) else EnsurePlayer(st.data, pi);
    var s := st.(data := d, open := [], throw := 1);
    if |st.players| > 1 {
      NextPlayerFacts(s, target);
    }
  }

  /**
   * A finish appends the open turn with the finishing throw, completes the game
   * and names the current player (or the single player) as winner with score 0,
   * without rotating.
   */
  lemma AfterFinishFacts(st: GameState, points: int)
    requires IndexOk(st)
    ensures var s := AfterFinish(st, points); var pi := Slot(st);
      PlayerTurns(s.data, pi) == PlayerTurns(st.data, pi) + [st.open + [points]]
      && ClosedSum(s.data, pi) == ClosedSum(st.data, pi) + Sum(st.open) + points
      && (forall q :: q != pi ==> PlayerTurns(s.data, q) == PlayerTurns(st.data, q))
      && s.completed && s.winner.Some? && s.winner.value.score == 0 && s.winner.value.isFinished
      && s.winner.value.id == (if |st.players| > 1 then st.players[st.current].id else "single-player")
      && s.winner.value.turnHistory == PlayerTurns(s.data, pi)
      && s.current == st.current && s.players == st.players && s.throw == st.throw
      && s.open == st.open + [points]
  {
    AppendTurnFacts(st.data, Slot(st), st.open + [points]);
    SumAppend(st.open, [points]);
    assert Sum([points]) == points + Sum([]);
  }

  /** Closing a turn moves exactly the open throws into the player's closed turns. */
  lemma CloseTurnFacts(st: GameState, target: int)
    requires IndexOk(st) && !st.completed
    ensures var s := CloseTurn(st, target); var pi := Slot(st);
      PlayerTurns(s.data, pi) == PlayerTurns(st.data, pi) + [st.open]
      && ClosedSum(s.data, pi) == ClosedSum(st.data, pi) + Sum(st.open)
      && (forall q :: q != pi ==> PlayerTurns(s.data, q) == PlayerTurns(st.data, q))
      && s.open == [] && s.throw == 1 && !s.completed && s.winner == st.winner && IndexOk(s)
      && (|st.players| <= 1 ==> s.current == st.current && s.players == st.players)
  {
    AppendTurnFacts(st.data, Slot(st), st.open);
    var s := st.(data := AppendTurn(st.data, Slot(st), st.open), open := [], throw := 1);
    if |st.players| > 1 {
      NextPlayerFacts(s, target);
    }
  }

  /**
   * The winner record as written lists the finishing throw twice: its history
   * is the flattened turns, which already end with the finishing turn, followed
   * by the finishing throw again, so it sums to the closed total plus that throw.
   */
  lemma WinnerHistoryRepeatsFinish(st: GameState, points: int)
    requires IndexOk(st) && Slot(st) < |st.data|
    ensures var s := AfterFinish(st, points); var h := s.winner.value.gameHistory;
      h == Flatten(PlayerTurns(st.data, Slot(st))) + st.open + [points] + [points]
      && h[|h| - 1] == points && h[|h| - 2] == points
      && Sum(h) == ClosedSum(s.data, Slot(st)) + points
  {
    var pi := Slot(st);
    var s := AfterFinish(st, points);
    AfterFinishFacts(st, points);
    ClosedSumAppend(PlayerTurns(st.data, pi), st.open + [points]);
    var h := s.winner.value.gameHistory;
    assert h == Flatten(PlayerTurns(s.data, pi)) + [points];
    SumAppend(Flatten(PlayerTurns(s.data, pi)), [points]);
    assert Sum([points]) == points + Sum([]);
  }

  /** The winner's history as evidently intended: every recorded throw once. */
  function FinishedHistory(d: Data, pi: nat): seq<int> {
    Flatten(PlayerTurns(d, pi))
  }

  /** The intended history holds each throw of the finishing player once, so it sums to the closed total. */
  lemma FinishedHistoryCountsEachThrowOnce(st: GameState, points: int)
    requires IndexOk(st)
    ensures var s := AfterFinish(st, points); var h := FinishedHistory(s.data, Slot(st));
      h == Flatten(PlayerTurns(st.data, Slot(st))) + st.open + [points]
      && Sum(h) == ClosedSum(s.data, Slot(st))
      && Sum(h) == ClosedSum(st.data, Slot(st)) + Sum(st.open) + points
  {
    AfterFinishFacts(st, points);
    ClosedSumAppend(PlayerTurns(st.data, Slot(st)), st.open + [points]);
  }
}
