/**
 * The 301 page (src/pages/game/301.tsx): hits are tested against the score of
 * the closed turns, a turn takes at most three throws, and only the Enter key
 * closes a turn of three throws. It also offers corrections of recorded throws:
 * while one is open the manual input goes to the correction, not to the game.
 */
module Game301 {
  import opened Wrappers
  import opened Players
  import opened PlayData
  import opened Rotation
  import opened Countdown

  const Target := 301

  /** The hit rule, tested against `remaining`; a fourth throw is ignored. */
  function HitAgainst(st: GameState, points: int, remaining: int): GameState
    requires IndexOk(st)
  {
    if st.completed || |st.open| >= 3 then st
    else
      var newScore := remaining - points;
      if Busts(newScore) then AfterBust(st, Target)
      else if newScore == 0 then AfterFinish(st, points)
      else st.(open := st.open + [points], throw := if st.throw < 3 then st.throw + 1 else st.throw)
  }

  /** `handleDartHit` as written: the open throws are not subtracted before the test. */
  function Hit(st: GameState, points: int): GameState
    requires IndexOk(st)
  {
    HitAgainst(st, points, Score(st.data, Slot(st), Target))
  }

  /** The hit rule tested against the live score: closed turns and the open throws. */
  function HitLive(st: GameState, points: int): GameState
    requires IndexOk(st)
  {
    HitAgainst(st, points, Score(st.data, Slot(st), Target) - Sum(st.open))
  }

  /** `finishCurrentTurn`: only a turn of three throws with the counter at 3 is closed. */
  function FinishTurn(st: GameState): GameState
    requires IndexOk(st)
  {
    if st.completed || |st.open| == 0 then st
    else if st.throw != 3 || |st.open| < 3 then st
    else CloseTurn(st, Target)
  }

  /** The manual input: nothing once completed, the open correction if there is one, else a hit. */
  function ManualInput(st: GameState, points: int): GameState
    requires IndexOk(st)
  {
    if st.completed then st
    else if st.editing.Some? then Update(st, points)
    else Hit(st, points)
  }

  /** Every closed turn holds one to three throws. */
  predicate TurnsBounded(data: Data) {
    forall p, t :: 0 <= p < |data| && 0 <= t < |data[p]| ==> 1 <= |data[p][t]| <= 3
  }

  /**
   * Between events, as long as no correction has padded a turn: the counter is
   * `|open| + 1` capped at 3 while the game runs, and `|open|` once the finishing
   * turn is kept open; closed turns hold one to three throws.
   */
  predicate Counted(st: GameState) {
    IndexOk(st) && 1 <= st.throw <= 3 && |st.open| <= 3
    && (if st.completed then |st.open| == st.throw else st.throw == Min(|st.open| + 1, 3))
    && TurnsBounded(st.data)
  }

  /** No player's remaining score is negative or 1, counting the open turn. */
  ghost predicate LiveLegal(st: GameState) {
    forall p: nat :: LiveScore(st, p, Target) >= 0 && LiveScore(st, p, Target) != 1
  }

  /** The page's state cells. */
  class Game {
    var playing: bool
    var players: seq<Player>
    var current: nat
    var completed: bool
    var winner: Option<Player>
    var data: Data
    var open: Turn
    var throw: int
    var editing: Option<Edit>

    function State(): GameState
      reads this
    {
      GameState(playing, players, current, completed, winner, data, open, throw, editing)
    }

    /** The current index is in range and the counter is between 1 and 3. */
    predicate Valid()
      reads this
    {
      IndexOk(State()) && 1 <= throw <= 3
    }

    constructor()
      ensures State() == Initial && Valid()
    {
      playing, players, current, completed, winner := false, [], 0, false, None;
      data, open, throw, editing := [], [], 1, None;
    }

    /** `handleGameStart` */
    method HandleGameStart(newPlayers: seq<Player>)
      modifies this
      ensures State() == StartGame(old(State()), newPlayers) && Valid()
    {
      players := newPlayers;
      current := 0;
      playing := true;
      completed := false;
      winner := None;
      data := seq(|newPlayers|, _ => []);
      open := [];
      throw := 1;
    }

    /** `resetGame` */
    method ResetGame()
      modifies this
      ensures State() == PlayData.ResetGame(old(State())) && Valid()
    {
      playing := false;
      players := [];
      current := 0;
      completed := false;
      winner := None;
      data := [];
      open := [];
      throw := 1;
    }

    /** `nextPlayer`, with its scan loop. */
    method NextPlayer()
      requires IndexOk(State())
      modifies this
      ensures State() == Countdown.NextPlayer(old(State()), Target)
    {
      if completed || |players| <= 1 {
        return;
      }
      var elig := Eligible(data, |players|, Target);
      if CountTrue(elig) <= 1 {
        return;
      }
      var next := ScanWhileIneligible(elig, current);
      players := Activate(players, next);
      current := next;
      throw := 1;
    }

    /** `handleDartHit` */
    method HandleDartHit(points: int)
      requires Valid()
      modifies this
      ensures State() == Hit(old(State()), points) && Valid()
    {
      HitKeepsRange(State(), points);
      if completed || |open| >= 3 {
        return;
      }
      var before := State();
      var multi := |players| > 1;
      var pi := if multi then current else 0;
      var newScore := Score(data, pi, Target) - points;
      if newScore < 0 || newScore == 1 {
        data := if |open| > 0 then AppendTurn(data, pi, open) else EnsurePlayer(data, pi);
        open := [];
        throw := 1;
        if multi {
          NextPlayer();
        }
        return;
      }
      var newOpen := open + [points];
      open := newOpen;
      if newScore == 0 {
        var d := AppendTurn(data, pi, newOpen);
        data := d;
        completed := true;
        winner := Some(WinnerRecord(before, d, points));
        return;
      }
      if throw < 3 {
        throw := throw + 1;
      }
    }

    /** `finishCurrentTurn`, bound to the Enter key. */
    method FinishCurrentTurn()
      requires Valid()
      modifies this
      ensures State() == FinishTurn(old(State())) && Valid()
    {
      FinishKeepsRange(State());
      if completed || |open| == 0 {
        return;
      }
      if throw != 3 || |open| < 3 {
        return;
      }
      var pi := if |players| > 1 then current else 0;
      data := AppendTurn(data, pi, open);
      open := [];
      throw := 1;
      if |players| > 1 {
        NextPlayer();
      }
    }

    /** `startEditHistoryData` */
    method StartEditHistoryData(playerIndex: nat, turnIndex: int, throwIndex: nat)
      requires Valid()
      modifies this
      ensures State() == StartEdit(old(State()), playerIndex, turnIndex, throwIndex) && Valid()
    {
      if completed {
        return;
      }
      editing := Some(Edit(playerIndex, turnIndex, throwIndex, SlotValue(State(), playerIndex, turnIndex, throwIndex)));
    }

    /** `updateHistoryData` */
    method UpdateHistoryData(newScore: int)
      requires Valid()
      modifies this
      ensures State() == Update(old(State()), newScore) && Valid()
    {
      match editing
      case None =>
      case Some(e) =>
        if e.turnIndex == -1 {
          open := SetSlot(open, e.throwIndex, newScore);
        } else if e.turnIndex >= 0 {
          data := SetThrow(data, e.playerIndex, e.turnIndex, e.throwIndex, newScore);
        } else {
          data := EnsurePlayer(data, e.playerIndex);
        }
        editing := None;
    }

    /** `cancelEditHistoryData` */
    method CancelEditHistoryData()
      requires Valid()
      modifies this
      ensures State() == Cancel(old(State())) && Valid()
    {
      editing := None;
    }

    /** The manual score input: disabled once completed, routed to the correction while one is open. */
    method DartBoardHit(points: int)
      requires Valid()
      modifies this
      ensures State() == ManualInput(old(State()), points) && Valid()
    {
      if completed {
        return;
      }
      if editing.Some? {
        UpdateHistoryData(points);
      } else {
        HandleDartHit(points);
      }
    }
  }

  // ---------------------------------------------------------------------------
  // Lemmas about the engine as written
  // ---------------------------------------------------------------------------

  /** A hit keeps the index in range and the counter between 1 and 3. */
  lemma HitKeepsRange(st: GameState, points: int)
    requires IndexOk(st) && 1 <= st.throw <= 3
    ensures IndexOk(Hit(st, points)) && 1 <= Hit(st, points).throw <= 3
    ensures Hit(st, points).editing == st.editing
  {
    if !st.completed && |st.open| < 3 {
      var newScore := Score(st.data, Slot(st), Target) - points;
      if Busts(newScore) {
        AfterBustFacts(st, Target);
        var pi := Slot(st);
        var d := if |st.open| > 0 then AppendTurn(st.data, pi, st.open) else EnsurePlayer(st.data, pi);
        if |st.players| > 1 {
          RotateFacts(st.(data := d, open := [], throw := 1), Eligible(d, |st.players|, Target), 2);
        }
      }
    }
  }

  /** Closing a turn keeps the index in range and the counter between 1 and 3. */
  lemma FinishKeepsRange(st: GameState)
    requires IndexOk(st) && 1 <= st.throw <= 3
    ensures IndexOk(FinishTurn(st)) && 1 <= FinishTurn(st).throw <= 3
    ensures FinishTurn(st).editing == st.editing
  {
    if !(st.completed || |st.open| == 0 || st.throw != 3 || |st.open| < 3) {
      CloseTurnFacts(st, Target);
      var s := st.(data := AppendTurn(st.data, Slot(st), st.open), open := [], throw := 1);
      if |st.players| > 1 {
        RotateFacts(s, Eligible(s.data, |st.players|, Target), 2);
      }
    }
  }

  lemma AppendKeepsBounded(data: Data, p: nat, t: Turn)
    requires TurnsBounded(data) && 1 <= |t| <= 3
    ensures TurnsBounded(AppendTurn(data, p, t))
  {
    var d := EnsurePlayer(data, p);
    assert TurnsBounded(d);
  }

  /** A hit keeps the throw counter in step with the open turn and closes no turn longer than three. */
  lemma HitKeepsCounted(st: GameState, points: int)
    requires Counted(st)
    ensures Counted(Hit(st, points))
  {
    if !st.completed && |st.open| < 3 {
      var newScore := Score(st.data, Slot(st), Target) - points;
      var pi := Slot(st);
      if Busts(newScore) {
        AfterBustFacts(st, Target);
        if |st.open| > 0 {
          AppendKeepsBounded(st.data, pi, st.open);
        } else {
          assert TurnsBounded(EnsurePlayer(st.data, pi));
        }
        var d := if |st.open| > 0 then AppendTurn(st.data, pi, st.open) else EnsurePlayer(st.data, pi);
        if |st.players| > 1 {
          NextPlayerFacts(st.(data := d, open := [], throw := 1), Target);
        }
      } else if newScore == 0 {
        AppendKeepsBounded(st.data, pi, st.open + [points]);
      }
    }
  }

  /** The Enter key keeps the counter in step with the open turn. */
  lemma FinishKeepsCounted(st: GameState)
    requires Counted(st)
    ensures Counted(FinishTurn(st))
  {
    if !(st.completed || |st.open| == 0 || st.throw != 3 || |st.open| < 3) {
      AppendKeepsBounded(st.data, Slot(st), st.open);
      CloseTurnFacts(st, Target);
      var s := st.(data := AppendTurn(st.data, Slot(st), st.open), open := [], throw := 1);
      if |st.players| > 1 {
        NextPlayerFacts(s, Target);
      }
    }
  }

  /**
   * A hit that neither busts nor finishes only extends the open turn: no turn
   * closes and play stays with the same player; a hit on a full turn is ignored.
   */
  lemma HitNeverClosesATurn(st: GameState, points: int)
    requires IndexOk(st) && !st.completed
    requires var n := Score(st.data, Slot(st), Target) - points; !Busts(n) && n != 0
    ensures var s := Hit(st, points);
      s.data == st.data && s.current == st.current && s.players == st.players && !s.completed
      && (|st.open| >= 3 ==> s == st)
      && (|st.open| < 3 ==> s.open == st.open + [points])
  {
  }

  /**
   * The Enter key closes the open turn exactly when the game runs and it holds
   * three throws with the counter at 3; it then moves those throws into the
   * player's closed turns.
   */
  lemma FinishTurnCloses(st: GameState)
    requires IndexOk(st)
    ensures var s := FinishTurn(st);
      (s == st <== (st.completed || st.throw != 3 || |st.open| < 3))
      && (!st.completed && st.throw == 3 && |st.open| >= 3 ==>
            PlayerTurns(s.data, Slot(st)) == PlayerTurns(st.data, Slot(st)) + [st.open]
            && ClosedSum(s.data, Slot(st)) == ClosedSum(st.data, Slot(st)) + Sum(st.open)
            && s.open == [] && s.throw == 1)
  {
    if !st.completed && st.throw == 3 && |st.open| >= 3 {
      CloseTurnFacts(st, Target);
    }
  }

  /**
   * From a fresh turn three accepted throws are all kept open with the counter
   * at 3, a fourth is ignored, and Enter then closes the three as one turn.
   */
  lemma ThreeThrowsThenEnter(st: GameState, a: int, b: int, c: int, d: int)
    requires IndexOk(st) && !st.completed && st.open == [] && st.throw == 1
    requires var r := Score(st.data, Slot(st), Target);
      !Busts(r - a) && r - a != 0 && !Busts(r - b) && r - b != 0 && !Busts(r - c) && r - c != 0
    ensures var s := Hit(Hit(Hit(st, a), b), c);
      s.open == [a, b, c] && s.throw == 3 && s.data == st.data
      && Hit(s, d) == s
      && PlayerTurns(FinishTurn(s).data, Slot(st)) == PlayerTurns(st.data, Slot(st)) + [[a, b, c]]
  {
    var s := Hit(Hit(Hit(st, a), b), c);
    assert s.open == [a, b, c];
    CloseTurnFacts(s, Target);
  }

  /** Once the game is completed no hit, Enter key or manual input changes anything. */
  lemma NothingAfterCompletion(st: GameState, points: int)
    requires IndexOk(st) && st.completed
    ensures Hit(st, points) == st && FinishTurn(st) == st && ManualInput(st, points) == st
  {
  }

  /** While a correction is open the manual input writes the correction and scores no hit. */
  lemma ManualInputCorrects(st: GameState, points: int)
    requires IndexOk(st) && !st.completed && st.editing.Some?
    ensures var s := ManualInput(st, points);
      s == Update(st, points) && s.editing == None
      && s.current == st.current && s.throw == st.throw && s.completed == st.completed
  {
  }

  // ---------------------------------------------------------------------------
  // The closed-turn test lets a player overshoot
  // ---------------------------------------------------------------------------

  /** One player with the given closed turns and an empty open turn. */
  function SoloState(turns: seq<Turn>): GameState {
    GameState(true, StartingPlayers(["A"]), 0, false, None, [turns], [], 1, None)
  }

  lemma SumOfTwoTurns(a: Turn, b: Turn)
    ensures Sum(Flatten([a, b])) == Sum(a) + Sum(b)
  {
    assert [a, b][1..] == [b];
    assert [b][1..] == [];
    SumAppend(a, Flatten([b]));
    SumAppend(b, Flatten([]));
  }

  /**
   * With 40 left, a 20, a 20 and a 20 are all accepted although the second
   * already reaches 0 on the live count: each is tested against 40.
   */
  lemma OvershootWithoutBust()
    ensures var st := SoloState([[60, 60, 60], [60, 21]]);
      Score(st.data, 0, Target) == 40
      && var s := Hit(Hit(Hit(st, 20), 20), 20);
      !s.completed && s.open == [20, 20, 20] && LiveScore(s, 0, Target) == -20 && !LiveLegal(s)
  {
    var st := SoloState([[60, 60, 60], [60, 21]]);
    SumOfTwoTurns([60, 60, 60], [60, 21]);
    assert Score(st.data, 0, Target) == 40;
    var s := Hit(Hit(Hit(st, 20), 20), 20);
    assert s.open == [20, 20, 20] && s.data == st.data && Slot(s) == 0;
    assert Sum([20, 20, 20]) == 60;
    assert LiveScore(s, 0, Target) == -20;
  }

  // ---------------------------------------------------------------------------
  // The live-score rule
  // ---------------------------------------------------------------------------

  /**
   * Tested against the live score, a hit never leaves any player below 0 or at
   * 1, counting the open turn.
   */
  lemma HitLiveKeepsScoresLegal(st: GameState, points: int)
    requires IndexOk(st) && LiveLegal(st)
    ensures LiveLegal(HitLive(st, points))
  {
    if !st.completed && |st.open| < 3 {
      var pi := Slot(st);
      var live := Score(st.data, pi, Target) - Sum(st.open);
      assert live == LiveScore(st, pi, Target);
      var newScore := live - points;
      var s := HitLive(st, points);
      if Busts(newScore) {
        var d := if |st.open| > 0 then AppendTurn(st.data, pi, st.open) else EnsurePlayer(st.data, pi);
        var b := st.(data := d, open := [], throw := 1);
        if |st.open| > 0 {
          LiveAfterAppend(st, b, pi, st.open, Target);
        } else {
          EnsurePlayerFacts(st.data, pi);
        }
        if |st.players| > 1 {
          NextPlayerFacts(b, Target);
        }
        forall p: nat
          ensures LiveScore(s, p, Target) >= 0 && LiveScore(s, p, Target) != 1
        {
          assert LiveScore(s, p, Target) == Score(b.data, p, Target);
          assert p != pi ==> Score(b.data, p, Target) == LiveScore(st, p, Target);
        }
      } else if newScore == 0 {
        LiveAfterAppend(st, s, pi, st.open + [points], Target);
        SumAppend(st.open, [points]);
        assert Sum([points]) == points + Sum([]);
        forall p: nat
          ensures LiveScore(s, p, Target) >= 0 && LiveScore(s, p, Target) != 1
        {
          assert p != pi ==> LiveScore(s, p, Target) == LiveScore(st, p, Target);
        }
      } else {
        SumAppend(st.open, [points]);
        assert Sum([points]) == points + Sum([]);
        forall p: nat
          ensures LiveScore(s, p, Target) >= 0 && LiveScore(s, p, Target) != 1
        {
          assert p != pi ==> LiveScore(s, p, Target) == LiveScore(st, p, Target);
        }
      }
    }
  }

  /** Closing a turn moves the open throws into the closed turns, so no live score changes. */
  lemma FinishKeepsScoresLegal(st: GameState)
    requires IndexOk(st) && LiveLegal(st)
    ensures LiveLegal(FinishTurn(st))
  {
    if !(st.completed || |st.open| == 0 || st.throw != 3 || |st.open| < 3) {
      var pi := Slot(st);
      var b := st.(data := AppendTurn(st.data, pi, st.open), open := [], throw := 1);
      LiveAfterAppend(st, b, pi, st.open, Target);
      if |st.players| > 1 {
        NextPlayerFacts(b, Target);
      }
      var s := FinishTurn(st);
      forall p: nat
        ensures LiveScore(s, p, Target) >= 0 && LiveScore(s, p, Target) != 1
      {
        assert LiveScore(s, p, Target) == Score(b.data, p, Target);
        assert p != pi ==> Score(b.data, p, Target) == LiveScore(st, p, Target);
        assert p == pi ==> Score(b.data, p, Target) == LiveScore(st, p, Target);
      }
    }
  }

  /** Under the live-score rule a finish means the player's throws total exactly 301. */
  lemma HitLiveFinishIsExact(st: GameState, points: int)
    requires IndexOk(st) && !st.completed && HitLive(st, points).completed
    ensures ClosedSum(HitLive(st, points).data, Slot(st)) == Target
  {
    var pi := Slot(st);
    var live := Score(st.data, pi, Target) - Sum(st.open);
    if |st.open| < 3 {
      if Busts(live - points) {
        AfterBustFacts(st, Target);
      } else if live - points == 0 {
        AfterFinishFacts(st, points);
      }
    }
  }

  // ---------------------------------------------------------------------------
  // A correction of the open turn outlives the turn
  // ---------------------------------------------------------------------------

  /**
   * Enter does not end a pending correction of the open turn, so the next pad
   * value writes into the emptied open turn (of whichever player is now
   * current): holes up to the corrected slot with the counter at 1, and from
   * slot 2 on a full turn that no hit and no Enter can change.
   */
  lemma OpenCorrectionSurvivesEnter(st: GameState, v: int)
    requires IndexOk(st) && !st.completed && st.throw == 3 && |st.open| >= 3
    requires st.editing.Some? && st.editing.value.turnIndex == -1
    ensures var s := FinishTurn(st); var m := ManualInput(s, v); var i := st.editing.value.throwIndex;
      IndexOk(m) && s.editing == st.editing && s.open == [] && s.throw == 1
      && m.open == SetSlot([], i, v) && |m.open| == i + 1 && m.throw == 1 && !Counted(m)
      && (i >= 2 ==> FinishTurn(m) == m && forall x :: Hit(m, x) == m)
  {
    CloseTurnFacts(st, Target);
    var s := st.(data := AppendTurn(st.data, Slot(st), st.open), open := [], throw := 1);
    if |st.players| > 1 {
      NextPlayerFacts(s, Target);
      RotateFacts(s, Eligible(s.data, |s.players|, Target), 2);
    }
    SetSlotFacts([], st.editing.value.throwIndex, v);
  }

  /** The intended Enter: as the close, and a pending correction of the open turn ends with the turn. */
  function FinishTurnEndingCorrection(st: GameState): GameState
    requires IndexOk(st)
  {
    if !st.completed && st.throw == 3 && |st.open| >= 3 then EndOpenCorrection(FinishTurn(st)) else st
  }

  /**
   * After the intended Enter no correction addresses the new open turn: the next
   * pad value is a hit, which keeps the counter in step, or a closed-turn
   * correction that leaves the open turn and the counter alone.
   */
  lemma CorrectedEnterKeepsOpenTurn(st: GameState, v: int)
    requires Counted(st) && !st.completed && st.throw == 3 && |st.open| >= 3
    ensures var s := FinishTurnEndingCorrection(st); var m := ManualInput(s, v);
      Counted(s) && s.open == [] && s.throw == 1
      && (s.editing.Some? ==> s.editing.value.turnIndex != -1)
      && (m == Hit(s, v) ==> Counted(m))
      && (m == Hit(s, v) || (m.open == s.open && m.throw == s.throw))
  {
    FinishKeepsCounted(st);
    CloseTurnFacts(st, Target);
    var s := FinishTurnEndingCorrection(st);
    HitKeepsCounted(s, v);
  }
}
