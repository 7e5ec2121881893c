/**
 * The 501 page (src/pages/game/501.tsx): every hit is tested against the score
 * of the closed turns; throws 1 and 2 advance the counter and the 3rd closes
 * the turn by itself and rotates. The engine follows the code as written; the
 * transition that tests against the live score stands beside it as `HitLive`.
 */
module Game501 {
  import opened Wrappers
  import opened Players
  import opened PlayData
  import opened Rotation
  import opened Countdown

  const Target := 501

  /** The hit rule, tested against `remaining`. */
  function HitAgainst(st: GameState, points: int, remaining: int): GameState
    requires IndexOk(st)
  {
    if st.completed then st
    else
      var newScore := remaining - points;
      if Busts(newScore) then AfterBust(st, Target)
      else if newScore == 0 then AfterFinish(st, points)
      else if st.throw < 3 then st.(open := st.open + [points], throw := st.throw + 1)
      else CloseTurn(st.(open := st.open + [points]), Target)
  }

  /** `handleDartHit` as written: the open throws are not subtracted before the test. */
  function Hit(st: GameState, points: int): GameState
    requires IndexOk(st)
  {
    HitAgainst(st, points, Score(st.data, Slot(st), Target))
  }

  /** The hit rule tested against the live score: closed turns and the open throws. */
  function HitLive(st: GameState, points: int): GameState
    requires IndexOk(st)
  {
    HitAgainst(st, points, Score(st.data, Slot(st), Target) - Sum(st.open))
  }

  /** Every closed turn holds one to three throws. */
  predicate TurnsBounded(data: Data) {
    forall p, t :: 0 <= p < |data| && 0 <= t < |data[p]| ==> 1 <= |data[p][t]| <= 3
  }

  /**
   * Between events: the counter is `|open| + 1` (at most 3) while the game runs,
   * and equals `|open|` once the finishing turn is kept open; closed turns have
   * one to three throws; the current index is in range.
   */
  predicate Coherent(st: GameState) {
    IndexOk(st) && 1 <= st.throw <= 3
    && (if st.completed then |st.open| == st.throw else |st.open| == st.throw - 1)
    && TurnsBounded(st.data) && st.editing == None
  }

  /** No player's remaining score is negative or 1, counting the open turn. */
  ghost predicate LiveLegal(st: GameState) {
    forall p: nat :: LiveScore(st, p, Target) >= 0 && LiveScore(st, p, Target) != 1
  }

  /** The page's state cells. */
  class Game {
    var playing: bool
    var players: seq<Player>
    var current: nat
    var completed: bool
    var winner: Option<Player>
    var data: Data
    var open: Turn
    var throw: int

    function State(): GameState
      reads this
    {
      GameState(playing, players, current, completed, winner, data, open, throw, None)
    }

    predicate Valid()
      reads this
    {
      Coherent(State())
    }

    constructor()
      ensures State() == Initial && Valid()
    {
      playing, players, current, completed, winner := false, [], 0, false, None;
      data, open, throw := [], [], 1;
    }

    /** `handleGameStart` */
    method HandleGameStart(newPlayers: seq<Player>)
      modifies this
      ensures State() == StartGame(old(State()), newPlayers) && Valid()
    {
      players := newPlayers;
      current := 0;
      playing := true;
      completed := false;
      winner := None;
      data := seq(|newPlayers|, _ => []);
      open := [];
      throw := 1;
    }

    /** `resetGame` */
    method ResetGame()
      modifies this
      ensures State() == PlayData.ResetGame(old(State())) && Valid()
    {
      playing := false;
      players := [];
      current := 0;
      completed := false;
      winner := None;
      data := [];
      open := [];
      throw := 1;
    }

    /** `nextPlayer`, with its scan loop. */
    method NextPlayer()
      requires IndexOk(State())
      modifies this
      ensures State() == Countdown.NextPlayer(old(State()), Target)
    {
      if completed || |players| <= 1 {
        return;
      }
      var elig := Eligible(data, |players|, Target);
      if CountTrue(elig) <= 1 {
        return;
      }
      var next := ScanWhileIneligible(elig, current);
      players := Activate(players, next);
      current := next;
      throw := 1;
    }

    /** `handleDartHit` */
    method HandleDartHit(points: int)
      requires Valid()
      modifies this
      ensures State() == Hit(old(State()), points) && Valid()
    {
      HitKeepsCoherent(State(), points);
      if completed {
        return;
      }
      var before := State();
      var multi := |players| > 1;
      var pi := if multi then current else 0;
      var newScore := Score(data, pi, Target) - points;
      if newScore < 0 || newScore == 1 {
        data := if |open| > 0 then AppendTurn(data, pi, open) else EnsurePlayer(data, pi);
        open := [];
        throw := 1;
        if multi {
          NextPlayer();
        }
        return;
      }
      var newOpen := open + [points];
      open := newOpen;
      if newScore == 0 {
        var d := AppendTurn(data, pi, newOpen);
        data := d;
        completed := true;
        winner := Some(WinnerRecord(before, d, points));
        return;
      }
      if throw < 3 {
        throw := throw + 1;
      } else {
        data := AppendTurn(data, pi, newOpen);
        open := [];
        throw := 1;
        if multi {
          NextPlayer();
        }
      }
    }
  }

  // ---------------------------------------------------------------------------
  // Lemmas about the engine as written
  // ---------------------------------------------------------------------------

  /** A game start and a reset both give a coherent state in which every score is 501. */
  lemma StartIsCoherent(st: GameState, newPlayers: seq<Player>)
    requires st.editing == None
    ensures Coherent(StartGame(st, newPlayers)) && Coherent(PlayData.ResetGame(st))
    ensures forall p :: Score(StartGame(st, newPlayers).data, p, Target) == Target
    ensures LiveLegal(StartGame(st, newPlayers)) && LiveLegal(PlayData.ResetGame(st))
  {
  }

  lemma AppendKeepsBounded(data: Data, p: nat, t: Turn)
    requires TurnsBounded(data) && 1 <= |t| <= 3
    ensures TurnsBounded(AppendTurn(data, p, t))
  {
    var d := EnsurePlayer(data, p);
    assert TurnsBounded(d);
  }

  lemma EnsureKeepsBounded(data: Data, p: nat)
    requires TurnsBounded(data)
    ensures TurnsBounded(EnsurePlayer(data, p))
  {
  }

  /** Every hit keeps the state coherent: open-turn length is `currentThrow - 1`, at most 2, between hits. */
  lemma HitKeepsCoherent(st: GameState, points: int)
    requires Coherent(st)
    ensures Coherent(Hit(st, points))
    ensures !Hit(st, points).completed ==> |Hit(st, points).open| <= 2
  {
    HitAgainstKeepsCoherent(st, points, Score(st.data, Slot(st), Target));
  }

  lemma HitAgainstKeepsCoherent(st: GameState, points: int, remaining: int)
    requires Coherent(st)
    ensures Coherent(HitAgainst(st, points, remaining))
  {
    if !st.completed {
      var newScore := remaining - points;
      var pi := Slot(st);
      if Busts(newScore) {
        AfterBustFacts(st, Target);
        if |st.open| > 0 {
          AppendKeepsBounded(st.data, pi, st.open);
        } else {
          EnsureKeepsBounded(st.data, pi);
        }
        var d := if |st.open| > 0 then AppendTurn(st.data, pi, st.open) else EnsurePlayer(st.data, pi);
        if |st.players| > 1 {
          NextPlayerFacts(st.(data := d, open := [], throw := 1), Target);
        }
      } else if newScore == 0 {
        AppendKeepsBounded(st.data, pi, st.open + [points]);
      } else if st.throw >= 3 {
        var s := st.(open := st.open + [points]);
        AppendKeepsBounded(st.data, pi, s.open);
        CloseTurnFacts(s, Target);
        if |st.players| > 1 {
          NextPlayerFacts(s.(data := AppendTurn(s.data, pi, s.open), open := [], throw := 1), Target);
        }
      }
    }
  }

  /** Once the game is completed a hit changes nothing. */
  lemma HitAfterCompletion(st: GameState, points: int)
    requires IndexOk(st) && st.completed
    ensures Hit(st, points) == st
  {
  }

  /**
   * The outcome of a hit is decided by `Score - points` on the closed turns: the
   * game completes iff it is 0, and the hit is dropped iff it is negative or 1.
   */
  lemma HitOutcome(st: GameState, points: int)
    requires Coherent(st) && !st.completed
    ensures var s := Hit(st, points); var pi := Slot(st); var newScore := Score(st.data, pi, Target) - points;
      (s.completed <==> newScore == 0)
      && (Busts(newScore) <==> (Flatten(PlayerTurns(s.data, pi)) + s.open == Flatten(PlayerTurns(st.data, pi)) + st.open
                                && s.open == []))
  {
    var pi := Slot(st);
    var newScore := Score(st.data, pi, Target) - points;
    var s := Hit(st, points);
    if Busts(newScore) {
      AfterBustFacts(st, Target);
      if st.open != [] {
        ClosedSumAppend(PlayerTurns(st.data, pi), st.open);
      }
    } else if newScore == 0 {
      AfterFinishFacts(st, points);
    } else if st.throw < 3 {
      assert |s.open| == |st.open| + 1;
    } else {
      CloseTurnFacts(st.(open := st.open + [points]), Target);
      ClosedSumAppend(PlayerTurns(st.data, pi), st.open + [points]);
      assert |Flatten(PlayerTurns(s.data, pi))| == |Flatten(PlayerTurns(st.data, pi)) + st.open| + 1;
    }
  }

  /**
   * A bust appends the earlier open throws (if any) as a closed turn, drops the
   * busting throw, empties the open turn and resets the counter; with one player
   * nothing else changes, with several, play rotates.
   */
  lemma HitBusts(st: GameState, points: int)
    requires Coherent(st) && !st.completed && Busts(Score(st.data, Slot(st), Target) - points)
    ensures var s := Hit(st, points); var pi := Slot(st);
      PlayerTurns(s.data, pi) == PlayerTurns(st.data, pi) + (if st.open != [] then [st.open] else [])
      && (forall q :: q != pi ==> PlayerTurns(s.data, q) == PlayerTurns(st.data, q))
      && s.open == [] && s.throw == 1 && !s.completed
      && (|st.players| <= 1 ==> s.current == st.current)
      && s == AfterBust(st, Target)
  {
    AfterBustFacts(st, Target);
  }

  /** An exact finish completes the game with the current player as winner and does not rotate. */
  lemma HitFinishes(st: GameState, points: int)
    requires Coherent(st) && !st.completed && Score(st.data, Slot(st), Target) - points == 0
    ensures var s := Hit(st, points); var pi := Slot(st);
      s.completed && s.current == st.current
      && PlayerTurns(s.data, pi) == PlayerTurns(st.data, pi) + [st.open + [points]]
      && s.winner.Some? && s.winner.value.score == 0
      && s.winner.value.id == (if |st.players| > 1 then st.players[st.current].id else "single-player")
  {
    AfterFinishFacts(st, points);
  }

  /** Throws 1 and 2 only extend the open turn; the 3rd closes the turn and restarts the counter. */
  lemma HitProceeds(st: GameState, points: int)
    requires Coherent(st) && !st.completed
    requires var n := Score(st.data, Slot(st), Target) - points; !Busts(n) && n != 0
    ensures var s := Hit(st, points); var pi := Slot(st);
      !s.completed
      && (st.throw < 3 ==> s == st.(open := st.open + [points], throw := st.throw + 1))
      && (st.throw == 3 ==>
            PlayerTurns(s.data, pi) == PlayerTurns(st.data, pi) + [st.open + [points]]
            && |st.open + [points]| == 3 && s.open == [] && s.throw == 1)
  {
    if st.throw == 3 {
      CloseTurnFacts(st.(open := st.open + [points]), Target);
    }
  }

  // ---------------------------------------------------------------------------
  // The closed-turn test lets a player overshoot
  // ---------------------------------------------------------------------------

  /** One player with the given closed turns and an empty open turn. */
  function SoloState(turns: seq<Turn>): GameState {
    GameState(true, StartingPlayers(["A"]), 0, false, None, [turns], [], 1, None)
  }

  lemma SumOfThreeTurns(a: Turn, b: Turn, c: Turn)
    ensures Sum(Flatten([a, b, c])) == Sum(a) + Sum(b) + Sum(c)
  {
    assert [a, b, c][1..] == [b, c];
    assert [b, c][1..] == [c];
    assert [c][1..] == [];
    SumAppend(a, Flatten([b, c]));
    SumAppend(b, Flatten([c]));
    SumAppend(c, Flatten([]));
  }

  /**
   * With 50 left, a 20 and then a 50 end the game as a finish although the
   * player has scored 521: the second test subtracts 50 from the closed-turn
   * score 50, ignoring the open 20.
   */
  lemma OvershootFinishes()
    ensures var st := SoloState([[60, 60, 60], [60, 60, 60], [60, 31]]);
      Score(st.data, 0, Target) == 50
      && Hit(Hit(st, 20), 50).completed
      && ClosedSum(Hit(Hit(st, 20), 50).data, 0) == 521
  {
    var st := SoloState([[60, 60, 60], [60, 60, 60], [60, 31]]);
    SumOfThreeTurns([60, 60, 60], [60, 60, 60], [60, 31]);
    assert Score(st.data, 0, Target) == 50;
    var s1 := Hit(st, 20);
    assert s1 == st.(open := [20], throw := 2);
    var s2 := Hit(s1, 50);
    assert s2 == AfterFinish(s1, 50);
    AfterFinishFacts(s1, 50);
  }

  /**
   * With 100 left, three 60s are all accepted: the turn closes and the player's
   * score is -80 with no bust.
   */
  lemma OvershootWithoutBust()
    ensures var st := SoloState([[60, 60, 60], [60, 60, 60], [41]]);
      Score(st.data, 0, Target) == 100
      && var s := Hit(Hit(Hit(st, 60), 60), 60);
      !s.completed && Score(s.data, 0, Target) == -80 && !LiveLegal(s)
  {
    var st := SoloState([[60, 60, 60], [60, 60, 60], [41]]);
    SumOfThreeTurns([60, 60, 60], [60, 60, 60], [41]);
    assert Score(st.data, 0, Target) == 100;
    var s1 := Hit(st, 60);
    assert s1 == st.(open := [60], throw := 2);
    var s2 := Hit(s1, 60);
    assert s2 == st.(open := [60, 60], throw := 3);
    var s3 := Hit(s2, 60);
    assert s2.open + [60] == [60, 60, 60];
    assert s3 == CloseTurn(s2.(open := [60, 60, 60]), Target);
    CloseTurnFacts(s2.(open := [60, 60, 60]), Target);
    assert ClosedSum(s3.data, 0) == 401 + 180;
    assert LiveScore(s3, 0, Target) == -80;
  }

  // ---------------------------------------------------------------------------
  // The live-score rule
  // ---------------------------------------------------------------------------

  /**
   * Tested against the live score, a hit never leaves any player below 0 or at
   * 1, counting the open turn.
   */
  lemma HitLiveKeepsScoresLegal(st: GameState, points: int)
    requires Coherent(st) && LiveLegal(st)
    ensures LiveLegal(HitLive(st, points))
  {
    if !st.completed {
      var pi := Slot(st);
      var live := Score(st.data, pi, Target) - Sum(st.open);
      assert live == LiveScore(st, pi, Target);
      var newScore := live - points;
      if Busts(newScore) {
        HitLiveBustLegal(st, points);
      } else if newScore == 0 {
        HitLiveFinishLegal(st, points);
      } else if st.throw < 3 {
        HitLiveOpenLegal(st, points);
      } else {
        HitLiveCloseLegal(st, points);
      }
    }
  }

  /** A bust leaves the closed-turn scores, all legal, as the live scores. */
  lemma HitLiveBustLegal(st: GameState, points: int)
    requires Coherent(st) && LiveLegal(st) && !st.completed
    requires Busts(Score(st.data, Slot(st), Target) - Sum(st.open) - points)
    ensures LiveLegal(HitLive(st, points))
  {
    var pi := Slot(st);
    var s := HitLive(st, points);
    var d := if |st.open| > 0 then AppendTurn(st.data, pi, st.open) else EnsurePlayer(st.data, pi);
    var b := st.(data := d, open := [], throw := 1);
    assert Score(st.data, pi, Target) - Sum(st.open) == LiveScore(st, pi, Target);
    if |st.open| > 0 {
      LiveAfterAppend(st, b, pi, st.open, Target);
    } else {
      EnsurePlayerFacts(st.data, pi);
    }
    if |st.players| > 1 {
      NextPlayerFacts(b, Target);
    }
    forall p: nat
      ensures LiveScore(s, p, Target) >= 0 && LiveScore(s, p, Target) != 1
    {
      assert LiveScore(s, p, Target) == Score(b.data, p, Target);
      assert p != pi ==> Score(b.data, p, Target) == LiveScore(st, p, Target);
    }
  }

  /** A finish brings the thrower's live score to exactly 0 and leaves the others. */
  lemma HitLiveFinishLegal(st: GameState, points: int)
    requires Coherent(st) && LiveLegal(st) && !st.completed
    requires Score(st.data, Slot(st), Target) - Sum(st.open) - points == 0
    ensures LiveLegal(HitLive(st, points))
  {
    var pi := Slot(st);
    var s := HitLive(st, points);
    AfterFinishFacts(st, points);
    LiveAfterAppend(st, s, pi, st.open + [points], Target);
    SumAppend(st.open, [points]);
    assert Sum([points]) == points + Sum([]);
    assert LiveScore(s, pi, Target) == 0;
    forall p: nat
      ensures LiveScore(s, p, Target) >= 0 && LiveScore(s, p, Target) != 1
    {
      assert p != pi ==> LiveScore(s, p, Target) == LiveScore(st, p, Target);
    }
  }

  /** A throw that keeps the turn open moves the thrower's live score to the new, legal value. */
  lemma HitLiveOpenLegal(st: GameState, points: int)
    requires Coherent(st) && LiveLegal(st) && !st.completed && st.throw < 3
    requires var n := Score(st.data, Slot(st), Target) - Sum(st.open) - points; !Busts(n) && n != 0
    ensures LiveLegal(HitLive(st, points))
  {
    var pi := Slot(st);
    var s := HitLive(st, points);
    SumAppend(st.open, [points]);
    assert Sum([points]) == points + Sum([]);
    forall p: nat
      ensures LiveScore(s, p, Target) >= 0 && LiveScore(s, p, Target) != 1
    {
      assert p != pi ==> LiveScore(s, p, Target) == LiveScore(st, p, Target);
    }
  }

  /** A third throw closes the turn with the new, legal score. */
  lemma HitLiveCloseLegal(st: GameState, points: int)
    requires Coherent(st) && LiveLegal(st) && !st.completed && st.throw >= 3
    requires var n := Score(st.data, Slot(st), Target) - Sum(st.open) - points; !Busts(n) && n != 0
    ensures LiveLegal(HitLive(st, points))
  {
    var pi := Slot(st);
    var s := HitLive(st, points);
    var c := st.(open := st.open + [points]);
    var b := c.(data := AppendTurn(c.data, pi, c.open), open := [], throw := 1);
    LiveAfterAppend(c, b, pi, c.open, Target);
    SumAppend(st.open, [points]);
    assert Sum([points]) == points + Sum([]);
    if |st.players| > 1 {
      NextPlayerFacts(b, Target);
    }
    forall p: nat
      ensures LiveScore(s, p, Target) >= 0 && LiveScore(s, p, Target) != 1
    {
      assert LiveScore(s, p, Target) == Score(b.data, p, Target);
      assert p != pi ==> Score(b.data, p, Target) == LiveScore(st, p, Target);
    }
  }

  /** Under the live-score rule a finish means the player's throws total exactly 501. */
  lemma HitLiveFinishIsExact(st: GameState, points: int)
    requires Coherent(st) && !st.completed && HitLive(st, points).completed
    ensures ClosedSum(HitLive(st, points).data, Slot(st)) == Target
  {
    var pi := Slot(st);
    var live := Score(st.data, pi, Target) - Sum(st.open);
    if Busts(live - points) {
      AfterBustFacts(st, Target);
    } else if live - points == 0 {
      AfterFinishFacts(st, points);
    } else if st.throw >= 3 {
      CloseTurnFacts(st.(open := st.open + [points]), Target);
    }
  }
}
