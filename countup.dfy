/**
 * The count-up page (src/pages/game/countup.tsx): every throw adds to the
 * player's total, there is no bust, a turn holds at most three throws and is
 * closed by the Enter key, and the game ends after a chosen number of rounds
 * with the first player of highest total as winner.
 *
 * The page's turn close reads, when it picks the winner, the play data of the
 * render before the close (whose inner list already holds the pushed turn) and
 * the open turn not yet cleared; that close is `FinishTurnAsWritten`, and the
 * class follows it. `FinishTurn` is the intended close on the updated state,
 * and the lemmas about the round check and the winner are stated for it.
 */
module CountUp {
  import opened Wrappers
  import opened Players
  import opened PlayData
  import opened Rotation

  /** `useState(8)` */
  const DefaultRounds: nat := 8

  /** The round counts the setup offers. */
  const OfferedRounds: seq<nat> := [4, 6, 8, 10]

  /**
   * `getCurrentPlayerScore`: 0 without a turn list, otherwise the closed sum plus
   * the open turn's sum when the player is the current one.
   */
  function Total(st: GameState, p: int): int {
    if !(0 <= p < |st.data|) then 0
    else ClosedSum(st.data, p) + (if p == st.current && |st.open| > 0 then Sum(st.open) else 0)
  }

  /** Every player's total, in seat order. */
  function Totals(st: GameState, n: nat): seq<int> {
    seq(n, i requires 0 <= i < n => Total(st, i))
  }

  /** `handleDartHit`: no bust; ignored once completed or with three throws open. */
  function Hit(st: GameState, points: int): GameState {
    if st.completed || |st.open| >= 3 then st
    else st.(open := st.open + [points], throw := if st.throw < 3 then st.throw + 1 else st.throw)
  }

  /** The players `nextPlayer` may move to: those with fewer than `rounds` closed turns. */
  function RoundsLeft(data: Data, n: nat, rounds: int): seq<bool> {
    seq(n, i requires 0 <= i < n => |PlayerTurns(data, i)| < rounds)
  }

  /** `nextPlayer`: it moves when at least one player has rounds left. */
  function NextPlayerState(st: GameState, rounds: int): GameState
    requires IndexOk(st)
  {
    Rotate(st, RoundsLeft(st.data, |st.players|, rounds), 1)
  }

  /** `players.every(...)`: every player has played `rounds` turns. */
  predicate AllDone(data: Data, n: nat, rounds: int) {
    forall i :: 0 <= i < n ==> |PlayerTurns(data, i)| >= rounds
  }

  /** The winner scan's state: the index and the score of the leader so far. */
  datatype Lead = Lead(index: nat, score: int)

  /**
   * The leader after scanning all of `t` from `Lead(0, -1)`, taking a later
   * entry only when it is strictly greater.
   */
  function Leader(t: seq<int>): (r: Lead)
    ensures |t| > 0 ==> r.index < |t|
  {
    if |t| == 0 then Lead(0, -1)
    else
      var l := Leader(t[..|t| - 1]);
      if t[|t| - 1] > l.score then Lead(|t| - 1, t[|t| - 1]) else l
  }

  /** `w` is the lowest index holding the maximum of `t`. */
  predicate IsFirstMax(t: seq<int>, w: int) {
    0 <= w < |t| && (forall i :: 0 <= i < |t| ==> t[i] <= t[w]) && (forall i :: 0 <= i < w ==> t[i] < t[w])
  }

  /** The record the game keeps for its winner. */
  function WinnerCard(id: string, name: string, score: int, history: seq<int>, turns: seq<Turn>): Player {
    Player(id, name, score, false, history, true, 1, [], turns)
  }

  /** The open turn appended, the open turn emptied and the counter back at 1. */
  function Appended(st: GameState): GameState {
    st.(data := AppendTurn(st.data, Slot(st), st.open), open := [], throw := 1)
  }

  /**
   * What follows a close, given the appended state `s` and the state `view` whose
   * totals, histories and round counts the winner choice and `nextPlayer` read.
   */
  function Settle(st: GameState, rounds: int, s: GameState, view: GameState): GameState
    requires IndexOk(st) && |s.players| == |st.players| && s.current == st.current
  {
    var pi := Slot(st);
    var n := |st.players|;
    if |PlayerTurns(s.data, pi)| < rounds then
      (if n > 1 then Rotate(s, RoundsLeft(view.data, n, rounds), 1) else s)
    else if n > 1 then
      if AllDone(s.data, n, rounds) then
        var l := Leader(Totals(view, n));
        s.(completed := true, winner := Some(WinnerCard(st.players[l.index].id, st.players[l.index].name, l.score,
                                                         Flatten(PlayerTurns(view.data, l.index)), PlayerTurns(s.data, l.index))))
      else Rotate(s, RoundsLeft(view.data, n, rounds), 1)
    else
      s.(completed := true, winner := Some(WinnerCard("single-player", "プレイヤー1", Total(view, 0),
                                                       Flatten(PlayerTurns(view.data, 0)), PlayerTurns(s.data, 0))))
  }

  /** The guard of `finishCurrentTurn`: a running game with three throws open and the counter at 3. */
  predicate MayFinish(st: GameState) {
    !st.completed && |st.open| > 0 && st.throw == 3 && |st.open| >= 3
  }

  /** `finishCurrentTurn` as one transition on the updated state. */
  function FinishTurn(st: GameState, rounds: int): GameState
    requires IndexOk(st)
  {
    if !MayFinish(st) then st
    else Settle(st, rounds, Appended(st), Appended(st))
  }

  /**
   * The turn lists as the closure of the render before the close sees them: the
   * outer list is the old one, but the closing player's own list was extended
   * in place by `push`, when it existed.
   */
  function Seen(st: GameState): Data {
    if Slot(st) < |st.data| then AppendTurn(st.data, Slot(st), st.open) else st.data
  }

  /**
   * `finishCurrentTurn` as the page evaluates it: the winner choice reads the
   * previous render's `currentTurnData`, so the closing player's last turn is
   * counted once in the turn list and again as the open turn.
   */
  function FinishTurnAsWritten(st: GameState, rounds: int): GameState
    requires IndexOk(st)
  {
    if !MayFinish(st) then st
    else Settle(st, rounds, Appended(st), st.(data := Seen(st)))
  }

  /** The manual input: nothing once completed, the open correction if there is one, else a hit. */
  function ManualInput(st: GameState, points: int): GameState {
    if st.completed then st
    else if st.editing.Some? then Update(st, points)
    else Hit(st, points)
  }

  /** Between events, as long as no correction has padded the open turn: the counter is `|open| + 1` capped at 3. */
  predicate Counted(st: GameState) {
    IndexOk(st) && |st.open| <= 3 && st.throw == Min(|st.open| + 1, 3)
  }

  /** The page's state cells. */
  class Game {
    var playing: bool
    var players: seq<Player>
    var current: nat
    var completed: bool
    var winner: Option<Player>
    var totalRounds: nat
    var data: Data
    var open: Turn
    var throw: int
    var editing: Option<Edit>

    function State(): GameState
      reads this
    {
      GameState(playing, players, current, completed, winner, data, open, throw, editing)
    }

    /** The current index is in range and the counter is between 1 and 3. */
    predicate Valid()
      reads this
    {
      IndexOk(State()) && 1 <= throw <= 3
    }

    constructor()
      ensures State() == Initial && totalRounds == DefaultRounds && Valid()
    {
      playing, players, current, completed, winner := false, [], 0, false, None;
      totalRounds := DefaultRounds;
      data, open, throw, editing := [], [], 1, None;
    }

    /** The round selector of the setup screen. */
    method SelectRounds(rounds: nat)
      requires rounds in OfferedRounds
      modifies this
      ensures totalRounds == rounds && State() == old(State())
    {
      totalRounds := rounds;
    }

    /** `handleGameStart` */
    method HandleGameStart(newPlayers: seq<Player>)
      modifies this
      ensures State() == StartGame(old(State()), newPlayers) && Valid()
      ensures totalRounds == old(totalRounds)
    {
      players := newPlayers;
      current := 0;
      playing := true;
      completed := false;
      winner := None;
      data := seq(|newPlayers|, _ => []);
      open := [];
      throw := 1;
    }

    /** `resetGame` */
    method ResetGame()
      modifies this
      ensures State() == PlayData.ResetGame(old(State())) && Valid()
      ensures totalRounds == old(totalRounds)
    {
      playing := false;
      players := [];
      current := 0;
      completed := false;
      winner := None;
      data := [];
      open := [];
      throw := 1;
    }

    /** `nextPlayer`, with its `while (true)` scan. */
    method NextPlayer()
      requires IndexOk(State())
      modifies this
      ensures State() == NextPlayerState(old(State()), totalRounds) && totalRounds == old(totalRounds)
    {
      NextPlayerSeeing(data);
    }

    /** `nextPlayer` as called from a closure whose `gamePlayData` is `seen`. */
    method NextPlayerSeeing(seen: Data)
      requires IndexOk(State())
      modifies this
      ensures State() == Rotate(old(State()), RoundsLeft(seen, |old(players)|, totalRounds), 1) && totalRounds == old(totalRounds)
      ensures |players| == |old(players)|
    {
      if completed || |players| <= 1 {
        return;
      }
      var elig := RoundsLeft(seen, |players|, totalRounds);
      if CountTrue(elig) <= 0 {
        return;
      }
      var next := ScanUntilEligible(elig, current);
      players := Activate(players, next);
      current := next;
      throw := 1;
    }

    /** `handleDartHit` */
    method HandleDartHit(points: int)
      requires Valid()
      modifies this
      ensures State() == Hit(old(State()), points) && Valid() && totalRounds == old(totalRounds)
    {
      if completed || |open| >= 3 {
        return;
      }
      open := open + [points];
      if throw < 3 {
        throw := throw + 1;
      }
    }

    /**
     * `finishCurrentTurn`, bound to the Enter key, with the winner scan as a loop.
     * Its reads after the `push` see `gamePlayData` and `currentTurnData` of the
     * render it was created in: the old outer list, whose inner list for the
     * closing player (when it existed) is the one `push` extended, and the open
     * turn not yet cleared.
     */
    method FinishCurrentTurn()
      requires Valid()
      modifies this
      ensures State() == FinishTurnAsWritten(old(State()), totalRounds) && Valid() && totalRounds == old(totalRounds)
    {
      if completed || |open| == 0 {
        return;
      }
      if throw != 3 || |open| < 3 {
        return;
      }
      var before := State();
      var pi := if |players| > 1 then current else 0;
      var listed := pi < |data|;
      data := AppendTurn(data, pi, open);
      open := [];
      throw := 1;
      var seen := if listed then data else before.data;
      var view := before.(data := seen);
      assert State() == Appended(before);
      assert view == before.(data := Seen(before));
      SettleAfterClose(before, view);
    }

    /**
     * The rest of `finishCurrentTurn` once the open turn is appended: the round
     * check on the new lists, and the winner scan, the winner's history and
     * `nextPlayer` on the lists and open turn of `view`.
     */
    method SettleAfterClose(st: GameState, view: GameState)
      requires IndexOk(st) && State() == Appended(st) && 1 <= throw <= 3
      modifies this
      ensures State() == Settle(st, totalRounds, Appended(st), view) && Valid() && totalRounds == old(totalRounds)
    {
      var multi := |players| > 1;
      var pi := if multi then current else 0;
      var completedRounds := |PlayerTurns(data, pi)|;
      if completedRounds >= totalRounds {
        if multi {
          if AllDone(data, |players|, totalRounds) {
            var winnerIndex, maxScore := PickWinner(Totals(view, |players|));
            completed := true;
            winner := Some(WinnerCard(players[winnerIndex].id, players[winnerIndex].name, maxScore,
                                      Flatten(PlayerTurns(view.data, winnerIndex)), PlayerTurns(data, winnerIndex)));
          } else {
            NextPlayerSeeing(view.data);
          }
        } else {
          completed := true;
          winner := Some(WinnerCard("single-player", "プレイヤー1", Total(view, 0),
                                    Flatten(PlayerTurns(view.data, 0)), PlayerTurns(data, 0)));
        }
      } else if multi {
        NextPlayerSeeing(view.data);
      }
    }

    /** `startEditHistoryData` */
    method StartEditHistoryData(playerIndex: nat, turnIndex: int, throwIndex: nat)
      requires Valid()
      modifies this
      ensures State() == StartEdit(old(State()), playerIndex, turnIndex, throwIndex) && Valid()
      ensures totalRounds == old(totalRounds)
    {
      if completed {
        return;
      }
      editing := Some(Edit(playerIndex, turnIndex, throwIndex, SlotValue(State(), playerIndex, turnIndex, throwIndex)));
    }

    /** `updateHistoryData` */
    method UpdateHistoryData(newScore: int)
      requires Valid()
      modifies this
      ensures State() == Update(old(State()), newScore) && Valid() && totalRounds == old(totalRounds)
    {
      match editing
      case None =>
      case Some(e) =>
        if e.turnIndex == -1 {
          open := SetSlot(open, e.throwIndex, newScore);
        } else if e.turnIndex >= 0 {
          data := SetThrow(data, e.playerIndex, e.turnIndex, e.throwIndex, newScore);
        } else {
          data := EnsurePlayer(data, e.playerIndex);
        }
        editing := None;
    }

    /** `cancelEditHistoryData` */
    method CancelEditHistoryData()
      requires Valid()
      modifies this
      ensures State() == Cancel(old(State())) && Valid() && totalRounds == old(totalRounds)
    {
      editing := None;
    }

    /** The manual score input: disabled once completed, routed to the correction while one is open. */
    method DartBoardHit(points: int)
      requires Valid()
      modifies this
      ensures State() == ManualInput(old(State()), points) && Valid() && totalRounds == old(totalRounds)
    {
      if completed {
        return;
      }
      if editing.Some? {
        UpdateHistoryData(points);
      } else {
        HandleDartHit(points);
      }
    }
  }

  /**
   * The `forEach` over the players: `maxScore` starts at -1 and `winnerIndex` at
   * 0, and a total replaces the leader only when strictly greater.
   */
  method PickWinner(totals: seq<int>) returns (winnerIndex: nat, maxScore: int)
    ensures Lead(winnerIndex, maxScore) == Leader(totals)
    ensures maxScore >= -1 && forall i :: 0 <= i < |totals| ==> totals[i] <= maxScore
    ensures maxScore >= 0 ==> IsFirstMax(totals, winnerIndex) && totals[winnerIndex] == maxScore
  {
    maxScore := -1;
    winnerIndex := 0;
    var i := 0;
    while i < |totals|
      invariant 0 <= i <= |totals|
      invariant Lead(winnerIndex, maxScore) == Leader(totals[..i])
    {
      assert totals[..i + 1][..i] == totals[..i];
      if totals[i] > maxScore {
        maxScore := totals[i];
        winnerIndex := i;
      }
      i := i + 1;
    }
    assert totals[..|totals|] == totals;
    LeaderSpec(totals);
  }

  // ---------------------------------------------------------------------------
  // The winner scan
  // ---------------------------------------------------------------------------

  /**
   * The leader's score is the largest total (or -1 when every total is below 0);
   * when it is at least 0 the leader is the lowest index holding it, and
   * otherwise the index stays 0.
   */
  lemma {:induction false} LeaderSpec(t: seq<int>)
    ensures var r := Leader(t);
      r.score >= -1 && (forall i :: 0 <= i < |t| ==> t[i] <= r.score)
      && (r.score >= 0 ==> IsFirstMax(t, r.index) && t[r.index] == r.score)
      && (r.score == -1 ==> r.index == 0)
  {
    if |t| > 0 {
      var p := t[..|t| - 1];
      LeaderSpec(p);
      var l := Leader(p);
      assert forall i :: 0 <= i < |p| ==> t[i] == p[i];
    }
  }

  /** There is only one lowest index of the maximum. */
  lemma FirstMaxUnique(t: seq<int>, w: int, v: int)
    requires IsFirstMax(t, w) && IsFirstMax(t, v)
    ensures w == v
  {
    assert t[v] <= t[w] && t[w] <= t[v];
  }

  // ---------------------------------------------------------------------------
  // Totals and the transitions
  // ---------------------------------------------------------------------------

  /**
   * An accepted hit adds its points to the current player's total and changes
   * no other total; no hit is accepted once completed or with three throws open.
   */
  lemma HitAddsToTotal(st: GameState, points: int)
    requires st.current < |st.data|
    ensures var s := Hit(st, points);
      (st.completed || |st.open| >= 3 ==> s == st)
      && (!st.completed && |st.open| < 3 ==>
            Total(s, st.current) == Total(st, st.current) + points
            && (forall q :: q != st.current ==> Total(s, q) == Total(st, q))
            && s.data == st.data && s.current == st.current)
  {
    if !st.completed && |st.open| < 3 {
      SumAppend(st.open, [points]);
      assert Sum([points]) == points + Sum([]);
    }
  }

  /** A hit keeps the counter in step with the open turn. */
  lemma HitKeepsCounted(st: GameState, points: int)
    requires Counted(st)
    ensures Counted(Hit(st, points))
  {
  }

  /** Appending moves the open throws into the closed turns, so every total stays. */
  lemma AppendedKeepsTotals(st: GameState)
    requires Slot(st) == st.current && st.current < |st.data|
    ensures forall q :: Total(Appended(st), q) == Total(st, q)
  {
    var a := Appended(st);
    AppendTurnFacts(st.data, st.current, st.open);
    forall q
      ensures Total(a, q) == Total(st, q)
    {
      if q != st.current {
        assert PlayerTurns(a.data, q) == PlayerTurns(st.data, q);
      }
    }
  }

  /**
   * The Enter key: nothing unless the game runs with three throws open and the
   * counter at 3; otherwise the open turn is appended to the current player's
   * turns, and the game completes exactly when that player has reached `rounds`
   * turns and, with several players, every player has.
   */
  lemma FinishTurnOutcome(st: GameState, rounds: int)
    requires IndexOk(st)
    ensures var s := FinishTurn(st, rounds); var pi := Slot(st); var n := |st.players|;
      (!MayFinish(st) ==> s == st)
      && (MayFinish(st) ==>
            PlayerTurns(s.data, pi) == PlayerTurns(st.data, pi) + [st.open]
            && (forall q :: q != pi ==> PlayerTurns(s.data, q) == PlayerTurns(st.data, q))
            && s.open == [] && s.throw == 1 && IndexOk(s)
            && (s.completed <==> |PlayerTurns(s.data, pi)| >= rounds && (n > 1 ==> AllDone(s.data, n, rounds))))
  {
    if MayFinish(st) {
      var a := Appended(st);
      AppendTurnFacts(st.data, Slot(st), st.open);
      var n := |st.players|;
      if n > 1 {
        RotateFacts(a, RoundsLeft(a.data, n, rounds), 1);
      }
    }
  }

  /**
   * With several players, the winner of a completed game is the first player
   * with the highest total, and the recorded score is that total.
   */
  lemma FinishTurnPicksFirstHighest(st: GameState, rounds: int)
    requires IndexOk(st) && MayFinish(st) && |st.players| > 1
    requires FinishTurn(st, rounds).completed
    requires exists i :: 0 <= i < |st.players| && Total(Appended(st), i) >= 0
    ensures var s := FinishTurn(st, rounds); var t := Totals(s, |st.players|); var w := Leader(t).index;
      IsFirstMax(t, w) && s.winner.Some? && s.winner.value.id == st.players[w].id
      && s.winner.value.score == t[w] && s.winner.value.turnHistory == PlayerTurns(s.data, w)
  {
    var a := Appended(st);
    var n := |st.players|;
    var t := Totals(a, n);
    LeaderSpec(t);
    var i :| 0 <= i < n && Total(a, i) >= 0;
    assert t[i] >= 0;
    assert FinishTurn(st, rounds).data == a.data && FinishTurn(st, rounds).open == [];
    assert Totals(FinishTurn(st, rounds), n) == t;
  }

  /** Closing a turn never changes a total: the open throws only move into the closed list. */
  lemma FinishTurnKeepsTotals(st: GameState, rounds: int)
    requires IndexOk(st) && Slot(st) == st.current && st.current < |st.data|
    ensures forall q :: ClosedSum(FinishTurn(st, rounds).data, q) + (if q == st.current && !MayFinish(st) && |st.open| > 0 then Sum(st.open) else 0)
                         == Total(st, q)
  {
    if MayFinish(st) {
      var a := Appended(st);
      AppendedKeepsTotals(st);
      AppendTurnFacts(st.data, st.current, st.open);
      var s := FinishTurn(st, rounds);
      if |st.players| > 1 {
        RotateFacts(a, RoundsLeft(a.data, |st.players|, rounds), 1);
      }
      assert s.data == a.data;
      forall q
        ensures ClosedSum(s.data, q) == Total(st, q)
      {
        assert Total(a, q) == Total(st, q);
        if !(0 <= q < |a.data|) {
          assert PlayerTurns(a.data, q) == [];
        }
      }
    }
  }

  /** A single player's game completes when that player reaches `rounds` turns, recording the closed total. */
  lemma SingleFinishRecordsTotal(st: GameState, rounds: int)
    requires IndexOk(st) && MayFinish(st) && |st.players| <= 1
    requires |PlayerTurns(st.data, 0)| + 1 >= rounds
    ensures var s := FinishTurn(st, rounds);
      s.completed && s.winner.Some? && s.winner.value.id == "single-player"
      && s.winner.value.score == ClosedSum(s.data, 0)
      && ClosedSum(s.data, 0) == ClosedSum(st.data, 0) + Sum(st.open)
  {
    AppendTurnFacts(st.data, 0, st.open);
  }

  /**
   * A close that does not complete the game, with several players, rotates to
   * the nearest successor with rounds left (or stays when nobody has any left),
   * leaving exactly one player active.
   */
  lemma FinishTurnRotates(st: GameState, rounds: int)
    requires IndexOk(st) && MayFinish(st) && |st.players| > 1
    requires !FinishTurn(st, rounds).completed
    ensures var s := FinishTurn(st, rounds); var a := Appended(st);
      s == NextPlayerState(a, rounds)
      && (CountTrue(RoundsLeft(a.data, |st.players|, rounds)) >= 1 ==>
            |PlayerTurns(s.data, s.current)| < rounds && ActiveCount(s.players) == 1 && s.players[s.current].isActive)
  {
    var a := Appended(st);
    AppendTurnFacts(st.data, Slot(st), st.open);
    RotateFacts(a, RoundsLeft(a.data, |st.players|, rounds), 1);
  }

  /** `nextPlayer` returns early only when the game is over, with one player, or with nobody left to play. */
  lemma NextPlayerFacts(st: GameState, rounds: int)
    requires IndexOk(st)
    ensures var s := NextPlayerState(st, rounds); var n := |st.players|;
      s.data == st.data && s.open == st.open && IndexOk(s)
      && ((st.completed || n <= 1 || CountTrue(RoundsLeft(st.data, n, rounds)) == 0) ==> s == st)
      && (!(st.completed || n <= 1 || CountTrue(RoundsLeft(st.data, n, rounds)) == 0) ==>
            |PlayerTurns(st.data, s.current)| < rounds && ActiveCount(s.players) == 1 && s.throw == 1
            && (forall i :: 0 <= i < n && 0 < Dist(st.current, i, n) < Dist(st.current, s.current, n)
                  ==> |PlayerTurns(st.data, i)| >= rounds))
  {
    var n := |st.players|;
    var elig := RoundsLeft(st.data, n, rounds);
    RotateFacts(st, elig, 1);
    if !(st.completed || n <= 1 || CountTrue(elig) == 0) {
      NextIndexSpec(elig, st.current);
      var r := NextIndex(elig, st.current);
      forall i | 0 <= i < n && 0 < Dist(st.current, i, n) < Dist(st.current, r, n)
        ensures |PlayerTurns(st.data, i)| >= rounds
      {
        assert !elig[i];
      }
    }
  }

  /** Once the game is completed nothing a player does changes the state. */
  lemma NothingAfterCompletion(st: GameState, rounds: int, points: int)
    requires IndexOk(st) && st.completed
    ensures Hit(st, points) == st && FinishTurn(st, rounds) == st && ManualInput(st, points) == st
  {
  }

  // ---------------------------------------------------------------------------
  // The winner choice as written counts the last turn twice
  // ---------------------------------------------------------------------------

  /**
   * As written, the totals read at the winner choice give the closing player
   * the open throws twice, in the pushed turn and as the still-visible open
   * turn; every other total is as after the close.
   */
  lemma AsWrittenTotalsCountLastTurnTwice(st: GameState)
    requires IndexOk(st) && MayFinish(st) && Slot(st) == st.current && st.current < |st.data|
    ensures var v := st.(data := Seen(st)); var a := Appended(st);
      Total(v, st.current) == Total(a, st.current) + Sum(st.open)
      && forall q :: q != st.current ==> Total(v, q) == Total(a, q)
  {
    AppendTurnFacts(st.data, st.current, st.open);
    var v := st.(data := Seen(st));
    var a := Appended(st);
    assert v.data == a.data;
  }

  /**
   * Once the closing player's list exists, the page's close and the intended
   * one agree on everything but the winner record: the lists, the open turn,
   * the counter, the index, the active flags and completion, and a winner's
   * history and turn list. Only the winner's choice and score can differ.
   */
  lemma AsWrittenDiffersOnlyInWinner(st: GameState, rounds: int)
    requires IndexOk(st) && Slot(st) < |st.data|
    ensures var w := FinishTurnAsWritten(st, rounds); var c := FinishTurn(st, rounds);
      w.(winner := None) == c.(winner := None)
      && (w.winner.Some? <==> c.winner.Some?)
      && (MayFinish(st) && w.completed ==>
            w.winner.Some? && w.winner.value.gameHistory == Flatten(w.winner.value.turnHistory)
            && c.winner.value.gameHistory == Flatten(c.winner.value.turnHistory))
  {
    if MayFinish(st) {
      var a := Appended(st);
      assert Seen(st) == a.data;
    }
  }

  /** Two players, one round: A has scored 30; B closes 20, 0, 0. */
  function TwoPlayerState(): GameState {
    GameState(true, StartingPlayers(["A", "B"]), 1, false, None, [[[10, 10, 10]], []], [20, 0, 0], 3, None)
  }

  /**
   * With 30 against 20, the page as written names B (counted 40) the winner
   * with score 40, while B's throws total 20 and A's 30.
   */
  lemma AsWrittenPicksWrongWinner()
    ensures var st := TwoPlayerState(); var s := FinishTurnAsWritten(st, 1); var c := FinishTurn(st, 1);
      s.completed && s.winner.Some? && s.winner.value.name == "B" && s.winner.value.score == 40
      && ClosedSum(s.data, 1) == 20 && ClosedSum(s.data, 0) == 30
      && c.completed && c.winner.Some? && c.winner.value.name == "A" && c.winner.value.score == 30
  {
    var st := TwoPlayerState();
    var a := Appended(st);
    assert Slot(st) == 1 && EnsurePlayer(st.data, 1) == st.data;
    assert a.data == st.data[1 := st.data[1] + [[20, 0, 0]]];
    assert st.data[1] + [[20, 0, 0]] == [[20, 0, 0]];
    assert |a.data| == 2 && a.data[0] == [[10, 10, 10]] && a.data[1] == [[20, 0, 0]];
    assert a.data == [[[10, 10, 10]], [[20, 0, 0]]];
    assert Sum([10, 10, 10]) == 30;
    assert Sum([20, 0, 0]) == 20;
    assert ClosedSum(a.data, 0) == 30 by { assert Flatten([[10, 10, 10]]) == [10, 10, 10] + Flatten([]); }
    assert ClosedSum(a.data, 1) == 20 by { assert Flatten([[20, 0, 0]]) == [20, 0, 0] + Flatten([]); }
    var n := 2;
    assert AllDone(a.data, n, 1);
    var v := st.(data := Seen(st));
    assert v.data == a.data;
    assert Totals(v, n) == [30, 40];
    assert Totals(a, n) == [30, 20];
    assert Leader([30, 40]) == Lead(1, 40) by {
      assert [30, 40][..1] == [30];
      assert [30][..0] == [];
    }
    assert Leader([30, 20]) == Lead(0, 30) by {
      assert [30, 20][..1] == [30];
      assert [30][..0] == [];
    }
  }

  /** A single player's final score as written is the closed total plus the last turn once more. */
  lemma AsWrittenSingleFinalScore(st: GameState, rounds: int)
    requires IndexOk(st) && MayFinish(st) && |st.players| <= 1 && 0 < |st.data|
    requires |PlayerTurns(st.data, 0)| + 1 >= rounds
    ensures var s := FinishTurnAsWritten(st, rounds);
      s.completed && s.winner.Some? && s.winner.value.score == ClosedSum(s.data, 0) + Sum(st.open)
  {
    AppendTurnFacts(st.data, 0, st.open);
  }

  // ---------------------------------------------------------------------------
  // A correction of the open turn outlives the turn
  // ---------------------------------------------------------------------------

  /**
   * Enter does not end a pending correction of the open turn, so the next pad
   * value writes into the emptied open turn (of whichever player is now
   * current): the turn becomes holes up to the corrected slot, the counter stays
   * 1, and from slot 2 on it holds three throws, so hits and Enter are ignored.
   */
  lemma OpenCorrectionSurvivesEnter(st: GameState, rounds: int, v: int)
    requires IndexOk(st) && MayFinish(st)
    requires st.editing.Some? && st.editing.value.turnIndex == -1
    requires !FinishTurnAsWritten(st, rounds).completed
    ensures var s := FinishTurnAsWritten(st, rounds); var m := ManualInput(s, v); var i := st.editing.value.throwIndex;
      s.editing == st.editing && s.open == [] && s.throw == 1
      && m.open == SetSlot([], i, v) && |m.open| == i + 1 && m.throw == 1 && !Counted(m)
      && (i >= 2 ==> !MayFinish(m) && forall x :: Hit(m, x) == m)
  {
    var a := Appended(st);
    var n := |st.players|;
    RotateFacts(a, RoundsLeft(Seen(st), n, rounds), 1);
    SetSlotFacts([], st.editing.value.throwIndex, v);
  }

  /** The intended Enter: as the close, and a pending correction of the open turn ends with the turn. */
  function FinishTurnEndingCorrection(st: GameState, rounds: int): GameState
    requires IndexOk(st)
  {
    if MayFinish(st) then EndOpenCorrection(FinishTurn(st, rounds)) else st
  }

  /**
   * After the intended Enter no correction addresses the new open turn, so the
   * next pad value is a hit or a closed-turn correction that leaves the open
   * turn and the counter alone, and the counter stays in step with the turn.
   */
  lemma CorrectedEnterKeepsCounted(st: GameState, rounds: int, v: int)
    requires IndexOk(st) && MayFinish(st)
    ensures var s := FinishTurnEndingCorrection(st, rounds); var m := ManualInput(s, v);
      Counted(s) && Counted(m)
      && (s.editing.Some? ==> s.editing.value.turnIndex != -1)
      && (m == Hit(s, v) || (m.open == s.open && m.throw == s.throw))
  {
    FinishTurnOutcome(st, rounds);
    var s := FinishTurnEndingCorrection(st, rounds);
    HitKeepsCounted(s, v);
  }
}
