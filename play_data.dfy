/**
 * The play data the three game pages share: per player the list of closed turns
 * (`gamePlayData`), the open turn (`currentTurnData`), the throw counter, the
 * current player and the completion state, plus the operations on it that the
 * pages write identically (start, reset, append a turn).
 *
 * JavaScript arrays written past their end get holes; a hole in a turn list is
 * modelled as an empty turn and a hole in a turn as a 0 throw. This keeps the
 * length of the written list. It does not keep what JavaScript makes of a hole
 * later: a spread turns it into `undefined`, so a sum over it gives NaN, and
 * `flat()` drops it, so a flattened history is shorter than here. Only a
 * correction written past the end creates holes.
 */
module PlayData {
  import opened Wrappers
  import opened Players

  /** One turn: the points of up to three throws. */
  type Turn = seq<int>

  /** `gamePlayData`: per player, the closed turns. */
  type Data = seq<seq<Turn>>

  /** An open correction (`editingHistoryData`); turn index -1 means the open turn. */
  datatype Edit = Edit(playerIndex: nat, turnIndex: int, throwIndex: nat, currentScore: int)

  /** The state cells of a game page. */
  datatype GameState = GameState(
    playing: bool,
    players: seq<Player>,
    current: nat,
    completed: bool,
    winner: Option<Player>,
    data: Data,
    open: Turn,
    throw: int,
    editing: Option<Edit>)

  function Sum(s: seq<int>): int {
    if s == [] then 0 else s[0] + Sum(s[1..])
  }

  /** `flat()` of a turn list. */
  function Flatten(ts: seq<Turn>): seq<int> {
    if ts == [] then [] else ts[0] + Flatten(ts[1..])
  }

  /** `gamePlayData[p] || []` */
  function PlayerTurns(data: Data, p: int): seq<Turn> {
    if 0 <= p < |data| then data[p] else []
  }

  /** The sum of every throw in the player's closed turns. */
  function ClosedSum(data: Data, p: int): int {
    Sum(Flatten(PlayerTurns(data, p)))
  }

  /** `if (!newGamePlayData[p]) newGamePlayData[p] = []` */
  function EnsurePlayer(data: Data, p: nat): Data {
    if p < |data| then data else data + seq(p + 1 - |data|, _ => [])
  }

  /** `newGamePlayData[p].push(turn)` after making sure the list exists. */
  function AppendTurn(data: Data, p: nat, turn: Turn): Data {
    var d := EnsurePlayer(data, p);
    d[p := d[p] + [turn]]
  }

  /** The state before any game: the setup screen with nothing recorded. */
  const Initial := GameState(false, [], 0, false, None, [], [], 1, None)

  /** `handleGameStart`; an open correction is not cleared. */
  function StartGame(st: GameState, newPlayers: seq<Player>): GameState {
    GameState(true, newPlayers, 0, false, None, seq(|newPlayers|, _ => []), [], 1, st.editing)
  }

  /** `resetGame`; an open correction is not cleared. */
  function ResetGame(st: GameState): GameState {
    GameState(false, [], 0, false, None, [], [], 1, st.editing)
  }

  /** The player whose turn lists a hit goes to: the current one with several players, else 0. */
  function Slot(st: GameState): nat {
    if |st.players| > 1 then st.current else 0
  }

  /** The current index names a player, or is 0. */
  predicate IndexOk(st: GameState) {
    st.current == 0 || st.current < |st.players|
  }

  // ---------------------------------------------------------------------------
  // Lemmas about sums and turn lists
  // ---------------------------------------------------------------------------

  lemma {:induction false} SumAppend(a: seq<int>, b: seq<int>)
    ensures Sum(a + b) == Sum(a) + Sum(b)
  {
    if a == [] {
      assert a + b == b;
    } else {
      assert (a + b)[1..] == a[1..] + b;
      SumAppend(a[1..], b);
    }
  }

  lemma {:induction false} FlattenAppend(a: seq<Turn>, b: seq<Turn>)
    ensures Flatten(a + b) == Flatten(a) + Flatten(b)
  {
    if a == [] {
      assert a + b == b;
    } else {
      assert (a + b)[1..] == a[1..] + b;
      FlattenAppend(a[1..], b);
    }
  }

  /** Appending a turn adds exactly its throws to the player's closed sum. */
  lemma ClosedSumAppend(ts: seq<Turn>, t: Turn)
    ensures Flatten(ts + [t]) == Flatten(ts) + t
    ensures Sum(Flatten(ts + [t])) == Sum(Flatten(ts)) + Sum(t)
  {
    FlattenAppend(ts, [t]);
    assert Flatten([t]) == t + Flatten([]);
    SumAppend(Flatten(ts), t);
  }

  /** Making sure a list exists changes no player's turns and keeps every list. */
  lemma EnsurePlayerFacts(data: Data, p: nat)
    ensures |EnsurePlayer(data, p)| == if p < |data| then |data| else p + 1
    ensures forall q :: PlayerTurns(EnsurePlayer(data, p), q) == PlayerTurns(data, q)
  {
  }

  /**
   * Appending a turn for `p` extends exactly p's list by that turn; every other
   * player's turns are unchanged.
   */
  lemma AppendTurnFacts(data: Data, p: nat, t: Turn)
    ensures p < |AppendTurn(data, p, t)|
    ensures PlayerTurns(AppendTurn(data, p, t), p) == PlayerTurns(data, p) + [t]
    ensures forall q :: q != p ==> PlayerTurns(AppendTurn(data, p, t), q) == PlayerTurns(data, q)
    ensures ClosedSum(AppendTurn(data, p, t), p) == ClosedSum(data, p) + Sum(t)
    ensures |AppendTurn(data, p, t)| == |EnsurePlayer(data, p)|
  {
    EnsurePlayerFacts(data, p);
    ClosedSumAppend(PlayerTurns(data, p), t);
  }

  /** Starting a game gives every player an empty turn list, index 0, an empty open turn and counter 1. */
  lemma StartGameFacts(st: GameState, newPlayers: seq<Player>)
    ensures var s := StartGame(st, newPlayers);
      s.playing && s.players == newPlayers && s.current == 0 && !s.completed && s.winner == None
      && |s.data| == |newPlayers| && s.open == [] && s.throw == 1 && IndexOk(s)
      && (forall p :: PlayerTurns(s.data, p) == []) && (forall p :: ClosedSum(s.data, p) == 0)
  {
  }

  // ---------------------------------------------------------------------------
  // Corrections (`startEditHistoryData`, `updateHistoryData`, `cancelEditHistoryData`
  // of the 301 and count-up pages)
  // ---------------------------------------------------------------------------

  /** `s[i] || 0` */
  function ReadSlot(s: seq<int>, i: nat): int {
    if i < |s| then s[i] else 0
  }

  /** `s[i] = v` on a copy; positions skipped over are holes, modelled as 0. */
  function SetSlot(s: seq<int>, i: nat, v: int): seq<int> {
    if i < |s| then s[i := v] else s + seq(i - |s|, _ => 0) + [v]
  }

  /** The value a correction started at (p, t, i) reports as the current score. */
  function SlotValue(st: GameState, p: nat, t: int, i: nat): int {
    if t == -1 then ReadSlot(st.open, i)
    else if 0 <= t < |PlayerTurns(st.data, p)| then ReadSlot(PlayerTurns(st.data, p)[t], i)
    else 0
  }

  /** `startEditHistoryData`: refused once the game is completed. */
  function StartEdit(st: GameState, p: nat, t: int, i: nat): GameState {
    if st.completed then st else st.(editing := Some(Edit(p, t, i, SlotValue(st, p, t, i))))
  }

  /** `newGamePlayData[p][t][i] = v`, creating the player's list and the turn when missing; skipped turns and throws are holes, modelled as empty turns and 0 throws. */
  function SetThrow(data: Data, p: nat, t: nat, i: nat, v: int): Data {
    var d := EnsurePlayer(data, p);
    var ts := if t < |d[p]| then d[p] else d[p] + Empties(t + 1 - |d[p]|);
    d[p := ts[t := SetSlot(ts[t], i, v)]]
  }

  /**
   * `updateHistoryData`: with no open correction nothing happens; otherwise the
   * addressed slot is written and edit mode ends. A negative turn index other
   * than -1 addresses no element, so only the player's list is created.
   */
  function Update(st: GameState, v: int): GameState {
    match st.editing
    case None => st
    case Some(e) =>
      if e.turnIndex == -1 then st.(open := SetSlot(st.open, e.throwIndex, v), editing := None)
      else if e.turnIndex >= 0 then st.(data := SetThrow(st.data, e.playerIndex, e.turnIndex, e.throwIndex, v), editing := None)
      else st.(data := EnsurePlayer(st.data, e.playerIndex), editing := None)
  }

  /** `cancelEditHistoryData` */
  function Cancel(st: GameState): GameState {
    st.(editing := None)
  }

  /** The effect of a correction started at (p, t, i) and then given the value v. */
  function Correct(st: GameState, p: nat, t: int, i: nat, v: int): GameState {
    Update(StartEdit(st, p, t, i), v)
  }

  lemma SetSlotFacts(s: seq<int>, i: nat, v: int)
    ensures |SetSlot(s, i, v)| == if i < |s| then |s| else i + 1
    ensures SetSlot(s, i, v)[i] == v
    ensures forall j :: 0 <= j < |s| && j != i ==> SetSlot(s, i, v)[j] == s[j]
    ensures forall j :: |s| <= j < |SetSlot(s, i, v)| && j != i ==> SetSlot(s, i, v)[j] == 0
    ensures SetSlot(SetSlot(s, i, v), i, v) == SetSlot(s, i, v)
  {
  }

  lemma SumZeros(n: nat)
    ensures Sum(seq(n, _ => 0)) == 0
  {
    if n > 0 {
      assert seq(n, _ => 0)[1..] == seq(n - 1, _ => 0);
      SumZeros(n - 1);
    }
  }

  lemma {:induction false} SumUpdate(s: seq<int>, i: nat, v: int)
    requires i < |s|
    ensures Sum(s[i := v]) == Sum(s) - s[i] + v
  {
    if i == 0 {
      assert s[i := v][1..] == s[1..];
    } else {
      assert s[i := v][1..] == s[1..][i - 1 := v];
      SumUpdate(s[1..], i - 1, v);
    }
  }

  /** Writing a slot changes a turn's sum by the new value minus the value read there. */
  lemma SumSetSlot(s: seq<int>, i: nat, v: int)
    ensures Sum(SetSlot(s, i, v)) == Sum(s) - ReadSlot(s, i) + v
  {
    if i < |s| {
      SumUpdate(s, i, v);
    } else {
      SumAppend(s + seq(i - |s|, _ => 0), [v]);
      SumAppend(s, seq(i - |s|, _ => 0));
      SumZeros(i - |s|);
      assert Sum([v]) == v + Sum([]);
    }
  }

  /** `n` empty turns. */
  function Empties(n: nat): seq<Turn> {
    seq(n, _ => [])
  }

  lemma FlattenEmpties(n: nat)
    ensures Flatten(Empties(n)) == []
  {
    if n > 0 {
      assert Empties(n)[1..] == Empties(n - 1);
      FlattenEmpties(n - 1);
    }
  }

  lemma {:induction false} SumFlattenUpdate(ts: seq<Turn>, t: nat, u: Turn)
    requires t < |ts|
    ensures Sum(Flatten(ts[t := u])) == Sum(Flatten(ts)) - Sum(ts[t]) + Sum(u)
  {
    if t == 0 {
      assert ts[t := u][1..] == ts[1..];
      SumAppend(u, Flatten(ts[1..]));
      SumAppend(ts[0], Flatten(ts[1..]));
    } else {
      assert ts[t := u][1..] == ts[1..][t - 1 := u];
      SumFlattenUpdate(ts[1..], t - 1, u);
      SumAppend(ts[0], Flatten(ts[1..][t - 1 := u]));
      SumAppend(ts[0], Flatten(ts[1..]));
    }
  }

  /** Padding a turn list with empty turns keeps its flattened throws. */
  lemma FlattenPadded(ts: seq<Turn>, n: nat)
    ensures Flatten(ts + Empties(n)) == Flatten(ts)
  {
    FlattenAppend(ts, Empties(n));
    FlattenEmpties(n);
  }

  /** The turn list `SetThrow` writes into: the player's list, padded with empty turns up to turn t. */
  lemma PaddedTurnsFacts(ts0: seq<Turn>, t: nat)
    ensures var ts := if t < |ts0| then ts0 else ts0 + Empties(t + 1 - |ts0|);
      t < |ts| && Sum(Flatten(ts)) == Sum(Flatten(ts0))
      && ts[t] == (if t < |ts0| then ts0[t] else [])
      && forall u :: 0 <= u < |ts0| ==> ts[u] == ts0[u]
  {
    if t >= |ts0| {
      FlattenPadded(ts0, t + 1 - |ts0|);
    }
  }

  /** What `SetThrow` does to the addressed player's list: only turn t changes, to that turn with slot i set. */
  lemma SetThrowFacts(data: Data, p: nat, t: nat, i: nat, v: int)
    ensures var ts0 := PlayerTurns(data, p); var old_t := if t < |ts0| then ts0[t] else [];
      var ts := PlayerTurns(SetThrow(data, p, t, i, v), p);
      t < |ts| && ts[t] == SetSlot(old_t, i, v)
      && Sum(Flatten(ts)) == Sum(Flatten(ts0)) - Sum(old_t) + Sum(SetSlot(old_t, i, v))
      && (forall u :: 0 <= u < |ts0| && u != t ==> ts[u] == ts0[u])
      && (forall q :: q != p ==> PlayerTurns(SetThrow(data, p, t, i, v), q) == PlayerTurns(data, q))
  {
    var d := EnsurePlayer(data, p);
    EnsurePlayerFacts(data, p);
    assert d[p] == PlayerTurns(data, p);
    var ts := if t < |d[p]| then d[p] else d[p] + Empties(t + 1 - |d[p]|);
    PaddedTurnsFacts(d[p], t);
    SumFlattenUpdate(ts, t, SetSlot(ts[t], i, v));
  }

  /**
   * A correction of a closed turn changes the player's closed sum by exactly the
   * new value minus the value the correction reported, and touches no other player.
   */
  lemma CorrectClosedTurn(st: GameState, p: nat, t: nat, i: nat, v: int)
    requires !st.completed
    ensures var s := Correct(st, p, t, i, v);
      ClosedSum(s.data, p) == ClosedSum(st.data, p) - SlotValue(st, p, t, i) + v
      && (forall q :: q != p ==> PlayerTurns(s.data, q) == PlayerTurns(st.data, q))
      && ReadSlot(PlayerTurns(s.data, p)[t], i) == v
      && (forall u :: 0 <= u < |PlayerTurns(st.data, p)| && u != t ==> PlayerTurns(s.data, p)[u] == PlayerTurns(st.data, p)[u])
      && s.open == st.open && s.editing == None && s.current == st.current && s.throw == st.throw
  {
    var ts0 := PlayerTurns(st.data, p);
    var old_t := if t < |ts0| then ts0[t] else [];
    assert ReadSlot(old_t, i) == SlotValue(st, p, t, i);
    SetThrowFacts(st.data, p, t, i, v);
    SumSetSlot(old_t, i, v);
    SetSlotFacts(old_t, i, v);
  }

  /** A correction of the open turn writes only that slot of the open turn. */
  lemma CorrectOpenTurn(st: GameState, p: nat, i: nat, v: int)
    requires !st.completed
    ensures var s := Correct(st, p, -1, i, v);
      s.data == st.data && s.open == SetSlot(st.open, i, v)
      && s.open[i] == v && (forall j :: 0 <= j < |st.open| && j != i ==> s.open[j] == st.open[j])
      && Sum(s.open) == Sum(st.open) - SlotValue(st, p, -1, i) + v
      && s.editing == None && s.current == st.current && s.throw == st.throw
  {
    SetSlotFacts(st.open, i, v);
    SumSetSlot(st.open, i, v);
  }

  /** Applying the same correction twice is the same as applying it once. */
  lemma CorrectIdempotent(st: GameState, p: nat, t: int, i: nat, v: int)
    ensures Correct(Correct(st, p, t, i, v), p, t, i, v) == Correct(st, p, t, i, v)
  {
    if !st.completed {
      var s := Correct(st, p, t, i, v);
      if t == -1 {
        SetSlotFacts(st.open, i, v);
      } else if t >= 0 {
        var d := EnsurePlayer(st.data, p);
        var ts := if t < |d[p]| then d[p] else d[p] + Empties(t + 1 - |d[p]|);
        var x := SetSlot(ts[t], i, v);
        SetSlotFacts(ts[t], i, v);
        EnsurePlayerFacts(st.data, p);
        assert |ts| > t;
        assert s.data == d[p := ts[t := x]];
        assert EnsurePlayer(s.data, p) == s.data;
        assert s.data[p][t] == x;
        assert SetSlot(x, i, v) == x;
        assert s.data[p][t := x] == s.data[p];
        assert SetThrow(s.data, p, t, i, v) == s.data;
      }
    }
  }

  /** Once the game is completed a correction cannot start, and a pending one still applies. */
  lemma NoEditAfterCompletion(st: GameState, p: nat, t: int, i: nat)
    requires st.completed
    ensures StartEdit(st, p, t, i) == st
  {
  }

  /** A cancelled correction writes nothing: the value that follows goes nowhere. */
  lemma CancelThenUpdate(st: GameState, v: int)
    ensures Update(Cancel(st), v) == Cancel(st)
    ensures Cancel(st).data == st.data && Cancel(st).open == st.open && Cancel(st).editing == None
  {
  }

  // ---------------------------------------------------------------------------
  // A pending correction outlives its turn and its game
  // ---------------------------------------------------------------------------

  /** Drops a pending correction that addresses the open turn. */
  function EndOpenCorrection(st: GameState): GameState {
    if st.editing.Some? && st.editing.value.turnIndex == -1 then st.(editing := None) else st
  }

  /**
   * `handleGameStart` and `resetGame` leave a pending correction of a closed
   * turn in place, so the first pad value of the next game writes a throw into
   * a turn nobody has played: the player's list becomes t + 1 turns long and
   * its closed sum is the value written.
   */
  lemma CorrectionSurvivesNewGame(st: GameState, newPlayers: seq<Player>, v: int)
    requires st.editing.Some? && st.editing.value.turnIndex >= 0
    ensures var s := StartGame(ResetGame(st), newPlayers); var e := st.editing.value; var u := Update(s, v);
      s.editing == st.editing
      && |PlayerTurns(u.data, e.playerIndex)| == e.turnIndex + 1
      && ClosedSum(u.data, e.playerIndex) == v
      && ReadSlot(PlayerTurns(u.data, e.playerIndex)[e.turnIndex], e.throwIndex) == v
  {
    var s := StartGame(ResetGame(st), newPlayers);
    var e := st.editing.value;
    var p, t, i := e.playerIndex, e.turnIndex, e.throwIndex;
    assert PlayerTurns(s.data, p) == [];
    var d := EnsurePlayer(s.data, p);
    EnsurePlayerFacts(s.data, p);
    assert d[p] == [];
    assert |d[p] + Empties(t + 1)| == t + 1;
    SetThrowFacts(s.data, p, t, i, v);
    SumSetSlot([], i, v);
    SetSlotFacts([], i, v);
  }

  /** The intended start and reset: a pending correction ends with the game it belongs to. */
  function StartGameEndingCorrection(st: GameState, newPlayers: seq<Player>): GameState {
    StartGame(st, newPlayers).(editing := None)
  }

  function ResetGameEndingCorrection(st: GameState): GameState {
    ResetGame(st).(editing := None)
  }

  /**
   * After the intended reset and start no correction is pending, so a pad value
   * writes nothing into the new game, whose players all start with no turns.
   */
  lemma NewGameStartsClean(st: GameState, newPlayers: seq<Player>, v: int)
    ensures var s := StartGameEndingCorrection(ResetGameEndingCorrection(st), newPlayers);
      s.editing == None && Update(s, v) == s
      && (forall p :: PlayerTurns(s.data, p) == [] && ClosedSum(s.data, p) == 0)
      && s.(editing := st.editing) == StartGame(ResetGame(st), newPlayers)
  {
    var s := StartGameEndingCorrection(ResetGameEndingCorrection(st), newPlayers);
    forall p
      ensures PlayerTurns(s.data, p) == [] && ClosedSum(s.data, p) == 0
    {
      if 0 <= p < |s.data| {
        assert s.data[p] == [];
      }
    }
  }
}
