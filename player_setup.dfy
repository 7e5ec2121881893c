/**
 * The player record shared by all pages and the setup form of PlayerSetup.tsx:
 * a chosen player count, one name per slot (an empty entry falls back to the
 * slot's default name), and the list of fresh players a game starts with.
 */
module Players {
  import Text

  /** A player as the pages pass it around; the display-only `dartHistory` is not modelled. */
  datatype Player = Player(
    id: string,
    name: string,
    score: int,
    isActive: bool,
    gameHistory: seq<int>,
    isFinished: bool,
    currentThrow: int,
    currentTurnScores: seq<int>,
    turnHistory: seq<seq<int>>)

  /** The player counts the form offers. */
  const OfferedCounts: seq<nat> := [1, 2, 3, 4]

  /** `プレイヤー${slot}` */
  function DefaultName(slot: nat): string {
    "プレイヤー" + Text.NatToString(slot)
  }

  /** `name || default`: the empty string is the only falsy string. */
  function NameOrDefault(name: string, slot: nat): string {
    if name != "" then name else DefaultName(slot)
  }

  /** The name list after choosing `count` players: `Array.from({length: count}, (_, i) => names[i] || default)`. */
  function Resized(names: seq<string>, count: nat): seq<string> {
    seq(count, i requires 0 <= i < count => if i < |names| then NameOrDefault(names[i], i + 1) else DefaultName(i + 1))
  }

  /** `player-${slot}` */
  function PlayerId(slot: nat): string {
    "player-" + Text.NatToString(slot)
  }

  /** The player a game starts with for the name in position `index`. */
  function FreshPlayer(name: string, index: nat): Player {
    Player(PlayerId(index + 1), name, 501, index == 0, [], false, 1, [], [])
  }

  /** `handleStartGame`: one fresh player per name. */
  function StartingPlayers(names: seq<string>): seq<Player> {
    seq(|names|, i requires 0 <= i < |names| => FreshPlayer(names[i], i))
  }

  /** The number of active players in a list. */
  function ActiveCount(ps: seq<Player>): nat {
    if ps == [] then 0 else (if ps[0].isActive then 1 else 0) + ActiveCount(ps[1..])
  }

  predicate AllNamed(names: seq<string>) {
    forall i :: 0 <= i < |names| ==> names[i] != ""
  }

  // ---------------------------------------------------------------------------
  // Lemmas
  // ---------------------------------------------------------------------------

  lemma PrefixCancel(a: string, b: string, c: string)
    requires a + b == a + c
    ensures b == c
  {
    assert (a + b)[|a|..] == b;
    assert (a + c)[|a|..] == c;
  }

  /** Different slots have different default names. */
  lemma DefaultNamesDistinct(i: nat, j: nat)
    ensures DefaultName(i) == DefaultName(j) <==> i == j
  {
    if DefaultName(i) == DefaultName(j) {
      PrefixCancel("プレイヤー", Text.NatToString(i), Text.NatToString(j));
      Text.NatToStringWellFormed(i);
      Text.NatToStringWellFormed(j);
    }
  }

  /** Different slots have different player ids. */
  lemma PlayerIdsDistinct(i: nat, j: nat)
    ensures PlayerId(i) == PlayerId(j) <==> i == j
  {
    if PlayerId(i) == PlayerId(j) {
      PrefixCancel("player-", Text.NatToString(i), Text.NatToString(j));
      Text.NatToStringWellFormed(i);
      Text.NatToStringWellFormed(j);
    }
  }

  lemma DefaultNameNonEmpty(slot: nat)
    ensures DefaultName(slot) != ""
  {
    assert |DefaultName(slot)| >= 5;
  }

  /**
   * Changing the count gives exactly `count` names; a slot keeps its old name
   * iff that name existed and was non-empty, and every name is non-empty.
   */
  lemma ResizedShape(names: seq<string>, count: nat)
    ensures |Resized(names, count)| == count
    ensures forall i :: 0 <= i < count ==>
      (Resized(names, count)[i] == (if i < |names| && names[i] != "" then names[i] else DefaultName(i + 1)))
    ensures AllNamed(Resized(names, count))
  {
    forall i | 0 <= i < count
      ensures Resized(names, count)[i] != ""
    {
      DefaultNameNonEmpty(i + 1);
    }
  }

  /** On a fully named list, shrinking keeps a prefix and growing keeps the list and adds default names. */
  lemma ResizedKeepsNames(names: seq<string>, count: nat)
    requires AllNamed(names)
    ensures count <= |names| ==> Resized(names, count) == names[..count]
    ensures count >= |names| ==> Resized(names, count)[..|names|] == names
    ensures forall i :: |names| <= i < count ==> Resized(names, count)[i] == DefaultName(i + 1)
  {
  }

  /** Choosing the same count twice is the same as choosing it once. */
  lemma ResizedIdempotent(names: seq<string>, count: nat)
    ensures Resized(Resized(names, count), count) == Resized(names, count)
  {
    ResizedShape(names, count);
  }

  /** A name change touches only its slot, and an emptied name becomes the slot's default. */
  lemma NameChangeShape(names: seq<string>, index: nat, name: string)
    requires index < |names| && AllNamed(names)
    ensures var r := names[index := NameOrDefault(name, index + 1)];
      |r| == |names| && AllNamed(r)
      && (name == "" ==> r[index] == DefaultName(index + 1))
      && (name != "" ==> r[index] == name)
      && forall i :: 0 <= i < |names| && i != index ==> r[i] == names[i]
  {
    DefaultNameNonEmpty(index + 1);
  }

  lemma {:induction false} ActiveCountOnlyFirst(ps: seq<Player>)
    requires |ps| > 0 && ps[0].isActive
    requires forall i :: 1 <= i < |ps| ==> !ps[i].isActive
    ensures ActiveCount(ps) == 1
  {
    NoneActive(ps[1..]);
  }

  lemma {:induction false} NoneActive(ps: seq<Player>)
    requires forall i :: 0 <= i < |ps| ==> !ps[i].isActive
    ensures ActiveCount(ps) == 0
  {
    if ps != [] {
      NoneActive(ps[1..]);
    }
  }

  /**
   * Starting builds one player per name, in order, with distinct ids `player-1`, ...,
   * score 501, counter 1, empty histories, not finished, and exactly the first active.
   */
  lemma StartingPlayersShape(names: seq<string>)
    ensures var ps := StartingPlayers(names);
      |ps| == |names|
      && (forall i :: 0 <= i < |ps| ==>
            ps[i].name == names[i] && ps[i].id == PlayerId(i + 1) && ps[i].score == 501
            && ps[i].currentThrow == 1 && ps[i].gameHistory == [] && ps[i].turnHistory == []
            && ps[i].currentTurnScores == [] && !ps[i].isFinished
            && (ps[i].isActive <==> i == 0))
      && (forall i, j :: 0 <= i < j < |ps| ==> ps[i].id != ps[j].id)
      && (|names| > 0 ==> ActiveCount(ps) == 1)
  {
    var ps := StartingPlayers(names);
    forall i, j | 0 <= i < j < |ps|
      ensures ps[i].id != ps[j].id
    {
      PlayerIdsDistinct(i + 1, j + 1);
    }
    if |names| > 0 {
      ActiveCountOnlyFirst(ps);
    }
  }

  /** The setup form: the chosen count and the name inputs. */
  class Setup {
    var playerCount: nat
    var playerNames: seq<string>

    /** One non-empty name per chosen slot. */
    predicate Valid()
      reads this
    {
      |playerNames| == playerCount && AllNamed(playerNames)
    }

    constructor()
      ensures Valid()
      ensures playerCount == 1 && playerNames == [DefaultName(1)]
    {
      playerCount := 1;
      playerNames := [DefaultName(1)];
      DefaultNameNonEmpty(1);
    }

    /** `handlePlayerCountChange` */
    method ChangeCount(count: nat)
      requires Valid()
      modifies this
      ensures Valid()
      ensures playerCount == count && playerNames == Resized(old(playerNames), count)
    {
      ResizedShape(playerNames, count);
      playerCount := count;
      playerNames := Resized(playerNames, count);
    }

    /** `handlePlayerNameChange`, for the index of a rendered input. */
    method ChangeName(index: nat, name: string)
      requires Valid() && index < |playerNames|
      modifies this
      ensures Valid()
      ensures playerCount == old(playerCount)
      ensures playerNames == old(playerNames)[index := NameOrDefault(name, index + 1)]
    {
      NameChangeShape(playerNames, index, name);
      playerNames := playerNames[index := NameOrDefault(name, index + 1)];
    }

    /** `handleStartGame`: the game receives exactly `playerCount` players. */
    method StartGame() returns (players: seq<Player>)
      requires Valid()
      ensures |players| == playerCount
      ensures players == StartingPlayers(playerNames)
    {
      players := StartingPlayers(playerNames);
    }
  }
}
