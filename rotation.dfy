/**
 * `nextPlayer` of the three game pages: a cyclic scan for the next eligible
 * player after the current one, stopping at the current index after a full
 * wrap, and the update that makes exactly that player active. Eligibility is
 * the page's own test (positive score in 501 and 301, rounds left in count-up),
 * given here as one flag per player.
 */
module Rotation {
  import opened Players
  import opened PlayData

  /** `players.filter(test).length` */
  function CountTrue(elig: seq<bool>): nat {
    if elig == [] then 0 else (if elig[0] then 1 else 0) + CountTrue(elig[1..])
  }

  /** How many steps forward from `cur` index `i` lies, going round the table of `n` players. */
  function Dist(cur: int, i: int, n: int): int
    requires n > 0
  {
    if i >= cur then i - cur else i - cur + n
  }

  /** The k-th successor of `cur` round a table of `n` players: `(cur + k) % n`. */
  function Succ(cur: int, k: int, n: int): int
    requires n > 0
  {
    (cur + k) % n
  }

  /** The scan from the k-th successor of `cur` on. */
  function ScanFrom(elig: seq<bool>, cur: nat, k: nat): (r: nat)
    requires cur < |elig| && 1 <= k <= |elig|
    ensures r < |elig|
    decreases |elig| - k
  {
    if k == |elig| then cur
    else if elig[Succ(cur, k, |elig|)] then Succ(cur, k, |elig|)
    else ScanFrom(elig, cur, k + 1)
  }

  /** The index the scan settles on: the first eligible successor, else `cur`. */
  function NextIndex(elig: seq<bool>, cur: nat): (r: nat)
    requires cur < |elig|
    ensures r < |elig|
  {
    ScanFrom(elig, cur, 1)
  }

  /** `players.map(...)`: only index `j` is active, and its counter restarts at 1. */
  function Activate(players: seq<Player>, j: nat): seq<Player> {
    seq(|players|, i requires 0 <= i < |players| =>
      players[i].(isActive := i == j, currentThrow := if i == j then 1 else players[i].currentThrow))
  }

  /**
   * The state change of `nextPlayer`: nothing when the game is completed, with at
   * most one player, or with fewer than `needed` eligible players; otherwise the
   * scan's result becomes current and active and the counter restarts.
   */
  function Rotate(st: GameState, elig: seq<bool>, needed: nat): GameState
    requires |elig| == |st.players| && IndexOk(st)
  {
    if st.completed || |st.players| <= 1 || CountTrue(elig) < needed then st
    else
      var j := NextIndex(elig, st.current);
      st.(players := Activate(st.players, j), current := j, throw := 1)
  }

  // ---------------------------------------------------------------------------
  // Modular arithmetic of the scan
  // ---------------------------------------------------------------------------

  lemma ModSmall(x: int, n: int)
    requires n > 0 && 0 <= x < 2 * n
    ensures x % n == if x < n then x else x - n
  {
    if x >= n {
      assert (x - n) % n == x % n;
    }
  }

  lemma SuccessorShape(cur: nat, k: nat, n: nat)
    requires cur < n && 1 <= k <= n
    ensures Succ(cur, k, n) == cur <==> k == n
    ensures k < n ==> Dist(cur, Succ(cur, k, n), n) == k
    ensures k < n ==> (Succ(cur, k, n) + 1) % n == Succ(cur, k + 1, n)
  {
    ModSmall(cur + k, n);
    var m := (cur + k) % n;
    if k < n {
      ModSmall(cur + k + 1, n);
      ModSmall(m + 1, n);
    }
  }

  /** Every index other than `cur` is the successor at its own distance. */
  lemma DistInverse(cur: nat, i: nat, n: nat)
    requires cur < n && i < n
    ensures 0 <= Dist(cur, i, n) < n
    ensures i != cur ==> 1 <= Dist(cur, i, n) && Succ(cur, Dist(cur, i, n), n) == i
    ensures i == cur ==> Dist(cur, i, n) == 0
  {
    ModSmall(cur + Dist(cur, i, n), n);
  }

  // ---------------------------------------------------------------------------
  // The scan's specification
  // ---------------------------------------------------------------------------

  lemma {:induction false} ScanFromSpec(elig: seq<bool>, cur: nat, k: nat)
    requires cur < |elig| && 1 <= k <= |elig|
    requires forall j :: 1 <= j < k ==> !elig[Succ(cur, j, |elig|)]
    ensures var r := ScanFrom(elig, cur, k);
      r < |elig| && (r == cur || elig[r])
      && (r == cur ==> forall j :: 1 <= j < |elig| ==> !elig[Succ(cur, j, |elig|)])
      && (r != cur ==> k <= Dist(cur, r, |elig|) < |elig| && r == Succ(cur, Dist(cur, r, |elig|), |elig|)
                          && forall j :: 1 <= j < Dist(cur, r, |elig|) ==> !elig[Succ(cur, j, |elig|)])
    decreases |elig| - k
  {
    var n := |elig|;
    if k < n {
      SuccessorShape(cur, k, n);
      if !elig[Succ(cur, k, n)] {
        ScanFromSpec(elig, cur, k + 1);
      }
    }
  }

  /**
   * The scan settles on the nearest eligible successor of `cur`, and on `cur`
   * itself exactly when no other player is eligible.
   */
  lemma NextIndexSpec(elig: seq<bool>, cur: nat)
    requires cur < |elig|
    ensures var r := NextIndex(elig, cur); var n := |elig|;
      r < n
      && (r != cur ==> elig[r])
      && (r == cur <==> forall i :: 0 <= i < n && i != cur ==> !elig[i])
      && (forall i :: 0 <= i < n && 0 < Dist(cur, i, n) < Dist(cur, r, n) ==> !elig[i])
  {
    var n := |elig|;
    var r := NextIndex(elig, cur);
    ScanFromSpec(elig, cur, 1);
    if r == cur {
      forall i | 0 <= i < n && i != cur
        ensures !elig[i]
      {
        DistInverse(cur, i, n);
      }
      DistInverse(cur, cur, n);
    } else {
      forall i | 0 <= i < n && 0 < Dist(cur, i, n) < Dist(cur, r, n)
        ensures !elig[i]
      {
        DistInverse(cur, i, n);
      }
    }
  }

  lemma {:induction false} CountNone(elig: seq<bool>)
    requires forall i :: 0 <= i < |elig| ==> !elig[i]
    ensures CountTrue(elig) == 0
  {
    if elig != [] {
      CountNone(elig[1..]);
    }
  }

  lemma {:induction false} CountOutside(elig: seq<bool>, c: int)
    requires forall i :: 0 <= i < |elig| && i != c ==> !elig[i]
    ensures CountTrue(elig) <= 1
  {
    if elig != [] {
      if c == 0 {
        CountNone(elig[1..]);
      } else {
        CountOutside(elig[1..], c - 1);
      }
    }
  }

  lemma {:induction false} CountPositive(elig: seq<bool>, i: nat)
    requires i < |elig| && elig[i]
    ensures CountTrue(elig) >= 1
  {
    if i > 0 {
      CountPositive(elig[1..], i - 1);
    }
  }

  /** With at least two eligible players the scan always moves to a different, eligible player. */
  lemma NextIndexMoves(elig: seq<bool>, cur: nat)
    requires cur < |elig| && CountTrue(elig) >= 2
    ensures NextIndex(elig, cur) != cur && elig[NextIndex(elig, cur)]
  {
    NextIndexSpec(elig, cur);
    if NextIndex(elig, cur) == cur {
      CountOutside(elig, cur);
    }
  }

  /** The scan finds an eligible player whenever one exists; only `cur` may be chosen ineligible. */
  lemma NextIndexFinds(elig: seq<bool>, cur: nat)
    requires cur < |elig| && CountTrue(elig) >= 1
    ensures elig[NextIndex(elig, cur)]
  {
    NextIndexSpec(elig, cur);
    if !elig[cur] && NextIndex(elig, cur) == cur {
      CountNone(elig);
    }
  }

  lemma {:induction false} ActiveCountOne(ps: seq<Player>, j: nat)
    requires j < |ps|
    requires forall i :: 0 <= i < |ps| ==> (ps[i].isActive <==> i == j)
    ensures ActiveCount(ps) == 1
  {
    if j == 0 {
      NoneActive(ps[1..]);
    } else {
      ActiveCountOne(ps[1..], j - 1);
    }
  }

  /** After activation exactly player `j` is active with counter 1, and nothing else about any player changes. */
  lemma ActivateFacts(players: seq<Player>, j: nat)
    requires j < |players|
    ensures var r := Activate(players, j);
      |r| == |players| && ActiveCount(r) == 1
      && (forall i :: 0 <= i < |r| ==> (r[i].isActive <==> i == j))
      && r[j].currentThrow == 1
      && (forall i :: 0 <= i < |r| && i != j ==> r[i].currentThrow == players[i].currentThrow)
      && (forall i :: 0 <= i < |r| ==>
            (r[i].id == players[i].id && r[i].name == players[i].name
             && r[i].score == players[i].score && r[i].turnHistory == players[i].turnHistory))
  {
    ActiveCountOne(Activate(players, j), j);
  }

  /**
   * The state change of `nextPlayer`: either nothing changes, or the current index
   * moves to the scan's result, which is then the only active player, the counter
   * is 1 and the play data are untouched.
   */
  lemma RotateFacts(st: GameState, elig: seq<bool>, needed: nat)
    requires |elig| == |st.players| && IndexOk(st)
    ensures var s := Rotate(st, elig, needed);
      IndexOk(s) && s.data == st.data && s.open == st.open && s.completed == st.completed
      && s.winner == st.winner && s.editing == st.editing && |s.players| == |st.players|
      && ((st.completed || |st.players| <= 1 || CountTrue(elig) < needed) ==> s == st)
      && (!(st.completed || |st.players| <= 1 || CountTrue(elig) < needed) ==>
            s.current == NextIndex(elig, st.current) && s.throw == 1 && ActiveCount(s.players) == 1
            && s.players[s.current].isActive
            && (needed >= 1 ==> elig[s.current])
            && (needed >= 2 ==> s.current != st.current))
  {
    if !(st.completed || |st.players| <= 1 || CountTrue(elig) < needed) {
      var j := NextIndex(elig, st.current);
      ActivateFacts(st.players, j);
      if needed >= 2 {
        NextIndexMoves(elig, st.current);
      }
      if needed >= 1 {
        NextIndexFinds(elig, st.current);
      }
    }
  }

  // ---------------------------------------------------------------------------
  // The two loops, as the pages write them
  // ---------------------------------------------------------------------------

  /**
   * The 501/301 loop: `while (!eligible(next) && next !== cur) next = (next + 1) % n`,
   * starting from `(cur + 1) % n`.
   */
  method ScanWhileIneligible(elig: seq<bool>, cur: nat) returns (next: nat)
    requires 1 < |elig| && cur < |elig|
    ensures next == NextIndex(elig, cur)
  {
    var n := |elig|;
    next := (cur + 1) % n;
    ghost var k := 1;
    SuccessorShape(cur, 1, n);
    while !elig[next] && next != cur
      invariant 1 <= k <= n && next == Succ(cur, k, n)
      invariant ScanFrom(elig, cur, k) == NextIndex(elig, cur)
      decreases n - k
    {
      SuccessorShape(cur, k, n);
      next := (next + 1) % n;
      k := k + 1;
    }
    SuccessorShape(cur, k, n);
  }

  /**
   * The count-up loop: `while (true)`, leaving when `next` is eligible, or after
   * stepping on to `cur` (which is not tested itself).
   */
  method ScanUntilEligible(elig: seq<bool>, cur: nat) returns (next: nat)
    requires 1 < |elig| && cur < |elig|
    ensures next == NextIndex(elig, cur)
  {
    var n := |elig|;
    next := (cur + 1) % n;
    ghost var k := 1;
    SuccessorShape(cur, 1, n);
    while true
      invariant 1 <= k < n && next == Succ(cur, k, n)
      invariant ScanFrom(elig, cur, k) == NextIndex(elig, cur)
      decreases n - k
    {
      if elig[next] {
        break;
      }
      SuccessorShape(cur, k, n);
      next := (next + 1) % n;
      k := k + 1;
      SuccessorShape(cur, k, n);
      if next == cur {
        break;
      }
    }
  }
}
