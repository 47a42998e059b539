/** BotStarter's classification of regions: safe, threatened, the count of
    owned regions, the combo-attack test and the attack estimate. */
module Risk {
  import opened Regions

  /** COMBO_MIN_TROOPS */
  const ComboMinTroops: int := 12

  /** `isSafe(r, me)`: every neighbour of `r` is owned by `me`; `r`'s own owner
      is not consulted. */
  method IsSafe(board: Board, r: RegionId, me: string) returns (res: bool)
    requires Closed(board) && r in board
    ensures res <==> AllOwnedBy(board, board[r].neighbors, me)
    ensures board[r].neighbors == [] ==> res
  {
    var neighbors := board[r].neighbors;
    var i := 0;
    res := true;
    while i < |neighbors| && res
      invariant 0 <= i <= |neighbors|
      invariant res <==> AllOwnedBy(board, neighbors[..i], me)
    {
      res := board[neighbors[i]].OwnedByPlayer(me);
      i := i + 1;
    }
    assert i == |neighbors| ==> neighbors[..i] == neighbors;
  }

  /** `isThreatened(r, opponentName)`: some neighbour of `r` is the opponent's. */
  method IsThreatened(board: Board, r: RegionId, opponentName: string) returns (res: bool)
    requires Closed(board) && r in board
    ensures res <==> SomeOwnedBy(board, board[r].neighbors, opponentName)
    ensures board[r].neighbors == [] ==> !res
  {
    var neighbors := board[r].neighbors;
    var i := 0;
    res := false;
    while i < |neighbors| && !res
      invariant 0 <= i <= |neighbors|
      invariant res <==> SomeOwnedBy(board, neighbors[..i], opponentName)
    {
      res := board[neighbors[i]].OwnedByPlayer(opponentName);
      i := i + 1;
    }
    assert i == |neighbors| ==> neighbors[..i] == neighbors;
  }

  /** Between two distinct players a safe region is never threatened. */
  lemma SafeIsNotThreatened(board: Board, r: RegionId, me: string, opponentName: string)
    requires Closed(board) && r in board && me != opponentName
    requires AllOwnedBy(board, board[r].neighbors, me)
    ensures !SomeOwnedBy(board, board[r].neighbors, opponentName)
  {
  }

  /** With a third (neutral) owner about, a region can be neither safe nor
      threatened: the two tests are not negations of each other. */
  lemma SafeAndThreatenedAreNotComplements()
    ensures var board := map[1 := Region(1, 0, "me", 3, [2]), 2 := Region(2, 0, "neutral", 2, [1])];
      Closed(board) && !AllOwnedBy(board, board[1].neighbors, "me")
      && !SomeOwnedBy(board, board[1].neighbors, "opponent")
  {
    var board := map[1 := Region(1, 0, "me", 3, [2]), 2 := Region(2, 0, "neutral", 2, [1])];
    assert board[1].neighbors[0] == 2;
  }

  /** The regions of `ids` that are owned by `me` and not safe, in order:
      the fortifiable regions of getPlaceArmiesMoves and the unsafe
      neighbours a transfer prefers. */
  function Endangered(board: Board, ids: seq<RegionId>, me: string): (e: seq<RegionId>)
    requires Closed(board) && InBoard(board, ids)
    ensures InBoard(board, e) && |e| <= |ids|
    ensures forall k :: 0 <= k < |e| ==>
      board[e[k]].owner == me && !AllOwnedBy(board, board[e[k]].neighbors, me) && e[k] in ids
    ensures forall k :: 0 <= k < |ids| ==>
      (board[ids[k]].owner == me && !AllOwnedBy(board, board[ids[k]].neighbors, me) ==> ids[k] in e)
  {
    if ids == [] then []
    else
      var init := ids[..|ids| - 1];
      var r := ids[|ids| - 1];
      var e := Endangered(board, init, me);
      assert forall k :: 0 <= k < |init| ==> init[k] == ids[k];
      if board[r].OwnedByPlayer(me) && !AllOwnedBy(board, board[r].neighbors, me) then e + [r] else e
  }

  /** The number of visible regions owned by `me`. */
  function OwnedCount(board: Board, visible: seq<RegionId>, me: string): (n: int)
    requires InBoard(board, visible)
    ensures 0 <= n <= |visible|
  {
    if visible == [] then 0
    else
      var last := visible[|visible| - 1];
      OwnedCount(board, visible[..|visible| - 1], me) + (if board[last].OwnedByPlayer(me) then 1 else 0)
  }

  /** Every visible region is owned exactly when the count reaches the length. */
  lemma {:induction false} OwnedCountAll(board: Board, visible: seq<RegionId>, me: string)
    requires InBoard(board, visible)
    ensures OwnedCount(board, visible, me) == |visible| <==> AllOwnedBy(board, visible, me)
  {
    if visible != [] {
      var init := visible[..|visible| - 1];
      OwnedCountAll(board, init, me);
      if AllOwnedBy(board, visible, me) {
        assert AllOwnedBy(board, init, me) by {
          forall k | 0 <= k < |init| ensures board[init[k]].owner == me {
            assert init[k] == visible[k];
          }
        }
      }
      if OwnedCount(board, visible, me) == |visible| {
        forall k | 0 <= k < |visible| ensures board[visible[k]].owner == me {
          if k < |init| {
            assert visible[k] == init[k];
          }
        }
      }
    }
  }

  /** `countOwnedRegions`: counts the visible regions owned by `me` (the
      source stores the count in a static field; here it is returned). */
  method CountOwnedRegions(board: Board, visible: seq<RegionId>, me: string) returns (ownedRegions: int)
    requires InBoard(board, visible)
    ensures ownedRegions == OwnedCount(board, visible, me)
  {
    ownedRegions := 0;
    for i := 0 to |visible|
      invariant ownedRegions == OwnedCount(board, visible[..i], me)
    {
      assert visible[..i + 1][..i] == visible[..i];
      if board[visible[i]].OwnedByPlayer(me) {
        ownedRegions := ownedRegions + 1;
      }
    }
    assert visible[..|visible|] == visible;
  }

  /** A neighbour `p` of the target can back `origin`'s attack: it is another
      region, owned by `me`, above the minimum and at least as strong as the target. */
  predicate ComboPartner(board: Board, me: string, origin: RegionId, target: RegionId, p: RegionId)
    requires target in board && p in board
  {
    p != origin && board[p].owner == me && board[p].armies > ComboMinTroops
    && board[target].armies <= board[p].armies
  }

  /** The condition `comboAttackChance` decides. */
  predicate ComboChance(board: Board, me: string, origin: RegionId, target: RegionId)
    requires Closed(board) && origin in board && target in board
  {
    var tn := board[target].neighbors;
    board[origin].armies > ComboMinTroops && board[target].armies <= board[origin].armies && origin in tn
    && exists k :: 0 <= k < |tn| && ComboPartner(board, me, origin, target, tn[k])
  }

  /** `comboAttackChance(myName, origin, target)`; the origin's armies are its
      armies on the board, not what is left of them during planning. */
  method ComboAttackChance(board: Board, me: string, origin: RegionId, target: RegionId) returns (res: bool)
    requires Closed(board) && origin in board && target in board
    ensures res <==> ComboChance(board, me, origin, target)
    ensures res ==> board[origin].armies > ComboMinTroops && board[target].armies <= board[origin].armies
  {
    var targetNeighbors := board[target].neighbors;
    var targetTroops := board[target].armies;
    var originTroops := board[origin].armies;
    res := false;
    if originTroops > ComboMinTroops && targetTroops <= originTroops && origin in targetNeighbors {
      var i := 0;
      while i < |targetNeighbors| && !res
        invariant 0 <= i <= |targetNeighbors|
        invariant res <==> exists k :: 0 <= k < i && ComboPartner(board, me, origin, target, targetNeighbors[k])
      {
        var partner := targetNeighbors[i];
        var partnerTroops := board[partner].armies;
        res := partner != origin && board[partner].OwnedByPlayer(me) && partnerTroops > ComboMinTroops
          && targetTroops <= partnerTroops;
        i := i + 1;
      }
    }
  }

  /** `estimateAttackingTroops`: enemyArmies / (1 - SUCCESS_RATE) rounded up,
      i.e. the least count whose three tenths cover the enemy's armies. */
  function EstimateAttackingTroops(enemyArmies: int): (e: int)
    ensures 3 * e >= 10 * enemyArmies
    ensures 3 * (e - 1) < 10 * enemyArmies
    ensures enemyArmies >= 0 ==> e >= 0
  {
    (10 * enemyArmies + 2) / 3
  }
}
