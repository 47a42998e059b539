/** BotStarter.computeTroopDifferences: each region's armies against its
    strongest neighbour not owned by the player, ranked most exposed first. */
module Ranking {
  import opened Regions
  import opened Advantages

  /** The largest army count among the neighbours in `nbrs` not owned by
      `me`, starting from 0: so 0 when there are none. */
  function StrongestOutsider(board: Board, nbrs: seq<RegionId>, me: string): (m: int)
    requires InBoard(board, nbrs)
    ensures m >= 0
    ensures forall k :: 0 <= k < |nbrs| && board[nbrs[k]].owner != me ==> board[nbrs[k]].armies <= m
    ensures m == 0 || exists k :: 0 <= k < |nbrs| && board[nbrs[k]].owner != me && board[nbrs[k]].armies == m
  {
    if nbrs == [] then 0
    else
      var init := nbrs[..|nbrs| - 1];
      var n := board[nbrs[|nbrs| - 1]];
      var m := StrongestOutsider(board, init, me);
      assert forall k :: 0 <= k < |init| ==> init[k] == nbrs[k];
      if !n.OwnedByPlayer(me) && m < n.armies then n.armies else m
  }

  /** The ranking entry of one region. */
  function Entry(board: Board, r: RegionId, me: string): Advantage
    requires Closed(board) && r in board
  {
    Advantage(r, board[r].armies - StrongestOutsider(board, board[r].neighbors, me))
  }

  /** One entry per region, in input order, before sorting. */
  function Differences(board: Board, regions: seq<RegionId>, me: string): seq<Advantage>
    requires Closed(board) && InBoard(board, regions)
  {
    seq(|regions|, k requires 0 <= k < |regions| => Entry(board, regions[k], me))
  }

  /** The ranking computeTroopDifferences returns. */
  function Rank(board: Board, regions: seq<RegionId>, me: string): seq<Advantage>
    requires Closed(board) && InBoard(board, regions)
  {
    SortByDifference(Differences(board, regions, me))
  }

  lemma RankSorted(board: Board, regions: seq<RegionId>, me: string)
    requires Closed(board) && InBoard(board, regions)
    ensures Sorted(Rank(board, regions, me)) && |Rank(board, regions, me)| == |regions|
  {
  }

  /** `computeTroopDifferences`: the entries are computed in input order with
      a max-tracking scan of each region's neighbours, then stably sorted. */
  method ComputeTroopDifferences(board: Board, myRegions: seq<RegionId>, me: string)
    returns (ranked: seq<Advantage>)
    requires Closed(board) && InBoard(board, myRegions)
    ensures ranked == Rank(board, myRegions, me)
    ensures |ranked| == |myRegions|
    ensures Sorted(ranked)
    ensures multiset(ranked) == multiset(Differences(board, myRegions, me))
    ensures forall d :: WithDifference(ranked, d) == WithDifference(Differences(board, myRegions, me), d)
  {
    var troopDifferences: seq<Advantage> := [];
    for j := 0 to |myRegions|
      invariant troopDifferences == Differences(board, myRegions[..j], me)
    {
      var r := myRegions[j];
      var moreNeighborTroops := StrongestNeighbor(board, board[r].neighbors, me);
      var troopDifferential := board[r].armies - moreNeighborTroops;
      DifferencesStep(board, myRegions, j, me);
      troopDifferences := troopDifferences + [Advantage(r, troopDifferential)];
    }
    assert myRegions[..|myRegions|] == myRegions;
    ranked := SortByDifference(troopDifferences);
    forall d ensures WithDifference(ranked, d) == WithDifference(troopDifferences, d) {
      SortIsStable(troopDifferences, d);
    }
  }

  lemma DifferencesStep(board: Board, regions: seq<RegionId>, j: nat, me: string)
    requires Closed(board) && InBoard(board, regions) && j < |regions|
    ensures Differences(board, regions[..j + 1], me)
         == Differences(board, regions[..j], me) + [Entry(board, regions[j], me)]
  {
  }

  /** The inner loop of computeTroopDifferences: the running maximum of the
      armies of the neighbours not owned by `me`, starting from 0. */
  method StrongestNeighbor(board: Board, neighbors: seq<RegionId>, me: string) returns (moreNeighborTroops: int)
    requires InBoard(board, neighbors)
    ensures moreNeighborTroops == StrongestOutsider(board, neighbors, me)
  {
    moreNeighborTroops := 0;
    for i := 0 to |neighbors|
      invariant moreNeighborTroops == StrongestOutsider(board, neighbors[..i], me)
    {
      assert neighbors[..i + 1][..i] == neighbors[..i];
      var currentNeighbor := board[neighbors[i]];
      if !currentNeighbor.OwnedByPlayer(me) {
        if moreNeighborTroops < currentNeighbor.armies {
          moreNeighborTroops := currentNeighbor.armies;
        }
      }
    }
    assert neighbors[..|neighbors|] == neighbors;
  }
}
