/** The territory graph: regions with an owner, an army count and a
    symmetric, duplicate-free neighbour list, kept in an arena keyed by id. */
module Regions {

  type RegionId = int

  /** Owner of a region built without one. */
  const Unknown: string := "unknown"

  /** One territory. Neighbours are held by id instead of by reference. */
  datatype Region = Region(id: RegionId, superRegion: int, owner: string, armies: int, neighbors: seq<RegionId>)
  {
    /** The region's owner is `p`. */
    predicate OwnedByPlayer(p: string)
    {
      owner == p
    }

    /** `x` is in the region's neighbour list. */
    predicate IsNeighbor(x: RegionId)
    {
      x in neighbors
    }
  }

  /** A snapshot of the graph: every region by its id. */
  type Board = map<RegionId, Region>

  /** Every id in `ids` names a region of the board. */
  predicate InBoard(board: Board, ids: seq<RegionId>)
  {
    forall k :: 0 <= k < |ids| ==> ids[k] in board
  }

  /** Every region is stored under its own id and names only regions of the board as neighbours. */
  predicate Closed(board: Board)
  {
    forall id :: id in board ==> board[id].id == id && InBoard(board, board[id].neighbors)
  }

  /** Adjacency goes both ways. */
  predicate Symmetric(board: Board)
  {
    forall x, y :: x in board && y in board[x].neighbors ==> y in board && x in board[y].neighbors
  }

  predicate Distinct(s: seq<RegionId>)
  {
    forall i, j :: 0 <= i < j < |s| ==> s[i] != s[j]
  }

  /** No neighbour list holds a region twice. */
  predicate DuplicateFree(board: Board)
  {
    forall id :: id in board ==> Distinct(board[id].neighbors)
  }

  predicate WellFormed(board: Board)
  {
    Closed(board) && Symmetric(board) && DuplicateFree(board)
  }

  /** Every region named in `ids` is owned by `p` (true of no ids). */
  predicate AllOwnedBy(board: Board, ids: seq<RegionId>, p: string)
  {
    forall k :: 0 <= k < |ids| ==> ids[k] in board && board[ids[k]].owner == p
  }

  /** Some region named in `ids` is owned by `p`. */
  predicate SomeOwnedBy(board: Board, ids: seq<RegionId>, p: string)
  {
    exists k :: 0 <= k < |ids| && ids[k] in board && board[ids[k]].owner == p
  }

  /** The graph after `a.addNeighbor(b)`: `b` is appended to `a`'s list unless
      already there, and then `b.addNeighbor(a)` appends `a` to `b`'s list
      unless already there (the third level of that recursion finds `b` in
      `a`'s list and stops). */
  function Link(board: Board, a: RegionId, b: RegionId): (linked: Board)
    requires a in board && b in board
    ensures linked.Keys == board.Keys
    ensures forall id :: id in board && id != a && id != b ==> linked[id] == board[id]
    ensures forall id :: id in board ==>
      linked[id] == board[id].(neighbors := linked[id].neighbors)
    ensures b in linked[a].neighbors
  {
    if b in board[a].neighbors then board
    else
      var once := board[a := board[a].(neighbors := board[a].neighbors + [b])];
      if a in once[b].neighbors then once
      else once[b := once[b].(neighbors := once[b].neighbors + [a])]
  }

  /** After linking, each region is in the other's list (given symmetry before). */
  lemma LinkConnects(board: Board, a: RegionId, b: RegionId)
    requires a in board && b in board && Symmetric(board)
    ensures b in Link(board, a, b)[a].neighbors && a in Link(board, a, b)[b].neighbors
  {
  }

  /** Linking keeps adjacency closed, symmetric and free of duplicates. */
  lemma LinkPreservesWellFormed(board: Board, a: RegionId, b: RegionId)
    requires a in board && b in board && WellFormed(board)
    ensures WellFormed(Link(board, a, b))
  {
    LinkKeepsClosed(board, a, b);
    LinkKeepsSymmetric(board, a, b);
    LinkKeepsDuplicateFree(board, a, b);
  }

  lemma LinkKeepsClosed(board: Board, a: RegionId, b: RegionId)
    requires a in board && b in board && Closed(board)
    ensures Closed(Link(board, a, b))
  {
    var linked := Link(board, a, b);
    forall id | id in linked ensures linked[id].id == id && InBoard(linked, linked[id].neighbors) {
      var s := linked[id].neighbors;
      forall k | 0 <= k < |s| ensures s[k] in linked {
        if k < |board[id].neighbors| {
          assert s[k] == board[id].neighbors[k];
        }
      }
    }
  }

  lemma LinkKeepsSymmetric(board: Board, a: RegionId, b: RegionId)
    requires a in board && b in board && Symmetric(board)
    ensures Symmetric(Link(board, a, b))
  {
    var linked := Link(board, a, b);
    if b !in board[a].neighbors {
      forall x, y | x in linked && y in linked[x].neighbors
        ensures y in linked && x in linked[y].neighbors
      {
        if x == a && y == b {
        } else if x == b && y == a {
        } else {
          assert y in board[x].neighbors;
        }
      }
    }
  }

  /** `addNeighbor` never appends a region already in the list, so it adds
      no duplicate to any graph, symmetric or not. */
  lemma LinkKeepsDuplicateFree(board: Board, a: RegionId, b: RegionId)
    requires a in board && b in board && DuplicateFree(board)
    ensures DuplicateFree(Link(board, a, b))
  {
    var linked := Link(board, a, b);
    if b !in board[a].neighbors {
      var once := board[a := board[a].(neighbors := board[a].neighbors + [b])];
      assert Distinct(once[a].neighbors) by {
        var s := once[a].neighbors;
        forall i, j | 0 <= i < j < |s| ensures s[i] != s[j] {
          if j == |board[a].neighbors| {
            assert s[i] == board[a].neighbors[i];
          }
        }
      }
      if a !in once[b].neighbors {
        assert Distinct(linked[b].neighbors) by {
          var s := linked[b].neighbors;
          assert s == once[b].neighbors + [a];
          forall i, j | 0 <= i < j < |s| ensures s[i] != s[j] {
            if j == |once[b].neighbors| {
              assert s[i] == once[b].neighbors[i];
            }
          }
        }
      }
    }
  }

  /** Linking the same pair again changes nothing, in either order. */
  lemma LinkIdempotent(board: Board, a: RegionId, b: RegionId)
    requires a in board && b in board && Symmetric(board)
    ensures Link(Link(board, a, b), a, b) == Link(board, a, b)
    ensures Link(Link(board, a, b), b, a) == Link(board, a, b)
  {
    LinkConnects(board, a, b);
  }

  /** In a symmetric graph `isNeighbor` is symmetric. */
  lemma IsNeighborSymmetric(board: Board, a: RegionId, b: RegionId)
    requires WellFormed(board) && a in board && b in board
    ensures board[a].IsNeighbor(b) <==> board[b].IsNeighbor(a)
  {
  }

  /** The arena holding the regions; the methods mirror Region's mutators
      and queries, addressing a region by its id. */
  class RegionGraph {
    var regions: Board

    ghost predicate Valid()
      reads this
    {
      WellFormed(regions)
    }

    constructor ()
      ensures Valid() && regions == map[]
    {
      regions := map[];
    }

    /** `new Region(id, superRegion)`: no neighbours, owner "unknown", no armies. */
    method NewRegion(id: RegionId, superRegion: int)
      requires Valid() && id !in regions
      modifies this
      ensures Valid()
      ensures regions == old(regions)[id := Region(id, superRegion, Unknown, 0, [])]
    {
      regions := regions[id := Region(id, superRegion, Unknown, 0, [])];
    }

    /** `new Region(id, superRegion, playerName, armies)`. */
    method NewOwnedRegion(id: RegionId, superRegion: int, playerName: string, armies: int)
      requires Valid() && id !in regions
      modifies this
      ensures Valid()
      ensures regions == old(regions)[id := Region(id, superRegion, playerName, armies, [])]
    {
      regions := regions[id := Region(id, superRegion, playerName, armies, [])];
    }

    /** `a.addNeighbor(b)`. */
    method AddNeighbor(a: RegionId, b: RegionId)
      requires Valid() && a in regions && b in regions
      modifies this
      ensures Valid()
      ensures regions == Link(old(regions), a, b)
      ensures b in regions[a].neighbors && a in regions[b].neighbors
    {
      LinkPreservesWellFormed(regions, a, b);
      LinkConnects(regions, a, b);
      if b !in regions[a].neighbors {
        regions := regions[a := regions[a].(neighbors := regions[a].neighbors + [b])];
        if a !in regions[b].neighbors {
          regions := regions[b := regions[b].(neighbors := regions[b].neighbors + [a])];
        }
      }
    }

    /** `setArmies`: only that region's army count changes. */
    method SetArmies(id: RegionId, armies: int)
      requires Valid() && id in regions
      modifies this
      ensures Valid()
      ensures regions == old(regions)[id := old(regions)[id].(armies := armies)]
    {
      regions := regions[id := regions[id].(armies := armies)];
    }

    /** `setPlayerName`: only that region's owner changes. */
    method SetPlayerName(id: RegionId, playerName: string)
      requires Valid() && id in regions
      modifies this
      ensures Valid()
      ensures regions == old(regions)[id := old(regions)[id].(owner := playerName)]
    {
      regions := regions[id := regions[id].(owner := playerName)];
    }

    /** `Region.isSafe()`: every neighbour has this region's own owner. */
    method IsSafe(id: RegionId) returns (res: bool)
      requires Valid() && id in regions
      ensures res <==> AllOwnedBy(regions, regions[id].neighbors, regions[id].owner)
      ensures regions[id].neighbors == [] ==> res
    {
      var neighbors := regions[id].neighbors;
      var me := regions[id].owner;
      var i := 0;
      res := true;
      while i < |neighbors| && res
        invariant 0 <= i <= |neighbors|
        invariant res <==> AllOwnedBy(regions, neighbors[..i], me)
      {
        res := regions[neighbors[i]].OwnedByPlayer(me);
        i := i + 1;
      }
      assert i == |neighbors| ==> neighbors[..i] == neighbors;
    }

    /** `Region.isThreatened(opponentName)`: some neighbour is the opponent's. */
    method IsThreatened(id: RegionId, opponentName: string) returns (res: bool)
      requires Valid() && id in regions
      ensures res <==> SomeOwnedBy(regions, regions[id].neighbors, opponentName)
    {
      var neighbors := regions[id].neighbors;
      var i := 0;
      res := false;
      while i < |neighbors| && !res
        invariant 0 <= i <= |neighbors|
        invariant res <==> SomeOwnedBy(regions, neighbors[..i], opponentName)
      {
        res := regions[neighbors[i]].OwnedByPlayer(opponentName);
        i := i + 1;
      }
      assert i == |neighbors| ==> neighbors[..i] == neighbors;
    }
  }
}
