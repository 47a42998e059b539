/** BotStarter.getPlaceArmiesMoves: proportional reinforcement of the owned
    regions that are not safe, with the rounding remainder sent to the most
    exposed one. */
module Placing {
  import opened JavaInt
  import opened Regions
  import opened Advantages
  import opened Moves
  import opened Risk
  import opened Ranking

  /** Length of the leading run of negative differences (`ind`). */
  function NegativeCount(ranked: seq<Advantage>): (ind: nat)
    ensures ind <= |ranked|
    ensures forall k :: 0 <= k < ind ==> ranked[k].difference < 0
    ensures ind < |ranked| ==> ranked[ind].difference >= 0
  {
    if ranked == [] || ranked[0].difference >= 0 then 0
    else 1 + NegativeCount(ranked[1..])
  }

  /** Sum of the differences. */
  function DifferenceTotal(s: seq<Advantage>): int
  {
    if s == [] then 0 else DifferenceTotal(s[..|s| - 1]) + s[|s| - 1].difference
  }

  lemma {:induction false} NegativeTotal(s: seq<Advantage>)
    requires forall k :: 0 <= k < |s| ==> s[k].difference < 0
    ensures s == [] <==> DifferenceTotal(s) == 0
    ensures DifferenceTotal(s) <= 0
  {
    if s != [] {
      NegativeTotal(s[..|s| - 1]);
    }
  }

  /** `(int) (initialTroops * troopRate)` with `troopRate = difference / overall`
      taken exactly; `overall` is 0 only when every difference is 0, where the
      float quotient is NaN and its cast 0. */
  function Share(pool: int, difference: int, overall: int): (share: int)
    ensures overall == 0 ==> share == 0
    ensures pool >= 0 && ((overall < 0 && overall <= difference <= 0) || 0 <= difference <= overall) ==>
      0 <= share <= pool
  {
    if overall == 0 then 0
    else
      ShareWithinPool(pool, difference, overall);
      TruncDiv(pool * difference, overall)
  }

  lemma ShareWithinPool(pool: int, difference: int, overall: int)
    requires overall != 0
    ensures pool >= 0 && ((overall < 0 && overall <= difference <= 0) || 0 <= difference <= overall) ==>
      0 <= TruncDiv(pool * difference, overall) <= pool
  {
    if pool >= 0 && overall < 0 && overall <= difference <= 0 {
      TruncDivNonPositive(pool * difference, overall);
      TruncDivIsFloor(-difference * pool, -overall);
      TruncScaleBound(pool, -difference, -overall);
    } else if pool >= 0 && 0 <= difference <= overall {
      TruncScaleBound(pool, difference, overall);
    }
  }

  /** Of two negative differences the larger deficit never gets the smaller
      share: reinforcement is concentrated on the worst regions. */
  lemma ShareConcentrates(pool: int, d1: int, d2: int, overall: int)
    requires pool >= 0 && d1 <= d2 < 0 && overall < 0
    ensures Share(pool, d1, overall) >= Share(pool, d2, overall) >= 0
  {
    ScaledDeficits(pool, d1, d2);
    TruncDivNonPositive(pool * d1, overall);
    TruncDivNonPositive(pool * d2, overall);
    DivMonotone(-(pool * d2), -(pool * d1), -overall);
  }

  lemma ScaledDeficits(pool: int, d1: int, d2: int)
    requires pool >= 0 && d1 <= d2 < 0
    ensures pool * d1 <= pool * d2 <= 0
  {
    assert pool * d2 - pool * d1 == pool * (d2 - d1);
    assert pool * d2 == -(pool * (-d2));
  }

  /** A share of a difference with the sign of `overall` (`s` is that sign)
      is non-negative and at most the pool's exact proportion. */
  lemma ShareScaled(pool: int, difference: int, overall: int, s: int)
    requires pool >= 0 && overall != 0 && s == (if overall > 0 then 1 else -1)
    requires s * difference >= 0
    ensures 0 <= Share(pool, difference, overall)
    ensures Share(pool, difference, overall) * (s * overall) <= pool * (s * difference)
  {
    if overall > 0 {
      assert pool * difference >= 0;
      TruncDivIsFloor(pool * difference, overall);
      FloorBounds(pool * difference, overall);
    } else {
      assert pool * (s * difference) == -(pool * difference) >= 0;
      TruncDivNonPositive(pool * difference, overall);
      FloorBounds(-(pool * difference), -overall);
    }
  }

  /** Reference for the proportional loop when the budget never runs short:
      one placement per entry whose share is positive, in ranking order. */
  function FullShares(me: string, entries: seq<Advantage>, overall: int, pool: int): (moves: seq<Placement>)
    ensures forall k :: 0 <= k < |moves| ==> moves[k].armies > 0 && moves[k].player == me
  {
    if entries == [] then []
    else
      var e := entries[|entries| - 1];
      var share := Share(pool, e.difference, overall);
      FullShares(me, entries[..|entries| - 1], overall, pool)
        + (if share > 0 then [Placement(me, e.region, share)] else [])
  }

  /** Truncated shares of differences of one sign add up to at most the pool's
      exact proportion of their total. */
  lemma {:induction false} FullSharesBound(me: string, entries: seq<Advantage>, overall: int, pool: int, s: int)
    requires pool >= 0 && overall != 0 && s == (if overall > 0 then 1 else -1)
    requires forall k :: 0 <= k < |entries| ==> s * entries[k].difference >= 0
    ensures PlacedTotal(FullShares(me, entries, overall, pool)) * (s * overall) <= pool * (s * DifferenceTotal(entries))
  {
    if entries != [] {
      var init := entries[..|entries| - 1];
      var e := entries[|entries| - 1];
      assert forall k :: 0 <= k < |init| ==> init[k] == entries[k];
      FullSharesBound(me, init, overall, pool, s);
      ShareScaled(pool, e.difference, overall, s);
      FullSharesTotal(me, entries, overall, pool);
      MulDistrib(s, DifferenceTotal(init), e.difference);
      ScaledSum(PlacedTotal(FullShares(me, init, overall, pool)), Share(pool, e.difference, overall),
                PlacedTotal(FullShares(me, entries, overall, pool)), s * overall,
                pool, s * DifferenceTotal(init), s * e.difference, s * DifferenceTotal(entries));
    }
  }

  /** The last entry adds its share to the full total when that share is positive. */
  lemma FullSharesTotal(me: string, entries: seq<Advantage>, overall: int, pool: int)
    requires entries != []
    ensures var share := Share(pool, entries[|entries| - 1].difference, overall);
      PlacedTotal(FullShares(me, entries, overall, pool))
        == PlacedTotal(FullShares(me, entries[..|entries| - 1], overall, pool)) + (if share > 0 then share else 0)
  {
    var e := entries[|entries| - 1];
    var share := Share(pool, e.difference, overall);
    var last := if share > 0 then [Placement(me, e.region, share)] else [];
    PlacedTotalAppend(FullShares(me, entries[..|entries| - 1], overall, pool), last);
    if share > 0 {
      assert last[..0] == [];
    }
  }

  lemma MulDistrib(s: int, x: int, y: int)
    ensures s * (x + y) == s * x + s * y
  {
  }

  lemma ScaledSum(before: int, share: int, sum: int, w: int, pool: int, total: int, diff: int, sumDiff: int)
    requires before * w <= pool * total && share * w <= pool * diff
    requires sum == before + share && sumDiff == total + diff
    ensures sum * w <= pool * sumDiff
  {
    assert (before + share) * w == before * w + share * w;
    assert pool * (total + diff) == pool * total + pool * diff;
  }

  /** With a zero total every share is zero, so nothing is placed. */
  lemma {:induction false} FullSharesZero(me: string, entries: seq<Advantage>, pool: int)
    ensures FullShares(me, entries, 0, pool) == []
  {
    if entries != [] {
      FullSharesZero(me, entries[..|entries| - 1], pool);
    }
  }

  lemma {:induction false} NonNegativeTotal(s: seq<Advantage>)
    requires forall k :: 0 <= k < |s| ==> s[k].difference >= 0
    ensures DifferenceTotal(s) >= 0
  {
    if s != [] {
      NonNegativeTotal(s[..|s| - 1]);
    }
  }

  /** The regions of a ranking, in order. */
  function RegionsOf(s: seq<Advantage>): (r: seq<RegionId>)
    ensures |r| == |s| && forall i :: 0 <= i < |s| ==> r[i] == s[i].region
  {
    if s == [] then [] else RegionsOf(s[..|s| - 1]) + [s[|s| - 1].region]
  }

  /** Units handed out so far, and the running `armiesLeft`. */
  datatype Allotment = Allotment(moves: seq<Placement>, left: int)

  /** One pass of the proportional loop: the entry for `region` gets `share`
      when the share is positive and still covered by what is left. */
  function Grant(me: string, a: Allotment, region: RegionId, share: int): (b: Allotment)
    ensures b.left - a.left == PlacedTotal(a.moves) - PlacedTotal(b.moves)
    ensures b == a || (b.moves == a.moves + [Placement(me, region, share)] && share > 0 && b.left == a.left - share >= 0)
  {
    if a.left >= share && share > 0 then
      var moves := a.moves + [Placement(me, region, share)];
      assert moves[..|moves| - 1] == a.moves;
      Allotment(moves, a.left - share)
    else a
  }

  /** A pass whose share, when positive, is covered by what is left after
      `moves` appends exactly that share, and nothing otherwise. */
  lemma GrantExtends(me: string, moves: seq<Placement>, region: RegionId, share: int, pool: int)
    requires PlacedTotal(moves) + (if share > 0 then share else 0) <= pool
    ensures Grant(me, Allotment(moves, pool - PlacedTotal(moves)), region, share).moves
         == moves + (if share > 0 then [Placement(me, region, share)] else [])
  {
    assert moves + [] == moves;
  }

  /** The proportional loop over `entries` with budget `pool`. */
  function Distribute(me: string, entries: seq<Advantage>, overall: int, pool: int): (a: Allotment)
    ensures a.left == pool - PlacedTotal(a.moves)
    ensures forall k :: 0 <= k < |a.moves| ==> a.moves[k].armies > 0 && a.moves[k].player == me
    ensures pool >= 0 ==> a.left >= 0
    ensures pool <= 0 ==> a.moves == []
    ensures forall k :: 0 <= k < |a.moves| ==> a.moves[k].region in RegionsOf(entries)
  {
    if entries == [] then Allotment([], pool)
    else
      var init := entries[..|entries| - 1];
      var e := entries[|entries| - 1];
      var a := Distribute(me, init, overall, pool);
      var b := Grant(me, a, e.region, Share(pool, e.difference, overall));
      assert RegionsOf(entries) == RegionsOf(init) + [e.region];
      assert b != a ==> forall k :: 0 <= k < |a.moves| ==> b.moves[k] == a.moves[k];
      b
  }

  /** When the full shares fit the pool the loop refuses no entry: it places
      exactly one share per entry whose share is positive, in order. */
  lemma {:induction false} DistributeFull(me: string, entries: seq<Advantage>, overall: int, pool: int)
    requires PlacedTotal(FullShares(me, entries, overall, pool)) <= pool
    ensures Distribute(me, entries, overall, pool).moves == FullShares(me, entries, overall, pool)
  {
    if entries != [] {
      var init := entries[..|entries| - 1];
      var e := entries[|entries| - 1];
      FullSharesTotal(me, entries, overall, pool);
      DistributeFull(me, init, overall, pool);
      assert Distribute(me, init, overall, pool)
          == Allotment(FullShares(me, init, overall, pool), pool - PlacedTotal(FullShares(me, init, overall, pool)));
      GrantExtends(me, FullShares(me, init, overall, pool), e.region, Share(pool, e.difference, overall), pool);
    }
  }

  /** The entries the proportional stage shares among: the negative prefix
      when there is one, otherwise the whole ranking. */
  function Sharing(ranked: seq<Advantage>): (entries: seq<Advantage>)
    ensures ranked != [] ==> |entries| > 0 && entries[0] == ranked[0]
  {
    var ind := NegativeCount(ranked);
    if ind > 0 then ranked[..ind] else ranked
  }

  /** Reference for the proportional stage: the full shares of the entries
      shared among, each against their total. */
  function RankedShares(me: string, ranked: seq<Advantage>, pool: int): seq<Placement>
  {
    FullShares(me, Sharing(ranked), DifferenceTotal(Sharing(ranked)), pool)
  }

  /** On a sorted ranking the entries shared among all have the sign of their
      total, so their full shares fit the pool. */
  lemma SharingFits(me: string, ranked: seq<Advantage>, pool: int)
    requires Sorted(ranked) && pool >= 0
    ensures PlacedTotal(RankedShares(me, ranked, pool)) <= pool
  {
    var entries := Sharing(ranked);
    var overall := DifferenceTotal(entries);
    var total := PlacedTotal(RankedShares(me, ranked, pool));
    if NegativeCount(ranked) > 0 {
      NegativeTotal(entries);
      FullSharesBound(me, entries, overall, pool, -1);
      MulLeCancel(total, pool, -overall);
    } else if ranked != [] {
      forall k | 0 <= k < |ranked|
        ensures ranked[k].difference >= 0
      {
        if k > 0 {
          assert CompareTo(ranked[0], ranked[k]) <= 0;
        }
      }
      NonNegativeTotal(entries);
      if overall == 0 {
        FullSharesZero(me, entries, pool);
      } else {
        FullSharesBound(me, entries, overall, pool, 1);
        MulLeCancel(total, pool, overall);
      }
    }
  }

  /** The proportional stage: shares over the negative prefix when it is not
      empty, otherwise over every ranked region. */
  function Proportional(me: string, ranked: seq<Advantage>, pool: int): (a: Allotment)
    ensures a.left == pool - PlacedTotal(a.moves)
    ensures pool >= 0 ==> a.left >= 0
    ensures forall k :: 0 <= k < |a.moves| ==> a.moves[k].armies > 0 && a.moves[k].player == me
  {
    var ind := NegativeCount(ranked);
    var negative := DifferenceTotal(ranked[..ind]);
    if negative < 0 then Distribute(me, ranked[..ind], negative, pool)
    else Distribute(me, ranked, negative + DifferenceTotal(ranked), pool)
  }

  /** The two branches of the proportional stage are one loop over the
      entries shared among, against their total. */
  lemma ProportionalSharing(me: string, ranked: seq<Advantage>, pool: int)
    ensures Proportional(me, ranked, pool) == Distribute(me, Sharing(ranked), DifferenceTotal(Sharing(ranked)), pool)
  {
    var ind := NegativeCount(ranked);
    NegativeTotal(ranked[..ind]);
    if ind == 0 {
      assert ranked[..ind] == [];
    }
  }

  /** On a sorted ranking with a non-negative pool every entry shared among
      gets its full share: the stage places exactly `RankedShares`. */
  lemma ProportionalFull(me: string, ranked: seq<Advantage>, pool: int)
    requires Sorted(ranked) && pool >= 0
    ensures Proportional(me, ranked, pool).moves == RankedShares(me, ranked, pool)
  {
    ProportionalSharing(me, ranked, pool);
    SharingFits(me, ranked, pool);
    DistributeFull(me, Sharing(ranked), DifferenceTotal(Sharing(ranked)), pool);
  }

  /** The placements getPlaceArmiesMoves returns for the ranking `ranked`, or
      the exception of indexing an empty ranking for the remainder. */
  function PlaceArmies(me: string, ranked: seq<Advantage>, pool: int): (r: Result<seq<Placement>>)
    ensures r.Err? ==> r == Err(IndexOutOfBounds) && ranked == []
    ensures r.Ok? ==> forall k :: 0 <= k < |r.value| ==> r.value[k].armies > 0 && r.value[k].player == me
  {
    var a := Proportional(me, ranked, pool);
    assert a.moves + [] == a.moves;
    if a.left > 0 then
      if ranked == [] then Err(IndexOutOfBounds)
      else Ok(a.moves + [Placement(me, ranked[0].region, a.left)])
    else Ok(a.moves)
  }

  /** Reference for the whole placement on a non-empty ranking: the full
      shares, then what rounding leaves over as one placement on the first
      ranked region. */
  function SharedPlacements(me: string, ranked: seq<Advantage>, pool: int): seq<Placement>
    requires ranked != []
  {
    var shares := RankedShares(me, ranked, pool);
    var rest := pool - PlacedTotal(shares);
    shares + (if rest > 0 then [Placement(me, ranked[0].region, rest)] else [])
  }

  /** On a sorted ranking with a non-negative pool every region shared among
      gets its full share, in ranking order, and what rounding leaves over is
      one placement on the first ranked region. */
  lemma PlaceArmiesShares(me: string, ranked: seq<Advantage>, pool: int)
    requires Sorted(ranked) && pool >= 0 && ranked != []
    ensures PlaceArmies(me, ranked, pool) == Ok(SharedPlacements(me, ranked, pool))
  {
    ProportionalFull(me, ranked, pool);
    var a := Proportional(me, ranked, pool);
    var shares := RankedShares(me, ranked, pool);
    assert a == Allotment(shares, pool - PlacedTotal(shares));
    assert shares + [] == shares;
  }

  /** The budget: every placement is positive; the pool is placed in full
      whenever a region is ranked, never over-spent, and nothing is placed from
      an empty or negative pool; the only failure is a positive pool with
      nothing ranked. */
  lemma PlacementBudget(me: string, ranked: seq<Advantage>, pool: int)
    ensures PlaceArmies(me, ranked, pool).Err? <==> ranked == [] && pool > 0
    ensures PlaceArmies(me, ranked, pool).Ok? ==>
      var moves := PlaceArmies(me, ranked, pool).value;
      && (forall k :: 0 <= k < |moves| ==> moves[k].armies > 0 && moves[k].player == me)
      && (ranked != [] && pool >= 0 ==> PlacedTotal(moves) == pool)
      && (pool <= 0 ==> moves == [])
      && PlacedTotal(moves) <= if pool < 0 then 0 else pool
  {
    var a := Proportional(me, ranked, pool);
    if ranked == [] {
      assert a == Allotment([], pool);
    }
    if a.left > 0 && ranked != [] {
      var moves := a.moves + [Placement(me, ranked[0].region, a.left)];
      assert moves[..|moves| - 1] == a.moves;
    }
  }

  /** The regions the proportional stage may reinforce: the negative prefix
      when there is one, otherwise the whole ranking. */
  function Eligible(ranked: seq<Advantage>): (r: seq<RegionId>)
    ensures ranked != [] ==> |r| > 0 && r[0] == ranked[0].region
  {
    RegionsOf(Sharing(ranked))
  }

  lemma ProportionalTargets(me: string, ranked: seq<Advantage>, pool: int)
    ensures var a := Proportional(me, ranked, pool);
      forall k :: 0 <= k < |a.moves| ==> a.moves[k].region in Eligible(ranked)
  {
    var ind := NegativeCount(ranked);
    NegativeTotal(ranked[..ind]);
    if ind == 0 {
      assert ranked[..ind] == [];
    }
  }

  /** Branch choice: when some difference is negative, only the regions of
      the negative prefix are reinforced (the remainder goes to index 0, also
      in it); otherwise every placement goes to a ranked region. */
  lemma PlacementTargets(me: string, ranked: seq<Advantage>, pool: int)
    requires PlaceArmies(me, ranked, pool).Ok?
    ensures var moves := PlaceArmies(me, ranked, pool).value;
      forall k :: 0 <= k < |moves| ==> moves[k].region in Eligible(ranked)
  {
    ProportionalTargets(me, ranked, pool);
    var a := Proportional(me, ranked, pool);
    if a.left > 0 {
      var moves := a.moves + [Placement(me, ranked[0].region, a.left)];
      assert forall k :: 0 <= k < |a.moves| ==> moves[k] == a.moves[k];
    }
  }

  /** A pool of 5 over differences -4 and -1 is split 4 and 1, leaving no
      remainder. */
  lemma TwoDeficitsSplit()
    ensures PlaceArmies("me", [Advantage(1, -4), Advantage(2, -1)], 5)
         == Ok([Placement("me", 1, 4), Placement("me", 2, 1)])
  {
    var ranked := [Advantage(1, -4), Advantage(2, -1)];
    assert NegativeCount(ranked[1..]) == 1;
    assert NegativeCount(ranked) == 2;
    assert ranked[..2] == ranked;
    assert ranked[..1] == [Advantage(1, -4)];
    assert ranked[..1][..0] == [];
    assert DifferenceTotal(ranked[..1]) == -4;
    assert DifferenceTotal(ranked) == -5;
    assert Share(5, -4, -5) == 4;
    assert Share(5, -1, -5) == 1;
    assert ranked[..1][..0] == [];
    assert Distribute("me", [], -5, 5) == Allotment([], 5);
    var first := Distribute("me", ranked[..1], -5, 5);
    assert first == Allotment([Placement("me", 1, 4)], 1);
    assert Distribute("me", ranked, -5, 5) == Allotment([Placement("me", 1, 4), Placement("me", 2, 1)], 0);
    assert Proportional("me", ranked, 5) == Allotment([Placement("me", 1, 4), Placement("me", 2, 1)], 0);
  }

  /** The loop of getPlaceArmiesMoves that collects the owned regions that
      are not safe. */
  method CollectFortifiable(board: Board, visible: seq<RegionId>, me: string)
    returns (fortifiableRegions: seq<RegionId>)
    requires Closed(board) && InBoard(board, visible)
    ensures fortifiableRegions == Endangered(board, visible, me)
  {
    fortifiableRegions := [];
    for j := 0 to |visible|
      invariant fortifiableRegions == Endangered(board, visible[..j], me)
    {
      assert visible[..j + 1][..j] == visible[..j];
      var r := visible[j];
      if board[r].OwnedByPlayer(me) {
        var safe := IsSafe(board, r, me);
        if !safe {
          fortifiableRegions := fortifiableRegions + [r];
        }
      }
    }
    assert visible[..|visible|] == visible;
  }

  /** The loop of getPlaceArmiesMoves that finds `ind` and sums the negative
      differences before it. */
  method SumNegativePrefix(neighborAdvantages: seq<Advantage>) returns (ind: nat, negativeAdvantageOverall: int)
    ensures ind == NegativeCount(neighborAdvantages)
    ensures negativeAdvantageOverall == DifferenceTotal(neighborAdvantages[..ind])
    ensures negativeAdvantageOverall < 0 <==> ind > 0
  {
    negativeAdvantageOverall := 0;
    ind := 0;
    while ind < |neighborAdvantages| && neighborAdvantages[ind].difference < 0
      invariant 0 <= ind <= NegativeCount(neighborAdvantages)
      invariant negativeAdvantageOverall == DifferenceTotal(neighborAdvantages[..ind])
    {
      assert neighborAdvantages[..ind + 1][..ind] == neighborAdvantages[..ind];
      negativeAdvantageOverall := negativeAdvantageOverall + neighborAdvantages[ind].difference;
      ind := ind + 1;
    }
    NegativeTotal(neighborAdvantages[..ind]);
  }

  /** The proportional loop after `i` entries, one entry further. */
  lemma DistributeStep(me: string, entries: seq<Advantage>, i: nat, overall: int, pool: int)
    requires i < |entries|
    ensures Distribute(me, entries[..i + 1], overall, pool)
         == Grant(me, Distribute(me, entries[..i], overall, pool), entries[i].region, Share(pool, entries[i].difference, overall))
  {
    assert entries[..i + 1][..i] == entries[..i];
  }

  /** The loop of getPlaceArmiesMoves over the negative prefix (indices
      below `ind`), each share taken against the prefix's total. */
  method DeficitShares(me: string, neighborAdvantages: seq<Advantage>, ind: nat,
                       negativeAdvantageOverall: int, initialTroops: int)
    returns (placeArmiesMoves: seq<Placement>, armiesLeft: int)
    requires ind <= |neighborAdvantages|
    requires forall k :: 0 <= k < ind ==> neighborAdvantages[k].difference < 0
    ensures Distribute(me, neighborAdvantages[..ind], negativeAdvantageOverall, initialTroops)
         == Allotment(placeArmiesMoves, armiesLeft)
  {
    var entries := neighborAdvantages[..ind];
    placeArmiesMoves, armiesLeft := [], initialTroops;
    for i := 0 to ind
      invariant Distribute(me, entries[..i], negativeAdvantageOverall, initialTroops)
             == Allotment(placeArmiesMoves, armiesLeft)
    {
      DistributeStep(me, entries, i, negativeAdvantageOverall, initialTroops);
      assert entries[i] == neighborAdvantages[i];
      if neighborAdvantages[i].difference < 0 {
        var destinedTroops := Share(initialTroops, neighborAdvantages[i].difference, negativeAdvantageOverall);
        if armiesLeft >= destinedTroops && destinedTroops > 0 {
          placeArmiesMoves := placeArmiesMoves + [Placement(me, neighborAdvantages[i].region, destinedTroops)];
          armiesLeft := armiesLeft - destinedTroops;
        }
      }
    }
    assert entries[..ind] == entries;
  }

  /** The two loops of getPlaceArmiesMoves for a ranking with no negative
      difference: total every difference onto `negativeAdvantageOverall`, then
      give each region its share of that total. */
  method SurplusShares(me: string, neighborAdvantages: seq<Advantage>,
                       negativeAdvantageOverall: int, initialTroops: int)
    returns (placeArmiesMoves: seq<Placement>, armiesLeft: int)
    ensures Distribute(me, neighborAdvantages, negativeAdvantageOverall + DifferenceTotal(neighborAdvantages), initialTroops)
         == Allotment(placeArmiesMoves, armiesLeft)
  {
    var overall := AddDifferences(neighborAdvantages, negativeAdvantageOverall);
    placeArmiesMoves, armiesLeft := ShareAll(me, neighborAdvantages, overall, initialTroops);
  }

  /** The second loop of the surplus branch: each region its share of `overall`. */
  method ShareAll(me: string, neighborAdvantages: seq<Advantage>, overall: int, initialTroops: int)
    returns (placeArmiesMoves: seq<Placement>, armiesLeft: int)
    ensures Distribute(me, neighborAdvantages, overall, initialTroops) == Allotment(placeArmiesMoves, armiesLeft)
  {
    placeArmiesMoves, armiesLeft := [], initialTroops;
    for i := 0 to |neighborAdvantages|
      invariant Distribute(me, neighborAdvantages[..i], overall, initialTroops)
             == Allotment(placeArmiesMoves, armiesLeft)
    {
      DistributeStep(me, neighborAdvantages, i, overall, initialTroops);
      var destinedTroops := Share(initialTroops, neighborAdvantages[i].difference, overall);
      if armiesLeft >= destinedTroops && destinedTroops > 0 {
        placeArmiesMoves := placeArmiesMoves + [Placement(me, neighborAdvantages[i].region, destinedTroops)];
        armiesLeft := armiesLeft - destinedTroops;
      }
    }
    assert neighborAdvantages[..|neighborAdvantages|] == neighborAdvantages;
  }

  /** The first loop of the surplus branch: every difference added onto `start`. */
  method AddDifferences(neighborAdvantages: seq<Advantage>, start: int) returns (overall: int)
    ensures overall == start + DifferenceTotal(neighborAdvantages)
  {
    overall := start;
    for i := 0 to |neighborAdvantages|
      invariant overall == start + DifferenceTotal(neighborAdvantages[..i])
    {
      assert neighborAdvantages[..i + 1][..i] == neighborAdvantages[..i];
      overall := overall + neighborAdvantages[i].difference;
    }
    assert neighborAdvantages[..|neighborAdvantages|] == neighborAdvantages;
  }

  /** The proportional stage of getPlaceArmiesMoves: find `ind` and the
      negative total, then share over the negative prefix or over everything. */
  method ProportionalShares(me: string, neighborAdvantages: seq<Advantage>, initialTroops: int)
    returns (placeArmiesMoves: seq<Placement>, armiesLeft: int)
    ensures Proportional(me, neighborAdvantages, initialTroops) == Allotment(placeArmiesMoves, armiesLeft)
  {
    var ind, negativeAdvantageOverall := SumNegativePrefix(neighborAdvantages);
    if negativeAdvantageOverall < 0 {
      placeArmiesMoves, armiesLeft := DeficitShares(me, neighborAdvantages, ind, negativeAdvantageOverall, initialTroops);
    } else {
      placeArmiesMoves, armiesLeft := SurplusShares(me, neighborAdvantages, negativeAdvantageOverall, initialTroops);
    }
  }

  /** `getPlaceArmiesMoves`. */
  method GetPlaceArmiesMoves(board: Board, visible: seq<RegionId>, me: string, initialTroops: int)
    returns (result: Result<seq<Placement>>)
    requires Closed(board) && InBoard(board, visible)
    ensures result == PlaceArmies(me, Rank(board, Endangered(board, visible, me), me), initialTroops)
  {
    var fortifiableRegions := CollectFortifiable(board, visible, me);
    var neighborAdvantages := ComputeTroopDifferences(board, fortifiableRegions, me);
    var placeArmiesMoves, armiesLeft := ProportionalShares(me, neighborAdvantages, initialTroops);
    if armiesLeft > 0 {
      if |neighborAdvantages| == 0 {
        return Err(IndexOutOfBounds);
      }
      placeArmiesMoves := placeArmiesMoves + [Placement(me, neighborAdvantages[0].region, armiesLeft)];
      armiesLeft := armiesLeft - armiesLeft;
    }
    result := Ok(placeArmiesMoves);
  }

  /** For a board: the call fails exactly when no owned region is unsafe and
      there are troops to place, and otherwise places every troop whenever
      some region is fortifiable. */
  lemma PlaceArmiesOnBoard(board: Board, visible: seq<RegionId>, me: string, initialTroops: int)
    requires Closed(board) && InBoard(board, visible)
    ensures var result := PlaceArmies(me, Rank(board, Endangered(board, visible, me), me), initialTroops);
      && (result.Err? <==> Endangered(board, visible, me) == [] && initialTroops > 0)
      && (result.Ok? && Endangered(board, visible, me) != [] && initialTroops >= 0 ==>
            PlacedTotal(result.value) == initialTroops)
  {
    var ranked := Rank(board, Endangered(board, visible, me), me);
    assert |ranked| == |Endangered(board, visible, me)|;
    PlacementBudget(me, ranked, initialTroops);
  }

  /** On the map: for any non-empty list of regions ranked by troop difference
      (getPlaceArmiesMoves ranks `Endangered`) and a non-negative pool, every
      region shared among gets its full share, in ranking order, and the rest
      goes to the most exposed region. */
  lemma RankedPlacement(board: Board, regions: seq<RegionId>, me: string, initialTroops: int)
    requires Closed(board) && InBoard(board, regions)
    requires regions != [] && initialTroops >= 0
    ensures Rank(board, regions, me) != []
    ensures PlaceArmies(me, Rank(board, regions, me), initialTroops)
         == Ok(SharedPlacements(me, Rank(board, regions, me), initialTroops))
  {
    RankSorted(board, regions, me);
    PlaceArmiesShares(me, Rank(board, regions, me), initialTroops);
  }
}
